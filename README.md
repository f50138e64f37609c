# Input guards of the brokencrystals API

brokencrystals is a NestJS service. Its handlers place small, fixed
allow-lists in front of I/O calls. This project models those guards in Dafny
and proves what each one lets through. The guards covered are:

- **File endpoints** (`FileController`). An endpoint asks the file service
  for a file only after two checks. The AWS endpoint checks a path prefix
  and then the provider's base prefix. The Azure, DigitalOcean and Google
  endpoints check the URL's host and then the provider's base prefix. The
  response's content type is set only after the file was obtained.
- **App endpoints** (`AppController`):
  - the template allow-list behind `render`;
  - the host allow-list behind `goto`;
  - the nested-JSON builder;
  - configuration redaction;
  - the secrets endpoint, which always refuses;
  - the command endpoint, which forwards to the service.
- **Service** (`AppService`):
  - the command is split on single spaces;
  - the command and its arguments are checked against allow-lists before
    `spawn`;
  - the service builds the database connection string.

Modules:

- `Common`: `Option`, `Result`, and the HTTP error (status and message) that
  a thrown `HttpException` becomes.
- `Strings`: JavaScript string operations the guards use:
  - `startsWith`;
  - `split` on one character, which keeps empty pieces;
  - `join`;
  - `trim`, over the ECMAScript whitespace and line-terminator characters;
  - `Number.prototype.toString` for non-negative integers.
- `Urls`: a simplified stand-in for the WHATWG `URL` constructor. It handles
  `scheme://[userinfo@]host[:port]rest`, where `rest` starts with `/`, `?`
  or `#` or is empty:
  - The userinfo ends at the last `@` of the authority.
  - The port starts at the first `:` after the userinfo. It must be decimal
    and at most 65535.
  - A `file` URL, in any letter case of the scheme, may carry neither a
    userinfo nor a port.
  - `Serialize` is `toString()` for this grammar. Nothing is normalised.
  - Parsing and serialising are proved to be inverse in both directions.
- `FileGateway`: `file.controller.ts` (src/file/file.controller.ts).
  - The file service and the Fastify reply are classes.
  - The service's ghost log `requested` records every path the service was
    asked for.
  - The reply's `contentType` field records `res.type(...)`.
- `Service`: `app.service.ts`.
  - `AppService` has a ghost log `spawned` of every command given to
    `spawn`.
  - The configuration is a map parameter.
  - What the spawned process does is a parameter: it answers with output,
    fails with a message, or never answers.
- `Controller`: `app.controller.ts`.
  - `AppController` wraps an `AppService`.
  - The JSON values the nested-JSON endpoint builds are a datatype, with
    its `JSON.stringify` text.

The `CloudProvidersMetaData` base prefixes live in
src/file/cloud.providers.metadata.ts, which is not part of this model. They are the fields of a `CloudProviders` value given to the controller, so
every result holds for any values they have.

## Model

| member | source | states |
|---|---|---|
| FileGateway.GetContentType | src/file/file.controller.ts:43-49 | The given type is returned when it is defined and non-empty; otherwise `application/octet-stream`. The result is never empty. |
| FileGateway.AnyPrefix | src/file/file.controller.ts:64 | `some(startsWith)` holds iff one of the allowed prefixes is a prefix of the path. |
| FileGateway.IsValidPath | src/file/file.controller.ts:61-65 | `isValidPath` holds exactly when `config/products/crystals/` is a prefix of the path. |
| FileGateway.IsValidPathAcceptsTraversal | src/file/file.controller.ts:61-65 | `config/products/crystals/../../etc/passwd` is accepted. The prefix without its slash is refused. |
| FileGateway.IsValidUrl | src/file/file.controller.ts:67-76 | `isValidUrl` holds iff the URL parses and its hostname is exactly `example.com`. A URL that does not parse is refused. |
| FileGateway.IsValidUrlOfText | src/file/file.controller.ts:67-76 | For any well-formed URL, its text is accepted iff its host is `example.com`. |
| FileGateway.IsValidUrlAcceptsExactHost | src/file/file.controller.ts:69-72 | `scheme://example.com` followed by any path, query or fragment is accepted. |
| FileGateway.IsValidUrlRejectsSubdomain | src/file/file.controller.ts:69-72 | `scheme://<sub>.example.com...` is refused for every subdomain. |
| FileGateway.IsValidUrlRejectsLongerName | src/file/file.controller.ts:69-72 | A host that extends `example.com`, such as `example.com.evil`, is refused. |
| FileGateway.IsValidUrlRejectsRelative | src/file/file.controller.ts:70-75 | `example.com/resource` has no scheme, so the constructor throws and the check fails. |
| FileGateway.CPCheck | src/file/file.controller.ts:51-54 | The path passes iff the base is a prefix of it. Otherwise the error is 400 `Invalid parameter 'path' <path>`. |
| FileGateway.AwsRequest | src/file/file.controller.ts:106-113 | The AWS request passes iff the path starts with both `config/products/crystals/` and the AWS base. A path without the crystals prefix gets 400 `Invalid file path`; a path with it gets the answer of `CPCheck` for the AWS base. Every failure is a 400. |
| FileGateway.AwsRejectsAllWhenPrefixesDiverge | src/file/file.controller.ts:106-113 | When neither the AWS base nor the crystals prefix is a prefix of the other, every path is refused. |
| FileGateway.UrlRequest | src/file/file.controller.ts:148-155 | A URL endpoint's request passes iff `isValidUrl` holds and the raw text starts with that endpoint's base. A URL that fails the host check gets 400 `Invalid URL`; one that passes gets the answer of `CPCheck` for the base. Every failure is a 400. |
| FileGateway.UrlRequestAcceptsUserinfoTrick | src/file/file.controller.ts:148-155 | For a base `scheme://name` whose scheme is not `file`, the URL `scheme://name@example.com/...` passes both checks, because the base becomes the userinfo. |
| FileGateway.IsValidUrlRefusesFileUserinfo | src/file/file.controller.ts:67-76 | For the scheme `file` in any letter case, `file://name@example.com...` is refused, because a file URL may carry no userinfo. |
| FileGateway.FileService.GetFile | src/file/file.controller.ts:56 | The service is asked for exactly the given path, and the call is appended to the log. |
| FileGateway.Reply.Type | src/file/file.controller.ts:115 | `res.type(t)` sets the content type to `t`. |
| FileGateway.FileController.LoadCPFile | src/file/file.controller.ts:51-59 | The file service is called, once and with the path, iff the path starts with the base. On refusal the log is unchanged and the error is the 400 above. |
| FileGateway.FileController.LoadAwsFile | src/file/file.controller.ts:101-118 | The method succeeds iff `AwsRequest` passes, with the same error on refusal. The service log grows by the path only on success. The content type is set, to `GetContentType` of the query, only on success; on refusal the reply is unchanged. |
| FileGateway.FileController.LoadUrlFile | src/file/file.controller.ts:148-159 | The body shared by the three URL endpoints. It behaves like `LoadAwsFile`, with `UrlRequest` for the endpoint's base. |
| FileGateway.FileController.LoadAzureFile | src/file/file.controller.ts:143-160 | `LoadUrlFile` against the Azure base, whatever the input. |
| FileGateway.FileController.LoadDigitalOceanFile | src/file/file.controller.ts:185-202 | `LoadUrlFile` against the DigitalOcean base, whatever the input. |
| FileGateway.FileController.LoadGoogleFile | src/file/file.controller.ts:227-244 | `LoadUrlFile` against the Google base, whatever the input. |
| Urls.ParseUrl | src/file/file.controller.ts:71 | A successful parse yields a well-formed URL whose serialisation is the input text. A `file` URL with a userinfo or a port does not parse. |
| Urls.ParseSerialize | src/app.controller.ts:99-103 | A well-formed URL survives serialising and parsing again unchanged. |
| Urls.Serialize | src/app.controller.ts:103 | `toString()` of this grammar: the text starts with the scheme and `://`. With ParseSerialize, the text of a well-formed URL reads back as that URL. |
| Strings.StartsWith | src/file/file.controller.ts:52 | `startsWith` is the prefix relation. |
| Strings.Split | src/app.service.ts:24 | The result has at least one piece, and no piece contains the separator. |
| Strings.SplitThenJoin | src/app.service.ts:24 | Joining the pieces with the separator gives the original string. |
| Strings.JoinThenSplit | src/app.service.ts:24 | Splitting a join of separator-free pieces gives those pieces back. |
| Strings.AdjacentSeparatorsGiveEmptyPiece | src/app.service.ts:24 | Two adjacent separators produce an empty piece after the first piece. |
| Strings.TrailingSeparatorGivesEmptyPiece | src/app.service.ts:24 | A trailing separator produces an empty last piece. |
| Strings.Trim | src/app.controller.ts:73 | The result is no longer than the input, and it neither starts nor ends with whitespace. |
| Strings.TrimIgnoresPadding | src/app.controller.ts:73 | Whitespace added on either side does not change the result of `trim`. |
| Strings.TrimKeepsTrimmed | src/app.controller.ts:73 | A string that neither starts nor ends with whitespace is its own trim. |
| Strings.NatToDecimal | src/app.controller.ts:293 | `i.toString()` is a non-empty run of decimal digits with no leading zero. |
| Strings.DecimalRoundTrip | src/app.controller.ts:293 | Reading the decimal text of `n` back gives `n`. |
| Strings.DecimalInjective | src/app.controller.ts:293 | Distinct numbers have distinct texts. |
| Service.ParseCommand | src/app.service.ts:24 | `[exec, ...args]` taken from `split(' ')`. Rejoining `exec` and `args` with single spaces gives the command back, and no piece contains a space. |
| Service.ParseCommandOfJoin | src/app.service.ts:24 | Splitting a space-joined command whose parts have no spaces gives exactly that program and those arguments. |
| Service.AppService.IsValidCommand | src/app.service.ts:54-72 | The method returns true iff the program is `ls` or `cat` and every argument is `-la` or `/etc/hosts`. With no arguments, the program check alone decides. |
| Service.ValidityIgnoresOrderAndRepetition | src/app.service.ts:65-69 | Two argument lists with the same members are both valid or both invalid, whatever their order and repetitions. |
| Service.DoubleSpaceIsRejected | src/app.service.ts:24-66 | A command with two spaces in a row is always refused, because it has an empty argument. |
| Service.TrailingSpaceIsRejected | src/app.service.ts:24-66 | A command that ends with a space is always refused. |
| Service.LeadingSpaceIsRejected | src/app.service.ts:24-60 | A command that starts with a space has the empty program name, so it is refused. |
| Service.AppService.LaunchCommand | src/app.service.ts:19-52 | A valid split appends exactly `(exec, args)` to the spawn log, and the result is how the process settles. An invalid one settles as rejected with `Invalid command` and spawns nothing. |
| Service.Lookup | src/app.service.ts:76-90 | `configService.get` is defined exactly for the keys present, with their values. |
| Service.Sql | src/app.service.ts:96 | The connection string starts with `postgres://` and ends with a space. |
| Service.SqlAsUrl | src/app.service.ts:96 | With clean values, the connection string parses as a URL. Its userinfo is `user:password` in clear text, its host and port are the configured ones, and its path is `/schema ` with the trailing space. |
| Service.ConfigFields | src/app.service.ts:92-100 | The configuration object has exactly `awsBucket`, `sql` and `googlemaps`. The bucket and maps entries are the configured values, or `undefined`. `sql` is `Sql` of the five configured database entries. |
| Service.ConfigSqlLeaksPassword | src/app.service.ts:76-96 | With every database entry set and clean, the reported `sql` field parses as a URL: user and password in its userinfo, the configured host and port, and `/schema ` as its path. |
| Service.AppService.GetConfig | src/app.service.ts:74-101 | The method returns a new object holding `ConfigFields` of the service's configuration. |
| Service.AppConfig.Delete | src/app.controller.ts:191 | `delete` removes that key and keeps every other field. |
| Controller.Rendered | src/app.controller.ts:79-80 | The first allowed template renders as `Hello, User!` and the second as `Welcome, Guest!`. |
| Controller.RenderTrimmed | src/app.controller.ts:75-82 | A trimmed text is accepted iff it is one of the two allowed templates. Otherwise the error is 400 `Template not allowed`. |
| Controller.RenderTemplate | src/app.controller.ts:71-85 | A body that is neither a string nor a buffer gets 400 `Invalid input`. Any other body is trimmed and checked against the allow-list. Every success is `Hello, User!` or `Welcome, Guest!`. |
| Controller.RenderIgnoresPadding | src/app.controller.ts:73 | Surrounding whitespace never changes the answer. |
| Controller.AllowedTemplatesRender | src/app.controller.ts:75-80 | Each allowed template, sent as it is, renders to its output. |
| Controller.BufferLikeString | src/app.controller.ts:72-73 | A buffer body gets the same answer as a string body with the same text. |
| Controller.Redirect | src/app.controller.ts:96-107 | The redirect succeeds iff the URL parses and its host is `example.com` or `another-allowed-domain.com`. The target is the parsed URL's text, which in this grammar is the input as written. Every failure is 400 `Invalid URL`, including the inner `URL not allowed`. |
| Controller.RedirectOfWellFormed | src/app.controller.ts:97-103 | A well-formed URL is redirected, to its own text, exactly when its host is allowed. |
| Controller.Nested | src/app.controller.ts:289-295 | After building `n` levels, the object is nested exactly `n` deep. |
| Controller.NestedShape | src/app.controller.ts:289-295 | The keys run from `n-1` at the outermost level down to `0`, and the innermost value is `"Leaf"`. |
| Controller.NestedKeysDistinct | src/app.controller.ts:291-294 | No key occurs at two levels. |
| Controller.NestedText | src/app.controller.ts:289-297 | One level is `{"0":"Leaf"}`. Each further level wraps the previous text in `{"<n-1>":` and `}`. |
| Controller.Stringify | src/app.controller.ts:297 | The text of a string is quoted, and the text of an object is enclosed in braces. |
| Controller.RequestedDepth | src/app.controller.ts:275 | A missing depth defaults to 1. |
| Controller.AppController.GetNestedJson | src/app.controller.ts:272-298 | A depth below 1 gets 400 `JSON nesting depth is invalid`. Otherwise the result is the text of the object nested `depth` deep. |
| Controller.AppController.GetConfig | src/app.controller.ts:187-193 | The result is a new object holding the service's configuration without `secretToken`, and `secretToken` is absent from it. |
| Controller.RedactionRemovesNothing | src/app.controller.ts:189-191 | The service never reports a `secretToken`, so the redaction leaves the configuration as it was. |
| Controller.GetSecrets | src/app.controller.ts:202-205 | The secrets endpoint always refuses with 403 `Access to secrets is forbidden`. |
| Controller.CommandResponse | src/app.controller.ts:170-177 | Command output becomes the answer, and a rejection becomes a 500 carrying its message. A promise that never settles gets no answer. |
| Controller.AppController.GetCommandResult | src/app.controller.ts:168-178 | A valid command spawns exactly its split and answers as the process settles. An invalid one spawns nothing and answers 500 `Invalid command`. |

## Left out

- URL parsing is simplified. The WHATWG constructor does more:
  - it lower-cases schemes, and the hosts of special schemes (an opaque
    host keeps its case);
  - it drops default ports;
  - it percent-encodes;
  - it applies IDNA;
  - it treats `\` like `/` in special schemes;
  - it accepts host-less URLs such as `mailto:`;
  - it resolves `.` and `..` segments.
  The model accepts only `scheme://authority` and keeps the text exactly as
  written. Results about hosts therefore hold for this grammar, not for
  every input the real constructor accepts.
- The model's parser also differs from the real constructor on these
  ordinary inputs:
  - The constructor strips leading and trailing C0 control characters and
    spaces, and it removes tabs and newlines anywhere in the text. So
    `http://example.com\t/x` passes `isValidUrl` in the program. The model
    refuses it, and FileGateway.IsValidUrlRejectsLongerName holds for a tab
    suffix only in the model.
  - The constructor accepts a special scheme without `//`, such as
    `http:example.com`. The model refuses it.
  - For `http`, `https`, `ws`, `wss`, `ftp` and `file`, the constructor's
    `toString()` adds `/` when the path is empty.
  - The constructor accepts a `file` URL with an empty host, such as
    `file:///etc/passwd`, and turns the host `localhost` into the empty
    host. The model refuses the first and keeps `localhost`. Neither host
    is `example.com` or a redirect host, so no guard's answer changes.
- Controller.Redirect: the target is the input exactly as written. The
  program's target is the constructor's normal form, so `https://example.com`
  is sent as `https://example.com/`.
- Urls.ParseUrl: a port must be decimal digits with value at most 65535,
  and it is kept as written. The real constructor removes leading zeros,
  and drops an empty port or the scheme's default port; the model keeps
  them.
- Absent query parameters are not modelled: the `path`, `url` and
  `command` parameters are always strings. An `undefined` `path` on the AWS endpoint
  or `command` would make `startsWith` or `split` throw. An `undefined`
  `path` on a URL endpoint, or `url` on `goto`, makes `new URL` throw
  inside the guard, so the program answers 400 `Invalid URL`. `type` is
  modelled as optional and checked for truthiness.
- Not modelled: failures of the file service, the contents of the returned
  stream, and Fastify's reply beyond its content type.
- `spawn` is not modelled: the process, its stdout and stderr handlers,
  resolving on the first chunk, and ASCII decoding. How the process settles
  is a parameter of `LaunchCommand`.
- Not modelled: the `Logger` calls, Swagger and routing decorators, and
  `ParseIntPipe`. A non-numeric depth gets a 400 from the pipe before the
  handler runs; the handler's depth is an optional integer.
- A `Buffer` body is taken as the text it decodes to. UTF-8 decoding is not
  modelled.
- The dot template engine is a fixed table holding the two allowed
  templates and their outputs.
- Controller.AppController.GetNestedJson: for a very large depth, the
  recursive `JSON.stringify` in the program runs out of stack, and the
  request ends in a 500. The model always answers with the text.
- `JSON.stringify` is modelled only for the single-key objects and plain
  strings this endpoint builds. They never need escaping.
- Controller.AppController.GetCommandResult: the 500 body also carries
  `location: __filename`, and its error is `err.message || err`. The model
  keeps only the status and the message.
- The `xml` endpoint is not modelled, because it is a thin call into
  libxmljs.
- `getTestOptions` is not modelled, because it only logs.
- `getUserInfo` and `getUserInfoV2` are not modelled. They pass through to
  `UsersService`, which is not part of this model.
- `AppService.getSecrets` is not modelled, because it only reads
  configuration and its endpoint always refuses.
- The global exception filter and the React client are not part of this
  model.
- The file controller's local read, write and delete endpoints are not part
  of this model. The controller file marks them as "other methods" at
  src/file/file.controller.ts:246 without giving their code.
- The configuration's environment variable names are defined in
  src/orm/orm.module.config.properties.ts and src/app.module.config.properties.ts,
  which are not part of this model. The configuration is a map keyed by
  `ConfigKey`.
- Service.Sql: proved to be a URL only for defined, clean values. An
  `undefined` entry becomes the text `undefined` in the string, and no
  lemma describes how the parser treats that.
