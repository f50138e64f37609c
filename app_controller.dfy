/** `AppController`: the template allow-list, the redirect allow-list, the
    nested JSON builder, the configuration and secrets endpoints, and the
    command endpoint in front of `AppService`. */
module Controller {
  import opened Common
  import opened Strings
  import opened Urls
  import opened Service

  // ---------------------------------------------------------------------
  // renderTemplate

  /** The body NestJS hands the handler: a string, a `Buffer` (taken here
      as the text it decodes to), or anything else. */
  datatype Body = TextBody(text: string) | BufferBody(decoded: string) | OtherBody

  const AllowedTemplates: seq<string> := ["Hello, {{=it.name}}!", "Welcome, {{=it.user}}!"]
  const RenderedTemplates: seq<string> := ["Hello, User!", "Welcome, Guest!"]

  /** What the template engine makes of an allowed template with the data
      `{name: 'User', user: 'Guest'}`. */
  function Rendered(template: string): (out: string)
    requires template in AllowedTemplates
    ensures template == AllowedTemplates[0] <==> out == RenderedTemplates[0]
    ensures template == AllowedTemplates[1] <==> out == RenderedTemplates[1]
  {
    if template == AllowedTemplates[0] then RenderedTemplates[0] else RenderedTemplates[1]
  }

  /** The text of a string or buffer body. */
  function BodyText(raw: Body): string
    requires !raw.OtherBody?
  {
    if raw.TextBody? then raw.text else raw.decoded
  }

  function RenderTemplate(raw: Body): (r: Result<string, HttpError>)
    ensures raw.OtherBody? ==> r == Err(HttpError(400, "Invalid input"))
    ensures !raw.OtherBody? ==> r == RenderTrimmed(Trim(BodyText(raw)))
    ensures r.Ok? ==> r.value in RenderedTemplates
  {
    if raw.OtherBody? then Err(BadRequestError("Invalid input"))
    else RenderTrimmed(Trim(BodyText(raw)))
  }

  /** The allow-list test on the trimmed text. */
  function RenderTrimmed(text: string): (r: Result<string, HttpError>)
    ensures r.Ok? <==> text in AllowedTemplates
    ensures r.Ok? ==> r.value == Rendered(text)
    ensures r.Err? ==> r.error == HttpError(400, "Template not allowed")
  {
    if text !in AllowedTemplates then Err(BadRequestError("Template not allowed"))
    else Ok(Rendered(text))
  }

  /** Whitespace around the body does not change the answer. */
  lemma RenderIgnoresPadding(w1: string, t: string, w2: string)
    requires AllWhitespace(w1) && AllWhitespace(w2)
    ensures RenderTemplate(TextBody(w1 + t + w2)) == RenderTemplate(TextBody(t))
  {
    TrimIgnoresPadding(w1, t, w2);
  }

  /** Each allowed template renders, with its own data field filled in. */
  lemma AllowedTemplatesRender(t: string)
    requires t in AllowedTemplates
    ensures RenderTemplate(TextBody(t)) == Ok(Rendered(t))
  {
    TemplateEnds(t);
    TrimKeepsTrimmed(t);
    assert RenderTemplate(TextBody(t)) == RenderTrimmed(t);
  }

  /** Both allowed templates start with a letter and end with `!`. */
  lemma TemplateEnds(t: string)
    requires t in AllowedTemplates
    ensures t != [] && t[0] !in JsWhitespace && t[|t| - 1] !in JsWhitespace
  {
    if t == AllowedTemplates[0] {
      assert t[0] == 'H' && t[|t| - 1] == '!';
    } else {
      assert t[0] == 'W' && t[|t| - 1] == '!';
    }
  }

  /** A string body and a buffer body with the same text get the same answer. */
  lemma BufferLikeString(s: string)
    ensures RenderTemplate(BufferBody(s)) == RenderTemplate(TextBody(s))
  {
  }

  // ---------------------------------------------------------------------
  // redirect

  const AllowedRedirectHosts: seq<string> := ["example.com", "another-allowed-domain.com"]

  /** `redirect`: the location to send the client to, or the one error every
      failure becomes. */
  function Redirect(url: string): (r: Result<string, HttpError>)
    ensures r.Ok? <==> ParseUrl(url).Some? && ParseUrl(url).value.hostname in AllowedRedirectHosts
    ensures r.Ok? ==> r.value == Serialize(ParseUrl(url).value) && r.value == url
    ensures r.Err? ==> r.error == HttpError(400, "Invalid URL")
  {
    match ParseUrl(url)
    case None => Err(BadRequestError("Invalid URL"))
    case Some(parsed) =>
      if parsed.hostname !in AllowedRedirectHosts then Err(BadRequestError("Invalid URL"))
      else Ok(Serialize(parsed))
  }

  /** A well-formed URL is redirected to exactly when its host is allowed. */
  lemma RedirectOfWellFormed(u: Url)
    requires WellFormed(u)
    ensures Redirect(Serialize(u)).Ok? <==> u.hostname in AllowedRedirectHosts
    ensures Redirect(Serialize(u)).Ok? ==> Redirect(Serialize(u)).value == Serialize(u)
  {
    ParseSerialize(u);
  }

  // ---------------------------------------------------------------------
  // getNestedJson

  /** The JSON values the endpoint builds: a string, or an object with a
      single key. */
  datatype Json = JString(s: string) | JObject(key: string, value: Json)

  /** `JSON.stringify` for these values; no character needs escaping in the
      keys and strings built here. */
  function Stringify(j: Json): (text: string)
    ensures |text| >= 2
    ensures j.JString? ==> text[0] == '"' && text[|text| - 1] == '"'
    ensures j.JObject? ==> text[0] == '{' && text[|text| - 1] == '}'
  {
    match j
    case JString(s) => "\"" + s + "\""
    case JObject(k, v) => "{\"" + k + "\":" + Stringify(v) + "}"
  }

  /** How many objects are nested, outermost first. */
  function Levels(j: Json): nat
  {
    match j
    case JString(_) => 0
    case JObject(_, v) => 1 + Levels(v)
  }

  /** The keys met on the way down, outermost first. */
  function Keys(j: Json): (ks: seq<string>)
    ensures |ks| == Levels(j)
    ensures j.JObject? ==> ks[0] == j.key
  {
    match j
    case JString(_) => []
    case JObject(k, v) => [k] + Keys(v)
  }

  /** The string at the bottom. */
  function Leaf(j: Json): string
  {
    match j
    case JString(s) => s
    case JObject(_, v) => Leaf(v)
  }

  /** The object the loop holds after building `n` levels. */
  function Nested(n: nat): (j: Json)
    requires n >= 1
    ensures Levels(j) == n
  {
    if n == 1 then JObject("0", JString("Leaf"))
    else JObject(NatToDecimal(n - 1), Nested(n - 1))
  }

  /** The result has `n` levels, key `n - 1` outside down to `0` inside,
      and `"Leaf"` at the bottom. */
  lemma {:induction false} NestedShape(n: nat)
    requires n >= 1
    ensures forall k :: 0 <= k < n ==> Keys(Nested(n))[k] == NatToDecimal(n - 1 - k)
    ensures Leaf(Nested(n)) == "Leaf"
  {
    if n > 1 {
      NestedShape(n - 1);
      var ks := Keys(Nested(n));
      assert ks == [NatToDecimal(n - 1)] + Keys(Nested(n - 1));
      forall k | 0 <= k < n ensures ks[k] == NatToDecimal(n - 1 - k) {
        if k > 0 {
          assert ks[k] == Keys(Nested(n - 1))[k - 1];
        }
      }
    }
  }

  /** No key occurs twice. */
  lemma NestedKeysDistinct(n: nat, i: nat, j: nat)
    requires n >= 1 && i < j < n
    ensures Keys(Nested(n))[i] != Keys(Nested(n))[j]
  {
    NestedShape(n);
    if Keys(Nested(n))[i] == Keys(Nested(n))[j] {
      DecimalInjective(n - 1 - i, n - 1 - j);
    }
  }

  /** The text: `{"0":"Leaf"}` for one level, and each further level wraps
      the previous text in `{"<n-1>":` and `}`. */
  lemma NestedText(n: nat)
    requires n >= 1
    ensures n == 1 ==> Stringify(Nested(n)) == "{\"0\":\"Leaf\"}"
    ensures n > 1 ==> Stringify(Nested(n)) == "{\"" + NatToDecimal(n - 1) + "\":" + Stringify(Nested(n - 1)) + "}"
  {
  }

  /** The depth the endpoint works with: `1` when the query leaves it out. */
  function RequestedDepth(depth: Option<int>): (d: int)
    ensures depth.None? ==> d == 1
    ensures depth.Some? ==> d == depth.value
  {
    match depth
    case None => 1
    case Some(n) => n
  }

  // ---------------------------------------------------------------------
  // The controller

  class AppController {
    const appService: AppService

    constructor(appService: AppService)
      ensures this.appService == appService
    {
      this.appService := appService;
    }

    /** `getNestedJson`: refuses a depth below one, otherwise wraps the
        leaf object once per extra level. */
    method GetNestedJson(depth: Option<int>) returns (r: Result<string, HttpError>)
      ensures RequestedDepth(depth) < 1 ==> r == Err(HttpError(400, "JSON nesting depth is invalid"))
      ensures RequestedDepth(depth) >= 1 ==> r == Ok(Stringify(Nested(RequestedDepth(depth))))
    {
      var d := RequestedDepth(depth);
      if d < 1 {
        return Err(BadRequestError("JSON nesting depth is invalid"));
      }
      var jsonObj := JObject("0", JString("Leaf"));
      for i := 1 to d
        invariant jsonObj == Nested(i)
      {
        var tmpObj := JObject(NatToDecimal(i), jsonObj);
        jsonObj := tmpObj;
      }
      return Ok(Stringify(jsonObj));
    }

    /** `getConfig`: the service's configuration without `secretToken`. */
    method GetConfig() returns (c: AppConfig)
      ensures fresh(c)
      ensures c.fields == ConfigFields(appService.config) - {"secretToken"}
      ensures "secretToken" !in c.fields
    {
      c := appService.GetConfig();
      c.Delete("secretToken");
    }

    /** `getCommandResult`: the output of the command, the rejection as a
        500, or no answer while the promise stays pending. */
    method GetCommandResult(command: string, process: Settlement) returns (r: Option<Result<string, HttpError>>)
      modifies appService
      ensures var (exec, args) := ParseCommand(command);
        if ValidCommand(exec, args) then
          appService.spawned == old(appService.spawned) + [Command(exec, args)]
          && r == CommandResponse(process)
        else
          appService.spawned == old(appService.spawned)
          && r == Some(Err(HttpError(500, "Invalid command")))
    {
      var outcome := appService.LaunchCommand(command, process);
      r := CommandResponse(outcome);
    }
  }

  /** How the controller answers once the service's promise settles. */
  function CommandResponse(s: Settlement): (r: Option<Result<string, HttpError>>)
    ensures s.Resolved? ==> r == Some(Ok(s.output))
    ensures s.Rejected? ==> r == Some(Err(HttpError(InternalServerError, s.reason)))
    ensures s.Pending? <==> r.None?
  {
    match s
    case Resolved(output) => Some(Ok(output))
    case Rejected(reason) => Some(Err(HttpError(InternalServerError, reason)))
    case Pending => None
  }

  /** The service never reports a `secretToken`, so the redaction removes
      nothing. */
  lemma RedactionRemovesNothing(config: map<ConfigKey, string>)
    ensures ConfigFields(config) - {"secretToken"} == ConfigFields(config)
  {
  }

  /** `getSecrets`: refused whatever the request. */
  function GetSecrets(): (r: Result<map<string, string>, HttpError>)
    ensures r.Err? && r.error.status == Forbidden
    ensures r.error.message == "Access to secrets is forbidden"
  {
    Err(HttpError(Forbidden, "Access to secrets is forbidden"))
  }
}
