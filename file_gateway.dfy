/** The guards of `FileController` (src/file/file.controller.ts): each
    cloud-provider endpoint runs two checks on the caller's `path` before
    the file service is asked for the file, and only then sets the
    response's content type. */
module FileGateway {
  import opened Common
  import opened Strings
  import opened Urls

  const OctetStream: string := "application/octet-stream"
  const CrystalsPrefix: string := "config/products/crystals/"
  const AllowedPaths: seq<string> := [CrystalsPrefix]
  const AllowedFileHosts: seq<string> := ["example.com"]

  /** The base prefixes of `CloudProvidersMetaData`; their values are not
      part of this model, so every result holds for all of them. */
  datatype CloudProviders = CloudProviders(aws: string, azure: string, digitalOcean: string, google: string)

  /** The stream the file service opens for a path. */
  datatype Stream = Stream(source: string)

  /** `getContentType`: the caller's type when it is given and non-empty,
      and the generic binary type otherwise. */
  function GetContentType(contentType: Option<string>): (t: string)
    ensures t != ""
    ensures contentType.Some? && contentType.value != "" ==> t == contentType.value
    ensures contentType.None? || contentType.value == "" ==> t == OctetStream
  {
    if contentType.Some? && contentType.value != "" then contentType.value else OctetStream
  }

  /** `prefixes.some(p => s.startsWith(p))`. */
  function AnyPrefix(prefixes: seq<string>, s: string): (b: bool)
    ensures b <==> exists k :: 0 <= k < |prefixes| && StartsWith(s, prefixes[k])
  {
    if prefixes == [] then false
    else StartsWith(s, prefixes[0]) || AnyPrefix(prefixes[1..], s)
  }

  /** `isValidPath`: a plain string-prefix test against the one allowed
      directory. */
  function IsValidPath(filePath: string): (b: bool)
    ensures b <==> StartsWith(filePath, CrystalsPrefix)
  {
    AnyPrefix(AllowedPaths, filePath)
  }

  /** `isValidUrl`: a string the URL constructor rejects is invalid, and
      otherwise the host must be exactly `example.com`. */
  function IsValidUrl(url: string): (b: bool)
    ensures b <==> ParseUrl(url).Some? && ParseUrl(url).value.hostname == "example.com"
  {
    match ParseUrl(url)
    case None => false
    case Some(u) => u.hostname in AllowedFileHosts
  }

  /** The check `loadCPFile` makes before it calls the file service: the
      path handed on, or the `BadRequestException` it throws. */
  function CPCheck(cpBaseUrl: string, filePath: string): (r: Result<string, HttpError>)
    ensures r.Ok? <==> StartsWith(filePath, cpBaseUrl)
    ensures r.Ok? ==> r.value == filePath
    ensures r.Err? ==> r.error == HttpError(400, "Invalid parameter 'path' " + filePath)
  {
    if !StartsWith(filePath, cpBaseUrl) then Err(BadRequestError("Invalid parameter 'path' " + filePath))
    else Ok(filePath)
  }

  /** What the AWS endpoint does with `path`: the path it asks the file
      service for, or its rejection. */
  function AwsRequest(aws: string, filePath: string): (r: Result<string, HttpError>)
    ensures r.Ok? <==> StartsWith(filePath, CrystalsPrefix) && StartsWith(filePath, aws)
    ensures r.Ok? ==> r.value == filePath
    ensures r.Err? ==> r.error.status == 400
    ensures !StartsWith(filePath, CrystalsPrefix) ==> r == Err(HttpError(400, "Invalid file path"))
    ensures StartsWith(filePath, CrystalsPrefix) ==> r == CPCheck(aws, filePath)
  {
    if !IsValidPath(filePath) then Err(BadRequestError("Invalid file path"))
    else CPCheck(aws, filePath)
  }

  /** What the Azure, DigitalOcean and Google endpoints do with `path`,
      given that endpoint's own base prefix. */
  function UrlRequest(base: string, url: string): (r: Result<string, HttpError>)
    ensures r.Ok? <==> IsValidUrl(url) && StartsWith(url, base)
    ensures r.Ok? ==> r.value == url
    ensures r.Err? ==> r.error.status == 400
    ensures !IsValidUrl(url) ==> r == Err(HttpError(400, "Invalid URL"))
    ensures IsValidUrl(url) ==> r == CPCheck(base, url)
  {
    if !IsValidUrl(url) then Err(BadRequestError("Invalid URL"))
    else CPCheck(base, url)
  }

  /** The prefix test lets `..` segments through. */
  lemma IsValidPathAcceptsTraversal()
    ensures IsValidPath("config/products/crystals/../../etc/passwd")
    ensures !IsValidPath("config/products/crystals")
    ensures !IsValidPath("../../etc/passwd")
  {
  }

  /** A well-formed URL is accepted exactly when its host is `example.com`. */
  lemma IsValidUrlOfText(u: Url)
    requires WellFormed(u)
    ensures IsValidUrl(Serialize(u)) <==> u.hostname == "example.com"
  {
    ParseSerialize(u);
  }

  lemma SerializePlain(u: Url)
    requires u.userinfo.None? && u.port.None?
    ensures Serialize(u) == u.scheme + "://" + u.hostname + u.tail
  {
    assert AuthorityText(AuthorityOf(u)) == u.hostname + "";
  }

  /** The exact host passes, whatever the scheme and the path. */
  lemma IsValidUrlAcceptsExactHost(scheme: string, tail: string)
    requires ValidScheme(scheme) && (tail == [] || tail[0] in AuthorityEnd)
    ensures IsValidUrl(scheme + "://example.com" + tail)
  {
    var u := Url(scheme, None, "example.com", None, tail);
    assert NoneOf("example.com", HostForbidden);
    SerializePlain(u);
    assert scheme + "://" + "example.com" == scheme + "://example.com";
    IsValidUrlOfText(u);
  }

  /** A subdomain of the allowed host does not pass. */
  lemma IsValidUrlRejectsSubdomain(scheme: string, sub: string, tail: string)
    requires ValidScheme(scheme) && (tail == [] || tail[0] in AuthorityEnd)
    requires NoneOf(sub, HostForbidden)
    ensures !IsValidUrl(scheme + "://" + sub + ".example.com" + tail)
  {
    var host := sub + ".example.com";
    assert NoneOf(".example.com", HostForbidden);
    NoneOfConcat(sub, ".example.com", HostForbidden);
    var u := Url(scheme, None, host, None, tail);
    SerializePlain(u);
    assert scheme + "://" + host + tail == scheme + "://" + sub + ".example.com" + tail;
    assert |host| > |"example.com"|;
    IsValidUrlOfText(u);
  }

  /** A longer name that starts with the allowed host does not pass. */
  lemma IsValidUrlRejectsLongerName(scheme: string, suffix: string, tail: string)
    requires ValidScheme(scheme) && (tail == [] || tail[0] in AuthorityEnd)
    requires suffix != [] && NoneOf(suffix, HostForbidden)
    ensures !IsValidUrl(scheme + "://example.com" + suffix + tail)
  {
    var host := "example.com" + suffix;
    assert NoneOf("example.com", HostForbidden);
    NoneOfConcat("example.com", suffix, HostForbidden);
    var u := Url(scheme, None, host, None, tail);
    LongerNameText(u, suffix);
    assert |host| > |"example.com"|;
    IsValidUrlOfText(u);
  }

  lemma LongerNameText(u: Url, suffix: string)
    requires u.userinfo.None? && u.port.None? && u.hostname == "example.com" + suffix
    ensures Serialize(u) == u.scheme + "://example.com" + suffix + u.tail
  {
    SerializePlain(u);
    assert u.scheme + "://" + u.hostname == u.scheme + "://example.com" + suffix;
  }

  /** A path without a scheme is not a URL, so the check refuses it. */
  lemma IsValidUrlRejectsRelative()
    ensures !IsValidUrl("example.com/resource")
  {
    FindFirstIs("example.com/resource", {':'}, 20);
  }

  /** The AWS endpoint can reach the file service for no path at all when
      neither base prefix extends the other. */
  lemma AwsRejectsAllWhenPrefixesDiverge(aws: string, filePath: string)
    requires !StartsWith(aws, CrystalsPrefix) && !StartsWith(CrystalsPrefix, aws)
    ensures AwsRequest(aws, filePath).Err?
  {
    if StartsWith(filePath, CrystalsPrefix) && StartsWith(filePath, aws) {
      PrefixesOfOneString(filePath, CrystalsPrefix, aws);
    }
  }

  /** A URL endpoint whose base is `scheme://name` with a plain host name
      lets `scheme://name@example.com/...` through both checks: the base
      text becomes the userinfo and `example.com` the host. A `file` URL
      may not carry a userinfo, so for that scheme the trick fails (see
      IsValidUrlRefusesFileUserinfo). */
  lemma UrlRequestAcceptsUserinfoTrick(scheme: string, name: string, path: string)
    requires ValidScheme(scheme) && !FileScheme(scheme) && NoneOf(name, AuthorityEnd)
    requires path == [] || path[0] in AuthorityEnd
    ensures UrlRequest(scheme + "://" + name, scheme + "://" + name + "@example.com" + path).Ok?
  {
    var base := scheme + "://" + name;
    var url := base + "@example.com" + path;
    UserinfoTrickIsValid(scheme, name, path);
    UserinfoTrickKeepsBase(base, path);
    UrlRequestOkWhen(base, url);
  }

  lemma UserinfoTrickKeepsBase(base: string, path: string)
    ensures StartsWith(base + "@example.com" + path, base)
  {
    assert base + "@example.com" + path == base + ("@example.com" + path);
    PrefixOfConcat(base, "@example.com" + path);
  }

  lemma UrlRequestOkWhen(base: string, url: string)
    requires IsValidUrl(url) && StartsWith(url, base)
    ensures UrlRequest(base, url) == Ok(url)
  {
  }

  lemma PrefixOfConcat(a: string, b: string)
    ensures StartsWith(a + b, a)
  {
    assert (a + b)[..|a|] == a;
  }

  lemma UserinfoTrickIsValid(scheme: string, name: string, path: string)
    requires ValidScheme(scheme) && !FileScheme(scheme) && NoneOf(name, AuthorityEnd)
    requires path == [] || path[0] in AuthorityEnd
    ensures IsValidUrl(scheme + "://" + name + "@example.com" + path)
  {
    var u := Url(scheme, Some(name), "example.com", None, path);
    assert NoneOf("example.com", HostForbidden);
    SerializeWithUserinfo(u);
    assert scheme + "://" + name + "@" + "example.com" + path == scheme + "://" + name + "@example.com" + path;
    IsValidUrlOfText(u);
  }

  lemma SerializeWithUserinfo(u: Url)
    requires u.userinfo.Some? && u.port.None?
    ensures Serialize(u) == u.scheme + "://" + u.userinfo.value + "@" + u.hostname + u.tail
  {
    assert AuthorityText(AuthorityOf(u)) == u.userinfo.value + "@" + (u.hostname + "");
  }

  /** A `file` URL that puts a name before `@example.com` is refused,
      whatever the name and the rest. */
  lemma IsValidUrlRefusesFileUserinfo(scheme: string, name: string, path: string)
    requires FileScheme(scheme) && NoneOf(name, AuthorityEnd)
    ensures !IsValidUrl(scheme + "://" + name + "@example.com" + path)
  {
    var rest := name + "@example.com" + path;
    var url := scheme + "://" + rest;
    assert url == scheme + "://" + name + "@example.com" + path;
    if IsValidUrl(url) {
      FileHostText(ParseUrl(url).value, scheme, rest);
      UserinfoIsNotHost(name, path, ParseUrl(url).value.tail);
    }
  }

  /** The text of a well-formed `file` URL on `example.com` is the scheme,
      `://example.com` and the tail. */
  lemma FileHostText(u: Url, scheme: string, rest: string)
    requires WellFormed(u) && u.hostname == "example.com"
    requires FileScheme(scheme) && Serialize(u) == scheme + "://" + rest
    ensures rest == "example.com" + u.tail
  {
    var text := AuthorityText(AuthorityOf(u)) + u.tail;
    assert Serialize(u) == u.scheme + "://" + text;
    FileSchemeIsValid(scheme);
    SchemeOfText(scheme, rest, u.scheme, text);
    assert text == "example.com" + u.tail;
  }

  lemma FileSchemeIsValid(scheme: string)
    requires FileScheme(scheme)
    ensures ValidScheme(scheme)
  {
    forall k | 0 <= k < |scheme| ensures IsSchemeChar(scheme[k]) { }
  }

  /** A valid scheme ends at the first `:`, so two readings of one text
      have the same scheme and the same rest. */
  lemma SchemeOfText(s1: string, r1: string, s2: string, r2: string)
    requires ValidScheme(s1) && ValidScheme(s2) && s1 + "://" + r1 == s2 + "://" + r2
    ensures s1 == s2 && r1 == r2
  {
    SchemeSplitOf(s1, r1);
    SchemeSplitOf(s2, r2);
  }

  /** `name@example.com...` cannot be read as the bare host `example.com`
      followed by a path. */
  lemma UserinfoIsNotHost(name: string, path: string, tail: string)
    requires NoneOf(name, AuthorityEnd) && (tail != [] ==> tail[0] in AuthorityEnd)
    ensures name + "@example.com" + path != "example.com" + tail
  {
    var a := name + "@example.com" + path;
    var b := "example.com" + tail;
    assert a[|name|] == '@';
    if |name| < 11 {
      assert b[|name|] == "example.com"[|name|];
      assert a[|name|] != b[|name|];
    } else if |b| > 11 {
      assert b[11] == tail[0];
      assert a[11] !in AuthorityEnd by {
        if |name| > 11 { assert a[11] == name[11]; }
      }
      assert a[11] != b[11];
    } else {
      assert |a| != |b|;
    }
  }

  /** The file service: not part of this model beyond the calls made to
      it, which `requested` records in order. */
  class FileService {
    ghost var requested: seq<string>

    constructor()
      ensures requested == []
    {
      requested := [];
    }

    /** `getFile`. */
    method GetFile(filePath: string) returns (file: Stream)
      modifies this
      ensures requested == old(requested) + [filePath]
      ensures file == Stream(filePath)
    {
      requested := requested + [filePath];
      file := Stream(filePath);
    }
  }

  /** The part of the Fastify reply the endpoints touch. */
  class Reply {
    var contentType: Option<string>

    constructor()
      ensures contentType == None
    {
      contentType := None;
    }

    /** `res.type(t)`. */
    method Type(t: string)
      modifies this
      ensures contentType == Some(t)
    {
      contentType := Some(t);
    }
  }

  class FileController {
    const fileService: FileService
    const providers: CloudProviders

    constructor(fileService: FileService, providers: CloudProviders)
      ensures this.fileService == fileService && this.providers == providers
    {
      this.fileService := fileService;
      this.providers := providers;
    }

    /** `loadCPFile`: the file service is called only for a path that
        starts with the provider's base. */
    method LoadCPFile(cpBaseUrl: string, filePath: string) returns (r: Result<Stream, HttpError>)
      modifies fileService
      ensures r.Ok? <==> StartsWith(filePath, cpBaseUrl)
      ensures r.Ok? ==> r.value == Stream(filePath)
      ensures r.Err? ==> r.error == CPCheck(cpBaseUrl, filePath).error
      ensures fileService.requested == old(fileService.requested) + (if r.Ok? then [filePath] else [])
    {
      if !StartsWith(filePath, cpBaseUrl) {
        return Err(BadRequestError("Invalid parameter 'path' " + filePath));
      }
      var file := fileService.GetFile(filePath);
      return Ok(file);
    }

    /** `loadAwsFile`: both prefix checks pass before the file service is
        called, and the content type is set only after that call. */
    method LoadAwsFile(filePath: string, contentType: Option<string>, res: Reply)
      returns (r: Result<Stream, HttpError>)
      modifies fileService, res
      ensures r.Ok? <==> AwsRequest(providers.aws, filePath).Ok?
      ensures r.Ok? ==> r.value == Stream(filePath)
      ensures r.Err? ==> r.error == AwsRequest(providers.aws, filePath).error
      ensures fileService.requested == old(fileService.requested) + (if r.Ok? then [filePath] else [])
      ensures res.contentType == if r.Ok? then Some(GetContentType(contentType)) else old(res.contentType)
    {
      if !IsValidPath(filePath) {
        return Err(BadRequestError("Invalid file path"));
      }
      r := LoadCPFile(providers.aws, filePath);
      if r.Ok? {
        var t := GetContentType(contentType);
        res.Type(t);
      }
    }

    /** The body shared by the three URL endpoints, for the endpoint's own
        base prefix. */
    method LoadUrlFile(base: string, url: string, contentType: Option<string>, res: Reply)
      returns (r: Result<Stream, HttpError>)
      modifies fileService, res
      ensures r.Ok? <==> UrlRequest(base, url).Ok?
      ensures r.Ok? ==> r.value == Stream(url)
      ensures r.Err? ==> r.error == UrlRequest(base, url).error
      ensures fileService.requested == old(fileService.requested) + (if r.Ok? then [url] else [])
      ensures res.contentType == if r.Ok? then Some(GetContentType(contentType)) else old(res.contentType)
    {
      if !IsValidUrl(url) {
        return Err(BadRequestError("Invalid URL"));
      }
      r := LoadCPFile(base, url);
      if r.Ok? {
        var t := GetContentType(contentType);
        res.Type(t);
      }
    }

    /** `loadAzureFile`: checked against the Azure base, whatever the URL. */
    method LoadAzureFile(url: string, contentType: Option<string>, res: Reply)
      returns (r: Result<Stream, HttpError>)
      modifies fileService, res
      ensures r.Ok? <==> UrlRequest(providers.azure, url).Ok?
      ensures r.Ok? ==> r.value == Stream(url)
      ensures r.Err? ==> r.error == UrlRequest(providers.azure, url).error
      ensures fileService.requested == old(fileService.requested) + (if r.Ok? then [url] else [])
      ensures res.contentType == if r.Ok? then Some(GetContentType(contentType)) else old(res.contentType)
    {
      r := LoadUrlFile(providers.azure, url, contentType, res);
    }

    /** `loadDigitalOceanFile`: checked against the DigitalOcean base. */
    method LoadDigitalOceanFile(url: string, contentType: Option<string>, res: Reply)
      returns (r: Result<Stream, HttpError>)
      modifies fileService, res
      ensures r.Ok? <==> UrlRequest(providers.digitalOcean, url).Ok?
      ensures r.Ok? ==> r.value == Stream(url)
      ensures r.Err? ==> r.error == UrlRequest(providers.digitalOcean, url).error
      ensures fileService.requested == old(fileService.requested) + (if r.Ok? then [url] else [])
      ensures res.contentType == if r.Ok? then Some(GetContentType(contentType)) else old(res.contentType)
    {
      r := LoadUrlFile(providers.digitalOcean, url, contentType, res);
    }

    /** `loadGoogleFile`: checked against the Google base. */
    method LoadGoogleFile(url: string, contentType: Option<string>, res: Reply)
      returns (r: Result<Stream, HttpError>)
      modifies fileService, res
      ensures r.Ok? <==> UrlRequest(providers.google, url).Ok?
      ensures r.Ok? ==> r.value == Stream(url)
      ensures r.Err? ==> r.error == UrlRequest(providers.google, url).error
      ensures fileService.requested == old(fileService.requested) + (if r.Ok? then [url] else [])
      ensures res.contentType == if r.Ok? then Some(GetContentType(contentType)) else old(res.contentType)
    {
      r := LoadUrlFile(providers.google, url, contentType, res);
    }
  }
}
