/** A simplified stand-in for the WHATWG `URL` constructor: only absolute
    URLs with an authority, `scheme://[userinfo@]host[:port]tail`, are
    accepted, and every part is kept as written (no case folding,
    percent-decoding or default-port removal). `Serialize` plays the part
    of `URL.prototype.toString`. */
module Urls {
  import opened Common
  import opened Strings

  datatype Url = Url(scheme: string, userinfo: Option<string>, hostname: string,
                     port: Option<string>, tail: string)

  /** The part between `//` and the path. */
  datatype Authority = Authority(userinfo: Option<string>, hostname: string, port: Option<string>)

  /** The characters that end the authority. */
  const AuthorityEnd: set<char> := {'/', '?', '#'}
  const HostForbidden: set<char> := {'/', '?', '#', '@', ':'}
  const MaxPort: nat := 65535

  predicate IsAsciiAlpha(c: char)
  {
    'a' <= c <= 'z' || 'A' <= c <= 'Z'
  }

  predicate IsSchemeChar(c: char)
  {
    IsAsciiAlpha(c) || IsDigit(c) || c == '+' || c == '-' || c == '.'
  }

  /** An ASCII letter followed by letters, digits, `+`, `-` or `.`. */
  predicate ValidScheme(s: string)
  {
    |s| >= 1 && IsAsciiAlpha(s[0]) && forall k :: 0 <= k < |s| ==> IsSchemeChar(s[k])
  }

  /** `file` in any letter case: its host may carry neither a userinfo
      nor a port, since `@` and `:` are forbidden in a file host. */
  predicate FileScheme(s: string)
  {
    |s| == 4 && s[0] in {'f', 'F'} && s[1] in {'i', 'I'} && s[2] in {'l', 'L'} && s[3] in {'e', 'E'}
  }

  predicate ValidPort(p: string)
  {
    AllDigits(p) && DecimalValue(p) <= MaxPort
  }

  predicate ValidAuthority(a: Authority)
  {
    && (a.userinfo.Some? ==> NoneOf(a.userinfo.value, AuthorityEnd))
    && a.hostname != [] && NoneOf(a.hostname, HostForbidden)
    && (a.port.Some? ==> ValidPort(a.port.value))
  }

  function AuthorityOf(u: Url): Authority
  {
    Authority(u.userinfo, u.hostname, u.port)
  }

  /** The URLs the parser can produce. */
  predicate WellFormed(u: Url)
  {
    && ValidScheme(u.scheme)
    && ValidAuthority(AuthorityOf(u))
    && (FileScheme(u.scheme) ==> u.userinfo.None? && u.port.None?)
    && (u.tail != [] ==> u.tail[0] in AuthorityEnd)
  }

  function UserinfoText(userinfo: Option<string>): string
  {
    if userinfo.Some? then userinfo.value + "@" else ""
  }

  function PortText(port: Option<string>): string
  {
    if port.Some? then ":" + port.value else ""
  }

  function AuthorityText(a: Authority): string
  {
    UserinfoText(a.userinfo) + (a.hostname + PortText(a.port))
  }

  /** `url.toString()` for a URL of this grammar: scheme, `://`, the
      authority and the rest, none of them rewritten. */
  function Serialize(u: Url): (s: string)
    ensures StartsWith(s, u.scheme + "://")
  {
    var head := u.scheme + "://";
    var s := head + AuthorityText(AuthorityOf(u)) + u.tail;
    assert s[..|head|] == head;
    s
  }

  lemma NoneOfConcat(a: string, b: string, cs: set<char>)
    ensures NoneOf(a + b, cs) <==> NoneOf(a, cs) && NoneOf(b, cs)
  {
    if NoneOf(a, cs) && NoneOf(b, cs) {
      forall k | 0 <= k < |a + b| ensures (a + b)[k] !in cs {
        if k >= |a| {
          assert (a + b)[k] == b[k - |a|];
        }
      }
    }
    if NoneOf(a + b, cs) {
      assert forall k :: 0 <= k < |a| ==> a[k] == (a + b)[k];
      assert forall k :: 0 <= k < |b| ==> b[k] == (a + b)[|a| + k];
    }
  }

  /** Splits an authority at its last `@` into the userinfo and the rest. */
  function SplitUserinfo(text: string): (r: (Option<string>, string))
    ensures UserinfoText(r.0) + r.1 == text
    ensures NoneOf(r.1, {'@'})
  {
    match FindLast(text, '@')
    case None => (None, text)
    case Some(at) =>
      assert text == text[..at] + "@" + text[at + 1..];
      (Some(text[..at]), text[at + 1..])
  }

  /** Splits `host[:port]` at its first `:`. */
  function SplitPort(hostPort: string): (r: (string, Option<string>))
    ensures r.0 + PortText(r.1) == hostPort
    ensures NoneOf(r.0, {':'})
  {
    var colon := FindFirst(hostPort, {':'});
    if colon == |hostPort| then (hostPort, None)
    else
      assert hostPort == hostPort[..colon] + ":" + hostPort[colon + 1..];
      assert forall k :: 0 <= k < colon ==> hostPort[..colon][k] == hostPort[k];
      (hostPort[..colon], Some(hostPort[colon + 1..]))
  }

  lemma UserinfoTextClean(userinfo: Option<string>)
    ensures NoneOf(UserinfoText(userinfo), AuthorityEnd)
            <==> (userinfo.Some? ==> NoneOf(userinfo.value, AuthorityEnd))
  {
    if userinfo.Some? {
      NoneOfConcat(userinfo.value, "@", AuthorityEnd);
    }
  }

  lemma NoneOfUnion(s: string, a: set<char>, b: set<char>)
    requires NoneOf(s, a) && NoneOf(s, b)
    ensures NoneOf(s, a + b)
  {
  }

  /** Reads `[userinfo@]host[:port]`; a `file` host may have neither. */
  function ParseAuthority(text: string, file: bool): (r: Option<Authority>)
    requires NoneOf(text, AuthorityEnd)
    ensures r.Some? ==> ValidAuthority(r.value) && AuthorityText(r.value) == text
    ensures r.Some? && file ==> r.value.userinfo.None? && r.value.port.None?
  {
    var (userinfo, hostPort) := SplitUserinfo(text);
    var (host, port) := SplitPort(hostPort);
    if host == [] || (port.Some? && !ValidPort(port.value)) then None
    else if file && (userinfo.Some? || port.Some?) then None
    else
      NoneOfConcat(UserinfoText(userinfo), hostPort, AuthorityEnd);
      NoneOfConcat(host, PortText(port), AuthorityEnd);
      NoneOfConcat(host, PortText(port), {'@'});
      UserinfoTextClean(userinfo);
      NoneOfUnion(host, AuthorityEnd, {'@'});
      NoneOfUnion(host, AuthorityEnd + {'@'}, {':'});
      assert AuthorityEnd + {'@'} + {':'} == HostForbidden;
      Some(Authority(userinfo, host, port))
  }

  lemma SchemeSeparator(s: string, c: nat)
    requires c < |s| && s[c] == ':' && StartsWith(s[c + 1..], "//")
    ensures s == s[..c] + "://" + s[c + 3..]
  {
    assert s[c + 1..][..2] == "//";
    assert s[c + 1] == '/' && s[c + 2] == '/';
    assert s[..c + 3] == s[..c] + "://";
    assert s == s[..c + 3] + s[c + 3..];
  }

  /** This model's reading of `new URL(s)`: `None` where the text is not
      `scheme://[userinfo@]host[:port]rest`, or is a `file` URL with a
      userinfo or a port; the parts are kept as written. */
  function ParseUrl(s: string): (r: Option<Url>)
    ensures r.Some? ==> WellFormed(r.value) && Serialize(r.value) == s
  {
    var c := FindFirst(s, {':'});
    if c == |s| || !ValidScheme(s[..c]) || !StartsWith(s[c + 1..], "//") then None
    else
      SchemeSeparator(s, c);
      ParseAfterScheme(s[..c], s[c + 3..])
  }

  /** Reads the authority and the tail that follow `scheme://`. */
  function ParseAfterScheme(scheme: string, after: string): (r: Option<Url>)
    requires ValidScheme(scheme)
    ensures r.Some? ==> WellFormed(r.value) && Serialize(r.value) == scheme + "://" + after
  {
    var e := FindFirst(after, AuthorityEnd);
    assert NoneOf(after[..e], AuthorityEnd) by {
      assert forall k :: 0 <= k < e ==> after[..e][k] == after[k];
    }
    match ParseAuthority(after[..e], FileScheme(scheme))
    case None => None
    case Some(a) =>
      AfterSchemeParts(scheme, after, e, a);
      Some(Url(scheme, a.userinfo, a.hostname, a.port, after[e..]))
  }

  /** The URL built from a scheme, the authority read before position `e`
      and the rest from `e` on is well-formed and serialises back. */
  lemma AfterSchemeParts(scheme: string, after: string, e: nat, a: Authority)
    requires ValidScheme(scheme) && e <= |after| && (e < |after| ==> after[e] in AuthorityEnd)
    requires ValidAuthority(a) && AuthorityText(a) == after[..e]
    requires FileScheme(scheme) ==> a.userinfo.None? && a.port.None?
    ensures var u := Url(scheme, a.userinfo, a.hostname, a.port, after[e..]);
      WellFormed(u) && Serialize(u) == scheme + "://" + after
  {
    var u := Url(scheme, a.userinfo, a.hostname, a.port, after[e..]);
    assert AuthorityOf(u) == a;
    assert u.tail != [] ==> u.tail[0] == after[e];
    assert Serialize(u) == scheme + "://" + (after[..e] + after[e..]);
    assert after == after[..e] + after[e..];
  }

  lemma HostPortClean(a: Authority)
    requires ValidAuthority(a)
    ensures NoneOf(a.hostname, {':'})
    ensures NoneOf(a.hostname + PortText(a.port), AuthorityEnd)
    ensures NoneOf(a.hostname + PortText(a.port), {'@'})
  {
    var pt := PortText(a.port);
    assert NoneOf(a.hostname, AuthorityEnd) && NoneOf(a.hostname, {'@'}) && NoneOf(a.hostname, {':'}) by {
      forall k | 0 <= k < |a.hostname| ensures a.hostname[k] !in HostForbidden { }
    }
    assert NoneOf(pt, AuthorityEnd) && NoneOf(pt, {'@'}) by {
      if a.port.Some? {
        forall k | 0 <= k < |pt| ensures pt[k] !in AuthorityEnd + {'@'} {
          if k > 0 {
            assert pt[k] == a.port.value[k - 1];
            assert IsDigit(a.port.value[k - 1]);
          }
        }
      }
    }
    NoneOfConcat(a.hostname, pt, AuthorityEnd);
    NoneOfConcat(a.hostname, pt, {'@'});
  }

  lemma SplitUserinfoOf(userinfo: Option<string>, rest: string)
    requires NoneOf(rest, {'@'})
    ensures SplitUserinfo(UserinfoText(userinfo) + rest) == (userinfo, rest)
  {
    var text := UserinfoText(userinfo) + rest;
    if userinfo.Some? {
      var v := userinfo.value;
      assert text == v + "@" + rest;
      forall k | |v| < k < |text| ensures text[k] != '@' {
        assert text[k] == rest[k - |v| - 1];
      }
      FindLastIs(text, '@', |v|);
      assert text[..|v|] == v;
      assert text[|v| + 1..] == rest;
    } else {
      assert text == rest;
    }
  }

  lemma SplitPortOf(host: string, port: Option<string>)
    requires NoneOf(host, {':'})
    ensures SplitPort(host + PortText(port)) == (host, port)
  {
    if port.Some? {
      var hp := host + ":" + port.value;
      assert hp == host + PortText(port);
      assert forall k :: 0 <= k < |host| ==> hp[k] == host[k];
      assert hp[|host|] == ':';
      FindFirstIs(hp, {':'}, |host|);
      assert hp[..|host|] == host;
      assert hp[|host| + 1..] == port.value;
    } else {
      assert host + PortText(port) == host;
      FindFirstIs(host, {':'}, |host|);
    }
  }

  /** The text of a valid authority holds no character that ends an
      authority, and reading it gives the authority back. */
  lemma ParseAuthorityText(a: Authority, file: bool)
    requires ValidAuthority(a) && (file ==> a.userinfo.None? && a.port.None?)
    ensures NoneOf(AuthorityText(a), AuthorityEnd)
    ensures ParseAuthority(AuthorityText(a), file) == Some(a)
  {
    var hp := a.hostname + PortText(a.port);
    HostPortClean(a);
    UserinfoTextClean(a.userinfo);
    NoneOfConcat(UserinfoText(a.userinfo), hp, AuthorityEnd);
    SplitUserinfoOf(a.userinfo, hp);
    SplitPortOf(a.hostname, a.port);
  }

  lemma SchemeSplitOf(scheme: string, rest: string)
    requires ValidScheme(scheme)
    ensures var s := scheme + "://" + rest;
      && FindFirst(s, {':'}) == |scheme| && s[..|scheme|] == scheme
      && StartsWith(s[|scheme| + 1..], "//") && s[|scheme| + 3..] == rest
  {
    var s := scheme + "://" + rest;
    forall k | 0 <= k < |scheme| ensures s[k] !in {':'} {
      assert s[k] == scheme[k];
      assert IsSchemeChar(scheme[k]);
    }
    FindFirstIs(s, {':'}, |scheme|);
    assert s[..|scheme|] == scheme;
    assert s[|scheme| + 1..] == "//" + rest;
  }

  lemma AuthoritySplitOf(authority: string, tail: string)
    requires NoneOf(authority, AuthorityEnd) && (tail != [] ==> tail[0] in AuthorityEnd)
    ensures FindFirst(authority + tail, AuthorityEnd) == |authority|
    ensures (authority + tail)[..|authority|] == authority && (authority + tail)[|authority|..] == tail
  {
    var t := authority + tail;
    assert forall k :: 0 <= k < |authority| ==> t[k] == authority[k];
    FindFirstIs(t, AuthorityEnd, |authority|);
  }

  /** Parsing the text of a well-formed URL gives the URL back, so every
      URL the parser can produce is parsed from exactly one string. */
  lemma ParseSerialize(u: Url)
    requires WellFormed(u)
    ensures ParseUrl(Serialize(u)) == Some(u)
  {
    var a := AuthorityText(AuthorityOf(u));
    SchemeSplitOf(u.scheme, a + u.tail);
    assert Serialize(u) == u.scheme + "://" + (a + u.tail);
    ParseAfterSchemeOf(u);
  }

  lemma ParseAfterSchemeOf(u: Url)
    requires WellFormed(u)
    ensures ParseAfterScheme(u.scheme, AuthorityText(AuthorityOf(u)) + u.tail) == Some(u)
  {
    var a := AuthorityText(AuthorityOf(u));
    ParseAuthorityText(AuthorityOf(u), FileScheme(u.scheme));
    AuthoritySplitOf(a, u.tail);
  }
}
