/** The JavaScript string operations the guards are built from:
    `startsWith`, `indexOf`/`lastIndexOf`, `split` and `join` on one
    character, `trim`, and the decimal text of a non-negative integer. */
module Strings {
  import opened Common

  /** `s.startsWith(prefix)`. */
  predicate StartsWith(s: string, prefix: string)
  {
    prefix <= s
  }

  /** Two prefixes of one string are ordered by the prefix relation. */
  lemma PrefixesOfOneString(s: string, a: string, b: string)
    requires StartsWith(s, a) && StartsWith(s, b)
    ensures StartsWith(a, b) || StartsWith(b, a)
  {
    if |a| <= |b| {
      assert a == s[..|a|] == b[..|a|];
    } else {
      assert b == s[..|b|] == a[..|b|];
    }
  }

  predicate NoneOf(s: string, cs: set<char>)
  {
    forall k :: 0 <= k < |s| ==> s[k] !in cs
  }

  /** Index of the first character of `s` that is in `stop`, or `|s|`. */
  function FindFirst(s: string, stop: set<char>): (i: nat)
    ensures i <= |s|
    ensures forall k :: 0 <= k < i ==> s[k] !in stop
    ensures i < |s| ==> s[i] in stop
  {
    if s == [] then 0
    else if s[0] in stop then 0
    else 1 + FindFirst(s[1..], stop)
  }

  /** The contract of `FindFirst` determines its result. */
  lemma FindFirstIs(s: string, stop: set<char>, i: nat)
    requires i <= |s|
    requires forall k :: 0 <= k < i ==> s[k] !in stop
    requires i < |s| ==> s[i] in stop
    ensures FindFirst(s, stop) == i
  {
  }

  /** `s.lastIndexOf(c)`, with `None` for -1. */
  function FindLast(s: string, c: char): (r: Option<nat>)
    ensures r.None? ==> c !in s
    ensures r.Some? ==> r.value < |s| && s[r.value] == c
    ensures r.Some? ==> forall k :: r.value < k < |s| ==> s[k] != c
  {
    if s == [] then None
    else if s[|s| - 1] == c then Some(|s| - 1)
    else
      assert forall k :: 0 <= k < |s| - 1 ==> s[..|s| - 1][k] == s[k];
      FindLast(s[..|s| - 1], c)
  }

  /** The contract of `FindLast` determines its result. */
  lemma FindLastIs(s: string, c: char, i: nat)
    requires i < |s| && s[i] == c
    requires forall k :: i < k < |s| ==> s[k] != c
    ensures FindLast(s, c) == Some(i)
  {
  }

  /** `s.split(sep)` for a one-character separator: every occurrence of
      `sep` ends a piece, so the result is never empty and the empty
      string splits into `[""]`. */
  function Split(s: string, sep: char): (parts: seq<string>)
    ensures |parts| >= 1
    ensures forall k :: 0 <= k < |parts| ==> sep !in parts[k]
    decreases |s|
  {
    var i := FindFirst(s, {sep});
    if i == |s| then [s]
    else
      assert forall k :: 0 <= k < i ==> s[..i][k] == s[k];
      [s[..i]] + Split(s[i + 1..], sep)
  }

  /** `parts.join(sep)` for a one-character separator. */
  function Join(parts: seq<string>, sep: char): string
  {
    if |parts| == 0 then ""
    else if |parts| == 1 then parts[0]
    else parts[0] + [sep] + Join(parts[1..], sep)
  }

  /** Splitting loses nothing: joining the pieces gives the string back. */
  lemma {:induction false} SplitThenJoin(s: string, sep: char)
    ensures Join(Split(s, sep), sep) == s
    decreases |s|
  {
    var i := FindFirst(s, {sep});
    if i < |s| {
      var rest := s[i + 1..];
      SplitThenJoin(rest, sep);
      JoinCons(s[..i], Split(rest, sep), sep);
      assert s == s[..i] + [sep] + rest;
    }
  }

  lemma JoinCons(p: string, rest: seq<string>, sep: char)
    requires |rest| >= 1
    ensures Join([p] + rest, sep) == p + [sep] + Join(rest, sep)
  {
    assert ([p] + rest)[1..] == rest;
  }

  /** Joining pieces free of the separator and splitting again gives the
      pieces back. */
  lemma {:induction false} JoinThenSplit(parts: seq<string>, sep: char)
    requires |parts| >= 1
    requires forall k :: 0 <= k < |parts| ==> sep !in parts[k]
    ensures Split(Join(parts, sep), sep) == parts
  {
    var p := parts[0];
    if |parts| == 1 {
      FindFirstIs(p, {sep}, |p|);
    } else {
      var rest := Join(parts[1..], sep);
      var s := p + [sep] + rest;
      assert s == Join(parts, sep);
      assert forall k :: 0 <= k < |p| ==> s[k] == p[k];
      FindFirstIs(s, {sep}, |p|);
      assert s[..|p|] == p;
      assert s[|p| + 1..] == rest;
      JoinThenSplit(parts[1..], sep);
      assert parts == [p] + parts[1..];
    }
  }

  /** Two adjacent separators produce an empty piece after the first one. */
  lemma {:induction false} AdjacentSeparatorsGiveEmptyPiece(s: string, sep: char, i: nat)
    requires i + 1 < |s| && s[i] == sep && s[i + 1] == sep
    ensures "" in Split(s, sep)[1..]
    decreases |s|
  {
    var j := FindFirst(s, {sep});
    var rest := s[j + 1..];
    var later := Split(rest, sep);
    SplitAtFirst(s, sep, j);
    if j == i {
      FindFirstIs(rest, {sep}, 0);
      assert later[0] == "";
    } else {
      assert rest[i - j - 1] == sep && rest[i - j] == sep;
      AdjacentSeparatorsGiveEmptyPiece(rest, sep, i - j - 1);
      InLaterIsIn(later, "");
    }
  }

  lemma InLaterIsIn<T>(xs: seq<T>, x: T)
    requires |xs| >= 1 && x in xs[1..]
    ensures x in xs
  {
    var k :| 0 <= k < |xs[1..]| && xs[1..][k] == x;
    assert xs[k + 1] == x;
  }

  /** The first piece ends at the first separator. */
  lemma SplitAtFirst(s: string, sep: char, j: nat)
    requires j < |s| && j == FindFirst(s, {sep})
    ensures Split(s, sep)[1..] == Split(s[j + 1..], sep)
  {
  }

  /** A separator at the very end produces an empty last piece. */
  lemma {:induction false} TrailingSeparatorGivesEmptyPiece(s: string, sep: char)
    requires |s| >= 1 && s[|s| - 1] == sep
    ensures |Split(s, sep)| >= 2 && Split(s, sep)[|Split(s, sep)| - 1] == ""
    decreases |s|
  {
    var j := FindFirst(s, {sep});
    var rest := s[j + 1..];
    assert Split(s, sep) == [s[..j]] + Split(rest, sep);
    if j == |s| - 1 {
      assert rest == "";
    } else {
      assert rest[|rest| - 1] == sep;
      TrailingSeparatorGivesEmptyPiece(rest, sep);
    }
  }

  /** The characters `String.prototype.trim` removes: the ECMAScript
      WhiteSpace and LineTerminator code points. */
  const JsWhitespace: set<char> :=
    {'\t', '\n', '\U{000B}', '\U{000C}', '\r', ' ', '\U{00A0}', '\U{1680}',
     '\U{2000}', '\U{2001}', '\U{2002}', '\U{2003}', '\U{2004}', '\U{2005}',
     '\U{2006}', '\U{2007}', '\U{2008}', '\U{2009}', '\U{200A}', '\U{2028}',
     '\U{2029}', '\U{202F}', '\U{205F}', '\U{3000}', '\U{FEFF}'}

  predicate AllWhitespace(s: string)
  {
    forall k :: 0 <= k < |s| ==> s[k] in JsWhitespace
  }

  /** Drops the leading whitespace: what is removed is all whitespace and
      what is left does not start with whitespace. */
  function TrimStart(s: string): (r: string)
    ensures |r| <= |s| && r == s[|s| - |r|..]
    ensures AllWhitespace(s[..|s| - |r|])
    ensures r == [] || r[0] !in JsWhitespace
  {
    if s != [] && s[0] in JsWhitespace then
      var r := TrimStart(s[1..]);
      assert s[..|s| - |r|] == [s[0]] + s[1..][..|s[1..]| - |r|];
      r
    else s
  }

  /** Drops the trailing whitespace: what is removed is all whitespace and
      what is left does not end with whitespace. */
  function TrimEnd(s: string): (r: string)
    ensures |r| <= |s| && r == s[..|r|]
    ensures AllWhitespace(s[|r|..])
    ensures r == [] || r[|r| - 1] !in JsWhitespace
  {
    if s != [] && s[|s| - 1] in JsWhitespace then
      var r := TrimEnd(s[..|s| - 1]);
      assert s[|r|..] == s[..|s| - 1][|r|..] + [s[|s| - 1]];
      r
    else s
  }

  /** `s.trim()`: a piece of `s` that neither starts nor ends with
      whitespace. */
  function Trim(s: string): (r: string)
    ensures |r| <= |s|
    ensures r == [] || (r[0] !in JsWhitespace && r[|r| - 1] !in JsWhitespace)
  {
    TrimEnd(TrimStart(s))
  }

  /** A string that neither starts nor ends with whitespace is its own trim. */
  lemma TrimKeepsTrimmed(s: string)
    requires s == [] || (s[0] !in JsWhitespace && s[|s| - 1] !in JsWhitespace)
    ensures Trim(s) == s
  {
  }

  lemma {:induction false} TrimStartSkipsWhitespace(w: string, x: string)
    requires AllWhitespace(w)
    ensures TrimStart(w + x) == TrimStart(x)
  {
    if w != [] {
      assert (w + x)[0] == w[0];
      assert (w + x)[1..] == w[1..] + x;
      TrimStartSkipsWhitespace(w[1..], x);
    } else {
      assert w + x == x;
    }
  }

  lemma {:induction false} TrimEndSkipsWhitespace(x: string, w: string)
    requires AllWhitespace(w)
    ensures TrimEnd(x + w) == TrimEnd(x)
    decreases |w|
  {
    if w != [] {
      var y := x + w;
      assert y[|y| - 1] == w[|w| - 1];
      assert y[..|y| - 1] == x + w[..|w| - 1];
      TrimEndSkipsWhitespace(x, w[..|w| - 1]);
    } else {
      assert x + w == x;
    }
  }

  lemma {:induction false} TrimStartAppend(t: string, w: string)
    ensures TrimStart(t + w) == if TrimStart(t) == [] then TrimStart(w) else TrimStart(t) + w
  {
    if t == [] {
      assert t + w == w;
    } else if t[0] in JsWhitespace {
      assert (t + w)[0] == t[0];
      assert (t + w)[1..] == t[1..] + w;
      TrimStartAppend(t[1..], w);
    } else {
      assert (t + w)[0] == t[0];
    }
  }

  /** `trim` ignores whitespace added on either side. */
  lemma TrimIgnoresPadding(w1: string, t: string, w2: string)
    requires AllWhitespace(w1) && AllWhitespace(w2)
    ensures Trim(w1 + t + w2) == Trim(t)
  {
    assert w1 + t + w2 == w1 + (t + w2);
    TrimStartSkipsWhitespace(w1, t + w2);
    TrimStartAppend(t, w2);
    if TrimStart(t) == [] {
      TrimStartSkipsWhitespace(w2, []);
      assert w2 + [] == w2;
    } else {
      TrimEndSkipsWhitespace(TrimStart(t), w2);
    }
  }

  predicate IsDigit(c: char)
  {
    '0' <= c <= '9'
  }

  predicate AllDigits(s: string)
  {
    forall k :: 0 <= k < |s| ==> IsDigit(s[k])
  }

  function DigitChar(d: nat): (c: char)
    requires d < 10
    ensures IsDigit(c)
  {
    (48 + d) as char
  }

  /** `n.toString()` for a non-negative integer: decimal digits, no
      leading zero. */
  function NatToDecimal(n: nat): (s: string)
    ensures |s| >= 1 && AllDigits(s)
    ensures s[0] == '0' ==> n == 0
  {
    if n < 10 then [DigitChar(n)]
    else NatToDecimal(n / 10) + [DigitChar(n % 10)]
  }

  /** The number a string of decimal digits denotes. */
  function DecimalValue(s: string): nat
    requires AllDigits(s)
  {
    if s == [] then 0
    else
      assert AllDigits(s[..|s| - 1]) by {
        assert forall k :: 0 <= k < |s| - 1 ==> s[..|s| - 1][k] == s[k];
      }
      10 * DecimalValue(s[..|s| - 1]) + (s[|s| - 1] as int - 48)
  }

  /** Reading back the decimal text of `n` gives `n`. */
  lemma {:induction false} DecimalRoundTrip(n: nat)
    ensures DecimalValue(NatToDecimal(n)) == n
  {
    if n >= 10 {
      DecimalRoundTrip(n / 10);
      var s := NatToDecimal(n);
      assert s[..|s| - 1] == NatToDecimal(n / 10);
    }
  }

  /** Distinct numbers have distinct decimal texts. */
  lemma DecimalInjective(m: nat, n: nat)
    requires NatToDecimal(m) == NatToDecimal(n)
    ensures m == n
  {
    DecimalRoundTrip(m);
    DecimalRoundTrip(n);
  }
}
