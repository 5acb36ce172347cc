/** The JavaScript string operations the list components and forms rely on:
    `trim`, truncation by `slice(0, n) + "..."`, and `join`. Lengths count characters. */
module Strings {

  /** ECMAScript WhiteSpace and LineTerminator code points, the set `String.prototype.trim` strips. */
  predicate IsJsWhitespace(c: char) {
    c == '\t' || c == '\n' || c == '\U{000B}' || c == '\U{000C}' || c == '\r' || c == ' '
    || c == '\U{00A0}' || c == '\U{1680}' || ('\U{2000}' <= c <= '\U{200A}')
    || c == '\U{2028}' || c == '\U{2029}' || c == '\U{202F}' || c == '\U{205F}'
    || c == '\U{3000}' || c == '\U{FEFF}'
  }

  ghost predicate AllWhitespace(s: string) {
    forall i :: 0 <= i < |s| ==> IsJsWhitespace(s[i])
  }

  /** Drops leading whitespace: the result is the longest suffix that does not start with it. */
  function TrimStart(s: string): (r: string)
    ensures |r| <= |s| && r == s[|s| - |r|..]
    ensures AllWhitespace(s[..|s| - |r|])
    ensures r == "" || !IsJsWhitespace(r[0])
  {
    if |s| > 0 && IsJsWhitespace(s[0]) then
      var r := TrimStart(s[1..]);
      assert s[..|s| - |r|] == [s[0]] + s[1..][..|s| - 1 - |r|];
      r
    else s
  }

  /** Drops trailing whitespace: the result is the longest prefix that does not end with it. */
  function TrimEnd(s: string): (r: string)
    ensures |r| <= |s| && r == s[..|r|]
    ensures AllWhitespace(s[|r|..])
    ensures r == "" || !IsJsWhitespace(r[|r| - 1])
  {
    if |s| > 0 && IsJsWhitespace(s[|s| - 1]) then
      var r := TrimEnd(s[..|s| - 1]);
      assert s[|r|..] == s[..|s| - 1][|r|..] + [s[|s| - 1]];
      r
    else s
  }

  /** `String.prototype.trim`. */
  function Trim(s: string): (r: string)
    ensures |r| <= |s|
    ensures r == "" || (!IsJsWhitespace(r[0]) && !IsJsWhitespace(r[|r| - 1]))
  {
    TrimEnd(TrimStart(s))
  }

  lemma AllWhitespaceConcat(a: string, b: string)
    requires AllWhitespace(a) && AllWhitespace(b)
    ensures AllWhitespace(a + b)
  {
    forall i | 0 <= i < |a + b|
      ensures IsJsWhitespace((a + b)[i])
    {
      if i < |a| {
        assert (a + b)[i] == a[i];
      } else {
        assert (a + b)[i] == b[i - |a|];
      }
    }
  }

  /** What `trim` reduces to nothing was whitespace throughout. */
  lemma TrimEmptyIsBlank(s: string)
    requires Trim(s) == ""
    ensures AllWhitespace(s)
  {
    var t := TrimStart(s);
    var k := |s| - |t|;
    assert TrimEnd(t) == "";
    assert t[0..] == t;
    assert AllWhitespace(t);
    assert AllWhitespace(s[..k]);
    assert s == s[..k] + t;
    AllWhitespaceConcat(s[..k], t);
  }

  /** A blank string trims to nothing: `TrimStart` already drops all of it. */
  lemma BlankTrimsEmpty(s: string)
    requires AllWhitespace(s)
    ensures Trim(s) == ""
  {
    var t := TrimStart(s);
    if t != "" {
      assert false;
    }
  }

  /** A string trims to "" (is falsy after `trim`) exactly when it is all whitespace. */
  lemma TrimBlankIff(s: string)
    ensures Trim(s) == "" <==> AllWhitespace(s)
  {
    if Trim(s) == "" {
      TrimEmptyIsBlank(s);
    }
    if AllWhitespace(s) {
      BlankTrimsEmpty(s);
    }
  }

  /** `text.length > limit ? text.slice(0, limit) + "..." : text`. */
  function Truncate(text: string, limit: nat): (shown: string)
    ensures |text| <= limit ==> shown == text
    ensures |text| > limit ==> |shown| == limit + 3 && shown[..limit] == text[..limit] && shown[limit..] == "..."
    ensures |shown| <= limit + 3
  {
    if |text| > limit then text[..limit] + "..." else text
  }

  /** Truncating what is already shown changes nothing. */
  lemma TruncateIdempotent(text: string, limit: nat)
    ensures Truncate(Truncate(text, limit), limit) == Truncate(text, limit)
  {
    var shown := Truncate(text, limit);
    if |text| > limit {
      assert Truncate(shown, limit) == shown[..limit] + "...";
      assert shown == shown[..limit] + shown[limit..];
    }
  }

  /** Two texts are shown alike exactly when they are equal or both overflow with the same first
      `limit` characters: the shown text identifies its source up to that prefix. */
  lemma TruncateSameIff(a: string, b: string, limit: nat)
    ensures Truncate(a, limit) == Truncate(b, limit)
        <==> a == b || (|a| > limit && |b| > limit && a[..limit] == b[..limit])
  {
    var sa, sb := Truncate(a, limit), Truncate(b, limit);
    if sa == sb && |a| > limit && |b| > limit {
      assert a[..limit] == sa[..limit];
    }
  }

  /** `Array.prototype.join`, for an array of strings. */
  function Join(parts: seq<string>, sep: string): (r: string)
    ensures |parts| == 0 ==> r == ""
    ensures |parts| == 1 ==> r == parts[0]
  {
    if |parts| == 0 then ""
    else if |parts| == 1 then parts[0]
    else parts[0] + sep + Join(parts[1..], sep)
  }

  /** Joining two non-empty lists is joining each and putting one separator between them,
      so every part appears once, in list order. */
  lemma {:induction false} JoinAppend(xs: seq<string>, ys: seq<string>, sep: string)
    requires |xs| > 0 && |ys| > 0
    ensures Join(xs + ys, sep) == Join(xs, sep) + sep + Join(ys, sep)
  {
    if |xs| == 1 {
      assert (xs + ys)[1..] == ys;
    } else {
      assert (xs + ys)[1..] == xs[1..] + ys;
      JoinAppend(xs[1..], ys, sep);
    }
  }

  function TotalLength(parts: seq<string>): nat {
    if |parts| == 0 then 0 else |parts[0]| + TotalLength(parts[1..])
  }

  /** A join holds all the characters of the parts plus one separator between each pair. */
  lemma {:induction false} JoinLength(parts: seq<string>, sep: string)
    requires |parts| > 0
    ensures |Join(parts, sep)| == TotalLength(parts) + (|parts| - 1) * |sep|
  {
    if |parts| > 1 {
      JoinLength(parts[1..], sep);
    }
  }
}
