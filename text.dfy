/**
 * The string operations the company editor and the cash-flow tooltip use:
 * `trim`, `toUpperCase` (ASCII letters only) and `split` on one character.
 */
module Text {

  /**
   * The characters JavaScript's `String.prototype.trim` strips: the
   * WhiteSpace and LineTerminator code points of ECMAScript (tab, vertical
   * tab, form feed, space, no-break space, byte-order mark, the other
   * space separators, and LF, CR, LS, PS).
   */
  predicate IsWhitespace(c: char) {
    || c == '\t' || c == '\n' || c == '\U{000B}' || c == '\U{000C}' || c == '\r'
    || c == ' ' || c == '\U{00A0}' || c == '\U{1680}'
    || ('\U{2000}' <= c <= '\U{200A}')
    || c == '\U{2028}' || c == '\U{2029}' || c == '\U{202F}' || c == '\U{205F}'
    || c == '\U{3000}' || c == '\U{FEFF}'
  }

  predicate AllWhitespace(s: string) {
    forall i :: 0 <= i < |s| ==> IsWhitespace(s[i])
  }

  /** Neither end of `s` is a whitespace character. */
  predicate Tight(s: string) {
    s == [] || (!IsWhitespace(s[0]) && !IsWhitespace(s[|s| - 1]))
  }

  /** The number of whitespace characters `s` starts with. */
  function LeadingWhitespace(s: string): (k: nat)
    ensures k <= |s|
    ensures forall i :: 0 <= i < k ==> IsWhitespace(s[i])
    ensures k < |s| ==> !IsWhitespace(s[k])
    decreases |s|
  {
    if s != [] && IsWhitespace(s[0]) then 1 + LeadingWhitespace(s[1..]) else 0
  }

  /** Where the whitespace `s` ends with begins. */
  function TrailingWhitespaceStart(s: string): (j: nat)
    ensures j <= |s|
    ensures forall i :: j <= i < |s| ==> IsWhitespace(s[i])
    ensures 0 < j ==> !IsWhitespace(s[j - 1])
    decreases |s|
  {
    if s != [] && IsWhitespace(s[|s| - 1]) then TrailingWhitespaceStart(s[..|s| - 1]) else |s|
  }

  /** `s.trim()`: the part of `s` between its leading and its trailing whitespace. */
  function Trim(s: string): (r: string)
    ensures Tight(r)
    ensures r == [] <==> AllWhitespace(s)
  {
    var k := LeadingWhitespace(s);
    if k == |s| then [] else s[k..TrailingWhitespaceStart(s)]
  }

  /** A blank string is one that `trim` empties; JavaScript treats the trimmed result as false. */
  predicate IsBlank(s: string) {
    Trim(s) == []
  }

  lemma {:induction false} LeadingPadded(a: string, m: string)
    requires AllWhitespace(a) && (m == [] || !IsWhitespace(m[0]))
    ensures LeadingWhitespace(a + m) == |a|
    decreases |a|
  {
    if a != [] {
      assert (a + m)[1..] == a[1..] + m;
      LeadingPadded(a[1..], m);
    } else {
      assert a + m == m;
    }
  }

  lemma {:induction false} TrailingPadded(m: string, b: string)
    requires AllWhitespace(b) && (m == [] || !IsWhitespace(m[|m| - 1]))
    ensures TrailingWhitespaceStart(m + b) == |m|
    decreases |b|
  {
    if b != [] {
      assert (m + b)[..|m + b| - 1] == m + b[..|b| - 1];
      TrailingPadded(m, b[..|b| - 1]);
    } else {
      assert m + b == m;
    }
  }

  /**
   * `trim` removes exactly the padding: a string with no whitespace at
   * either end comes back unchanged from any whitespace around it.
   */
  lemma TrimPadded(a: string, m: string, b: string)
    requires AllWhitespace(a) && AllWhitespace(b) && Tight(m)
    ensures Trim(a + m + b) == m
  {
    var s := a + m + b;
    if m == [] {
      assert s == a + b;
      assert AllWhitespace(s);
    } else {
      assert s == a + (m + b);
      LeadingPadded(a, m + b);
      assert s == (a + m) + b;
      TrailingPadded(a + m, b);
      assert s[|a|..|a| + |m|] == m;
    }
  }

  /** Trimming twice is trimming once. */
  lemma TrimIdempotent(s: string)
    ensures Trim(Trim(s)) == Trim(s)
  {
    var r := Trim(s);
    assert r == [] + r + [];
    TrimPadded([], r, []);
  }

  /** `toUpperCase` on one character, restricted to the ASCII letters. */
  function UpperChar(c: char): (u: char)
    ensures !('a' <= u <= 'z')
    ensures 'a' <= c <= 'z' ==> u as int == c as int - 32
    ensures !('a' <= c <= 'z') ==> u == c
  {
    if 'a' <= c <= 'z' then (c as int - 32) as char else c
  }

  /** `s.toUpperCase()`, character by character. */
  function ToUpper(s: string): (r: string)
    ensures |r| == |s|
    ensures forall i :: 0 <= i < |s| ==> r[i] == UpperChar(s[i])
    decreases |s|
  {
    if s == [] then [] else [UpperChar(s[0])] + ToUpper(s[1..])
  }

  /** Upper-casing an upper-cased string changes nothing. */
  lemma ToUpperIdempotent(s: string)
    ensures ToUpper(ToUpper(s)) == ToUpper(s)
  {
    assert forall i :: 0 <= i < |s| ==> ToUpper(ToUpper(s))[i] == ToUpper(s)[i];
  }

  /** What `trim` keeps is the middle of `s`, with only whitespace cut off on either side. */
  lemma TrimDecompose(s: string) returns (a: string, b: string)
    ensures s == a + Trim(s) + b
    ensures AllWhitespace(a) && AllWhitespace(b)
  {
    var k := LeadingWhitespace(s);
    if k == |s| {
      a, b := s, [];
    } else {
      var j := TrailingWhitespaceStart(s);
      LeadingBeforeTrailing(s);
      a, b := s[..k], s[j..];
      assert AllWhitespace(a) by {
        forall i | 0 <= i < |a| ensures IsWhitespace(a[i]) {
          assert a[i] == s[i];
        }
      }
      assert AllWhitespace(b) by {
        forall i | 0 <= i < |b| ensures IsWhitespace(b[i]) {
          assert b[i] == s[j + i];
        }
      }
      assert s == a + s[k..j] + b;
    }
  }

  /** Unless `s` is all whitespace, its leading whitespace ends before its trailing whitespace starts. */
  lemma LeadingBeforeTrailing(s: string)
    requires LeadingWhitespace(s) < |s|
    ensures LeadingWhitespace(s) < TrailingWhitespaceStart(s)
  {
  }

  /** Case mapping leaves whitespace alone, so trimming and upper-casing commute. */
  lemma TrimToUpperCommute(s: string)
    ensures Trim(ToUpper(s)) == ToUpper(Trim(s))
  {
    var a, b := TrimDecompose(s);
    var m := Trim(s);
    UpperConcat(a, m, b);
    UpperKeepsWhitespace(a);
    UpperKeepsWhitespace(b);
    UpperKeepsTight(m);
    TrimPadded(a, ToUpper(m), b);
  }

  lemma UpperKeepsWhitespace(s: string)
    requires AllWhitespace(s)
    ensures ToUpper(s) == s
  {
  }

  lemma UpperKeepsTight(m: string)
    requires Tight(m)
    ensures Tight(ToUpper(m))
  {
  }

  lemma UpperConcat(a: string, m: string, b: string)
    ensures ToUpper(a + m + b) == ToUpper(a) + ToUpper(m) + ToUpper(b)
  {
    var l := a + m + b;
    assert forall i :: 0 <= i < |l| ==> ToUpper(l)[i] == (ToUpper(a) + ToUpper(m) + ToUpper(b))[i];
  }

  /** Joins `parts` with `sep` between neighbours (Array.prototype.join). */
  function Join(parts: seq<string>, sep: char): string
    requires |parts| >= 1
    decreases |parts|
  {
    if |parts| == 1 then parts[0] else parts[0] + [sep] + Join(parts[1..], sep)
  }

  /**
   * `s.split(sep)` for a one-character separator: the pieces between the
   * separators, with an empty piece wherever two separators touch or one
   * stands at either end.
   */
  function Split(s: string, sep: char): (parts: seq<string>)
    ensures |parts| >= 1
    ensures forall k :: 0 <= k < |parts| ==> sep !in parts[k]
    ensures Join(parts, sep) == s
    decreases |s|
  {
    if s == [] then [""]
    else
      var rest := Split(s[1..], sep);
      if s[0] == sep then [""] + rest
      else
        var parts := [[s[0]] + rest[0]] + rest[1..];
        assert parts[1..] == rest[1..];
        parts
  }

  lemma {:induction false} SplitPrefix(a: string, t: string, sep: char)
    requires sep !in a
    ensures Split(a + t, sep) == [a + Split(t, sep)[0]] + Split(t, sep)[1..]
    decreases |a|
  {
    if a == [] {
      assert a + t == t;
      var parts := Split(t, sep);
      assert parts == [parts[0]] + parts[1..];
      assert a + parts[0] == parts[0];
    } else {
      assert (a + t)[0] == a[0] && (a + t)[1..] == a[1..] + t;
      SplitPrefix(a[1..], t, sep);
      assert [a[0]] + (a[1..] + Split(t, sep)[0]) == a + Split(t, sep)[0];
    }
  }

  /** Splitting a join gives the parts back, provided no part holds the separator. */
  lemma {:induction false} SplitJoin(parts: seq<string>, sep: char)
    requires |parts| >= 1
    requires forall k :: 0 <= k < |parts| ==> sep !in parts[k]
    ensures Split(Join(parts, sep), sep) == parts
    decreases |parts|
  {
    if |parts| == 1 {
      SplitPrefix(parts[0], "", sep);
      assert parts[0] + "" == parts[0];
    } else {
      var tail := Join(parts[1..], sep);
      SplitJoin(parts[1..], sep);
      assert parts[0] + [sep] + tail == parts[0] + ([sep] + tail);
      SplitPrefix(parts[0], [sep] + tail, sep);
      assert ([sep] + tail)[1..] == tail;
      assert Split([sep] + tail, sep) == [""] + parts[1..];
      assert parts[0] + "" == parts[0];
    }
  }

  /** A string without the separator splits into itself alone. */
  lemma SplitWithoutSeparator(s: string, sep: char)
    ensures sep !in s ==> Split(s, sep) == [s]
  {
    if sep !in s {
      SplitJoin([s], sep);
    }
  }

  /** The sign JavaScript writes when it renders a number: `-` for a negative one, nothing otherwise. */
  function NumberSign(x: real): string {
    if x < 0.0 then "-" else ""
  }

  /** `x >= 0 ? '+' : ''`: the explicit plus the charts put before a non-negative change. */
  function SignPrefix(x: real): (p: string)
    ensures p == "+" <==> x >= 0.0
    ensures p == "" <==> x < 0.0
  {
    if x >= 0.0 then "+" else ""
  }

  /** Rendered after SignPrefix, every change carries exactly one sign, and it is the right one. */
  lemma SignPrefixShowsOneSign(x: real)
    ensures SignPrefix(x) + NumberSign(x) == (if x < 0.0 then "-" else "+")
  {
  }
}
