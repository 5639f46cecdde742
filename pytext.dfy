/**
  * The few Python `str` operations the core relies on, over `string`
  * (a sequence of Unicode scalar values, like a Python `str` of code points).
  * Case mapping is ASCII-only; see README for what that leaves out.
  */
module PyText {

  /** `str.isspace` for one character: the characters Python 3 strips by default. */
  predicate IsSpace(c: char) {
    var n := c as int;
    || (0x09 <= n <= 0x0D) || (0x1C <= n <= 0x20)
    || n == 0x85 || n == 0xA0 || n == 0x1680
    || (0x2000 <= n <= 0x200A)
    || n == 0x2028 || n == 0x2029 || n == 0x202F || n == 0x205F || n == 0x3000
  }

  /** `str.lstrip()`: drops whitespace from the front. */
  function StripStart(s: string): (r: string)
    ensures |r| <= |s|
    decreases |s|
  {
    if |s| > 0 && IsSpace(s[0]) then StripStart(s[1..]) else s
  }

  /** `str.rstrip()`: drops whitespace from the back. */
  function StripEnd(s: string): (r: string)
    ensures |r| <= |s|
    decreases |s|
  {
    if |s| > 0 && IsSpace(s[|s| - 1]) then StripEnd(s[..|s| - 1]) else s
  }

  /** `str.strip()`. */
  function Strip(s: string): string {
    StripEnd(StripStart(s))
  }

  /** `lstrip` keeps the longest suffix of `s` that does not start with whitespace. */
  lemma {:induction false} StripStartDropsSpace(s: string)
    ensures var r := StripStart(s);
            && r == s[|s| - |r|..]
            && (forall k :: 0 <= k < |s| - |r| ==> IsSpace(s[k]))
            && (r == [] || !IsSpace(r[0]))
    decreases |s|
  {
    if |s| > 0 && IsSpace(s[0]) {
      var t := s[1..];
      StripStartDropsSpace(t);
      var r := StripStart(t);
      assert t[|t| - |r|..] == s[|s| - |r|..];
      forall k | 0 <= k < |s| - |r|
        ensures IsSpace(s[k])
      {
        if k > 0 {
          assert s[k] == t[k - 1];
        }
      }
    }
  }

  /** `rstrip` keeps the longest prefix of `s` that does not end with whitespace. */
  lemma {:induction false} StripEndDropsSpace(s: string)
    ensures var r := StripEnd(s);
            && r == s[..|r|]
            && (forall k :: |r| <= k < |s| ==> IsSpace(s[k]))
            && (r == [] || !IsSpace(r[|r| - 1]))
    decreases |s|
  {
    if |s| > 0 && IsSpace(s[|s| - 1]) {
      var t := s[..|s| - 1];
      StripEndDropsSpace(t);
      var r := StripEnd(t);
      assert t[..|r|] == s[..|r|];
      forall k | |r| <= k < |s|
        ensures IsSpace(s[k])
      {
        if k < |s| - 1 {
          assert s[k] == t[k];
        }
      }
    }
  }

  /** What `Strip` returns sits in `s` right after the leading whitespace. */
  lemma StripInPlace(s: string)
    ensures var i := |s| - |StripStart(s)|;
            i + |Strip(s)| <= |s| && Strip(s) == s[i..i + |Strip(s)|]
  {
    var t := StripStart(s);
    StripStartDropsSpace(s);
    StripEndDropsSpace(t);
    var r := StripEnd(t);
    assert r == s[|s| - |t|..][..|r|];
  }

  /** The trailing whitespace `StripEnd` removes from what `StripStart` left, located in `s`. */
  lemma StripEndInPlace(s: string)
    ensures var i := |s| - |StripStart(s)|;
            forall k :: i + |Strip(s)| <= k < |s| ==> IsSpace(s[k])
  {
    var t := StripStart(s);
    StripStartDropsSpace(s);
    StripEndDropsSpace(t);
    var r := StripEnd(t);
    var i := |s| - |t|;
    assert Strip(s) == r && t == s[i..];
    forall k | i + |r| <= k < |s|
      ensures IsSpace(s[k])
    {
      assert s[k] == t[k - i] && IsSpace(t[k - i]);
    }
  }

  /** What `Strip` returns neither starts nor ends with whitespace. */
  lemma StripEdges(s: string)
    ensures Strip(s) == [] || (!IsSpace(Strip(s)[0]) && !IsSpace(Strip(s)[|Strip(s)| - 1]))
  {
    var t := StripStart(s);
    StripStartDropsSpace(s);
    StripEndDropsSpace(t);
    var r := StripEnd(t);
    assert r == [] || r[0] == t[0];
  }

  /**
    * What `Strip` promises: it cuts the slice `s[i..j]` out of `s`, where `i`
    * counts the leading whitespace; it removes only whitespace, and leaves
    * none at either end.
    */
  lemma StripIsTrimmedSlice(s: string)
    ensures var i := |s| - |StripStart(s)|;
            var j := i + |Strip(s)|;
            && 0 <= i <= j <= |s| && Strip(s) == s[i..j]
            && (forall k :: 0 <= k < i ==> IsSpace(s[k]))
            && (forall k :: j <= k < |s| ==> IsSpace(s[k]))
    ensures Strip(s) == [] || (!IsSpace(Strip(s)[0]) && !IsSpace(Strip(s)[|Strip(s)| - 1]))
  {
    StripStartDropsSpace(s);
    StripInPlace(s);
    StripEndInPlace(s);
    StripEdges(s);
  }

  /** A string that has no surrounding whitespace is returned unchanged. */
  lemma StripTrimmed(s: string)
    requires s == [] || (!IsSpace(s[0]) && !IsSpace(s[|s| - 1]))
    ensures Strip(s) == s
  {
  }

  /** A string made only of whitespace strips to the empty string. */
  lemma StripAllSpace(s: string)
    requires forall k :: 0 <= k < |s| ==> IsSpace(s[k])
    ensures Strip(s) == []
  {
    StripIsTrimmedSlice(s);
  }

  function AsciiLower(c: char): (d: char)
  {
    if 'A' <= c <= 'Z' then (c as int + 32) as char else c
  }

  function AsciiUpper(c: char): (d: char)
  {
    if 'a' <= c <= 'z' then (c as int - 32) as char else c
  }

  /** `str.lower()` restricted to ASCII letters. */
  function Lower(s: string): (r: string)
    ensures |r| == |s|
  {
    seq(|s|, i requires 0 <= i < |s| => AsciiLower(s[i]))
  }

  /** `str.upper()` restricted to ASCII letters. */
  function Upper(s: string): (r: string)
    ensures |r| == |s|
  {
    seq(|s|, i requires 0 <= i < |s| => AsciiUpper(s[i]))
  }

  /** `str.replace(from, to)` for one-character `from` and `to`. */
  function ReplaceChar(s: string, from: char, to: char): (r: string)
    ensures |r| == |s|
  {
    seq(|s|, i requires 0 <= i < |s| => if s[i] == from then to else s[i])
  }

  /** `pattern` occurs in `s` at offset `i`, letters compared without regard to ASCII case. */
  predicate MatchesAtIgnoringCase(s: string, i: nat, pattern: string) {
    i + |pattern| <= |s|
    && forall j :: 0 <= j < |pattern| ==> AsciiLower(s[i + j]) == AsciiLower(pattern[j])
  }

  /** `re.search(pattern, s, re.IGNORECASE)` for a pattern that matches only itself. */
  predicate ContainsIgnoringCase(s: string, pattern: string) {
    exists i | 0 <= i <= |s| - |pattern| :: MatchesAtIgnoringCase(s, i, pattern)
  }

  /** A string without any character `c` does not contain a pattern that has `c`. */
  lemma NotContainsWithoutChar(s: string, pattern: string, k: nat)
    requires k < |pattern|
    requires forall i :: 0 <= i < |s| ==> AsciiLower(s[i]) != AsciiLower(pattern[k])
    ensures !ContainsIgnoringCase(s, pattern)
  {
    forall i | 0 <= i <= |s| - |pattern|
      ensures !MatchesAtIgnoringCase(s, i, pattern)
    {
      assert AsciiLower(s[i + k]) != AsciiLower(pattern[k]);
    }
  }

  /** A pattern found in a slice of `s` is found in `s`. */
  lemma ContainsInSlice(s: string, i: nat, j: nat, pattern: string)
    requires i <= j <= |s| && ContainsIgnoringCase(s[i..j], pattern)
    ensures ContainsIgnoringCase(s, pattern)
  {
    var t := s[i..j];
    var q :| 0 <= q <= |t| - |pattern| && MatchesAtIgnoringCase(t, q, pattern);
    forall k | 0 <= k < |pattern|
      ensures AsciiLower(s[i + q + k]) == AsciiLower(pattern[k])
    {
      assert s[i + q + k] == t[q + k];
    }
    assert MatchesAtIgnoringCase(s, i + q, pattern);
  }

  /** Patterns absent from `s` are absent from every slice `t` of it. */
  lemma NoneInSlice(s: string, i: nat, j: nat, t: string, patterns: seq<string>)
    requires i <= j <= |s| && t == s[i..j]
    requires forall p | p in patterns :: !ContainsIgnoringCase(s, p)
    ensures forall p | p in patterns :: !ContainsIgnoringCase(t, p)
  {
    forall p | p in patterns
      ensures !ContainsIgnoringCase(t, p)
    {
      if ContainsIgnoringCase(t, p) {
        ContainsInSlice(s, i, j, p);
      }
    }
  }

  /** Patterns absent from `s` are absent from `Strip(s)`, a slice of it. */
  lemma NoneAfterStrip(s: string, patterns: seq<string>)
    requires forall p | p in patterns :: !ContainsIgnoringCase(s, p)
    ensures forall p | p in patterns :: !ContainsIgnoringCase(Strip(s), p)
  {
    StripInPlace(s);
    var i := |s| - |StripStart(s)|;
    NoneInSlice(s, i, i + |Strip(s)|, Strip(s), patterns);
  }

  /** `sep.join(parts)`. */
  function Join(sep: string, parts: seq<string>): string
    decreases |parts|
  {
    if |parts| == 0 then ""
    else if |parts| == 1 then parts[0]
    else parts[0] + sep + Join(sep, parts[1..])
  }

  /** Joining one more part adds the separator and that part at the end. */
  lemma {:induction false} JoinSnoc(sep: string, parts: seq<string>, last: string)
    requires parts != []
    ensures Join(sep, parts + [last]) == Join(sep, parts) + sep + last
    decreases |parts|
  {
    if |parts| == 1 {
      assert parts + [last] == [parts[0], last];
      assert (parts + [last])[1..] == [last];
    } else {
      assert (parts + [last])[0] == parts[0];
      assert (parts + [last])[1..] == parts[1..] + [last];
      JoinSnoc(sep, parts[1..], last);
    }
  }

  /** Python's `a < b` on strings: lexicographic by code point, a proper prefix first. */
  predicate LexLess(a: string, b: string) {
    exists k | 0 <= k <= |a| && k <= |b| ::
      a[..k] == b[..k] && ((k == |a| && k < |b|) || (k < |a| && k < |b| && a[k] < b[k]))
  }

  /** What `sorted` yields for a set of strings: strictly increasing, so also free of duplicates. */
  predicate StrictlySorted(s: seq<string>) {
    forall i :: 0 <= i < |s| - 1 ==> LexLess(s[i], s[i + 1])
  }
}
