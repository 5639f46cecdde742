/**
  * Base64 encoding with the standard alphabet and `=` padding, as defined in
  * section 4 of RFC 4648; this is what Python's `base64.b64encode` produces.
  * The decoder is defined on canonical encodings only: every group of four
  * characters is complete, padding appears only in the last group, and the
  * bits a padded group leaves over are zero.
  */
module Base64 {

  newtype byte = x: int | 0 <= x < 256

  /** A value carried by one base64 character: six bits. */
  type Sextet = x: int | 0 <= x < 64

  const Pad: char := '='

  /** The character that encodes `v` (Table 1 of RFC 4648). */
  function Symbol(v: Sextet): (c: char)
    ensures c != Pad && (c as int) < 128
  {
    if v < 26 then ('A' as int + v) as char
    else if v < 52 then ('a' as int + (v - 26)) as char
    else if v < 62 then ('0' as int + (v - 52)) as char
    else if v == 62 then '+'
    else '/'
  }

  /** Whether `c` belongs to the base64 alphabet (padding excluded). */
  predicate IsSymbol(c: char) {
    ('A' <= c <= 'Z') || ('a' <= c <= 'z') || ('0' <= c <= '9') || c == '+' || c == '/'
  }

  /** The six bits a character of the alphabet stands for. */
  function Value(c: char): (v: Sextet)
    requires IsSymbol(c)
    ensures Symbol(v) == c
  {
    if 'A' <= c <= 'Z' then c as int - 'A' as int
    else if 'a' <= c <= 'z' then c as int - 'a' as int + 26
    else if '0' <= c <= '9' then c as int - '0' as int + 52
    else if c == '+' then 62
    else 63
  }

  lemma ValueOfSymbol(v: Sextet)
    ensures IsSymbol(Symbol(v)) && Value(Symbol(v)) == v
  {
  }

  /** One group of four output characters for one to three input bytes. */
  function EncodeGroup(b: seq<byte>): (g: string)
    requires 1 <= |b| <= 3
    ensures |g| == 4
  {
    var b0 := b[0] as int;
    var b1 := if |b| > 1 then b[1] as int else 0;
    var b2 := if |b| > 2 then b[2] as int else 0;
    [Symbol(b0 / 4), Symbol((b0 % 4) * 16 + b1 / 16)]
    + (if |b| > 1 then [Symbol((b1 % 16) * 4 + b2 / 64)] else [Pad])
    + (if |b| > 2 then [Symbol(b2 % 64)] else [Pad])
  }

  /** `base64.b64encode`: each three bytes become four characters, the last group padded. */
  function Encode(b: seq<byte>): (s: string)
    ensures |s| == 4 * ((|b| + 2) / 3)
    decreases |b|
  {
    if |b| == 0 then []
    else if |b| <= 3 then EncodeGroup(b)
    else EncodeGroup(b[..3]) + Encode(b[3..])
  }

  /** A group of four characters that may close a canonical encoding. */
  predicate IsFinalGroup(g: string) {
    && |g| == 4
    && IsSymbol(g[0]) && IsSymbol(g[1])
    && (|| (IsSymbol(g[2]) && IsSymbol(g[3]))
        || (IsSymbol(g[2]) && g[3] == Pad && Value(g[2]) % 4 == 0)
        || (g[2] == Pad && g[3] == Pad && Value(g[1]) % 16 == 0))
  }

  /** A group of four characters without padding. */
  predicate IsFullGroup(g: string) {
    |g| == 4 && IsSymbol(g[0]) && IsSymbol(g[1]) && IsSymbol(g[2]) && IsSymbol(g[3])
  }

  /** The strings `Encode` can produce. */
  predicate IsCanonical(s: string)
    decreases |s|
  {
    if |s| == 0 then true
    else if |s| == 4 then IsFinalGroup(s)
    else |s| > 4 && IsFullGroup(s[..4]) && IsCanonical(s[4..])
  }

  function DecodeGroup(g: string): (b: seq<byte>)
    requires IsFinalGroup(g)
    ensures 1 <= |b| <= 3
  {
    var s0, s1 := Value(g[0]), Value(g[1]);
    var first := [(s0 * 4 + s1 / 16) as byte];
    if g[2] == Pad then first
    else
      var s2 := Value(g[2]);
      var second := [((s1 % 16) * 16 + s2 / 4) as byte];
      if g[3] == Pad then first + second
      else first + second + [((s2 % 4) * 64 + Value(g[3])) as byte]
  }

  /** `base64.b64decode` restricted to canonical input. */
  function Decode(s: string): (b: seq<byte>)
    requires IsCanonical(s)
    decreases |s|
  {
    if |s| == 0 then []
    else if |s| == 4 then DecodeGroup(s)
    else DecodeGroup(s[..4]) + Decode(s[4..])
  }

  /** The first two characters of a group give back its first byte, and carry its second byte's high half. */
  lemma DecodeEncodeHead(b: seq<byte>)
    requires 1 <= |b| <= 3
    ensures var g := EncodeGroup(b);
            var b1 := if |b| > 1 then b[1] as int else 0;
            && IsSymbol(g[0]) && IsSymbol(g[1])
            && Value(g[0]) * 4 + Value(g[1]) / 16 == b[0] as int
            && Value(g[1]) % 16 == b1 / 16
  {
    var g := EncodeGroup(b);
    var b0 := b[0] as int;
    var b1 := if |b| > 1 then b[1] as int else 0;
    var s0, s1 := b0 / 4, (b0 % 4) * 16 + b1 / 16;
    assert g[0] == Symbol(s0) && g[1] == Symbol(s1);
    ValueOfSymbol(s0);
    ValueOfSymbol(s1);
    SplitJoined(b0 % 4, b1 / 16, 16);
  }

  /** A group for two or three bytes: its third character gives back the second byte and carries the third's high bits. */
  lemma DecodeEncodeMiddle(b: seq<byte>)
    requires 2 <= |b| <= 3
    ensures var g := EncodeGroup(b);
            var b2 := if |b| > 2 then b[2] as int else 0;
            && IsSymbol(g[2])
            && Value(EncodeGroup(b)[1]) % 16 * 16 + Value(g[2]) / 4 == b[1] as int
            && Value(g[2]) % 4 == b2 / 64
  {
    var g := EncodeGroup(b);
    var b1 := b[1] as int;
    var b2 := if |b| > 2 then b[2] as int else 0;
    var s2 := (b1 % 16) * 4 + b2 / 64;
    assert g[2] == Symbol(s2);
    ValueOfSymbol(s2);
    SplitJoined(b1 % 16, b2 / 64, 4);
    DecodeEncodeHead(b);
  }

  lemma DecodeEncodeGroup(b: seq<byte>)
    requires 1 <= |b| <= 3
    ensures IsFinalGroup(EncodeGroup(b)) && DecodeGroup(EncodeGroup(b)) == b
  {
    var g := EncodeGroup(b);
    DecodeEncodeHead(b);
    if |b| == 1 {
      assert g[2] == Pad && g[3] == Pad;
      assert DecodeGroup(g) == [b[0]];
    } else {
      DecodeEncodeMiddle(b);
      if |b| == 2 {
        assert g[3] == Pad;
        assert DecodeGroup(g) == [b[0], b[1]];
      } else {
        var s3 := b[2] as int % 64;
        assert g[3] == Symbol(s3);
        ValueOfSymbol(s3);
        assert DecodeGroup(g) == [b[0], b[1], b[2]];
      }
    }
  }

  /** Every encoding is canonical, and decoding it gives back the bytes. */
  lemma {:induction false} DecodeEncode(b: seq<byte>)
    ensures IsCanonical(Encode(b)) && Decode(Encode(b)) == b
    decreases |b|
  {
    if |b| == 0 {
    } else if |b| <= 3 {
      DecodeEncodeGroup(b);
    } else {
      var g, rest := EncodeGroup(b[..3]), Encode(b[3..]);
      var s := Encode(b);
      assert s == g + rest;
      assert s[..4] == g && s[4..] == rest;
      DecodeEncodeGroup(b[..3]);
      assert g[2] != Pad && g[3] != Pad;
      assert IsFullGroup(g);
      DecodeEncode(b[3..]);
      assert IsCanonical(s);
      assert Decode(s) == b[..3] + b[3..];
      assert b[..3] + b[3..] == b;
    }
  }

  /** Splitting a byte assembled from two sextet pieces gives the pieces back. */
  lemma SplitJoined(hi: int, lo: int, k: int)
    requires k == 4 || k == 16 || k == 64
    requires 0 <= hi < 256 / k && 0 <= lo < k
    ensures (hi * k + lo) / k == hi && (hi * k + lo) % k == lo
  {
  }

  lemma EncodeDecodeGroup(g: string)
    requires IsFinalGroup(g)
    ensures EncodeGroup(DecodeGroup(g)) == g
  {
    var b := DecodeGroup(g);
    var e := EncodeGroup(b);
    var s0, s1 := Value(g[0]), Value(g[1]);
    var b0 := b[0] as int;
    SplitJoined(s0, s1 / 16, 4);
    assert b0 / 4 == s0 && b0 % 4 == s1 / 16;
    if g[2] == Pad {
      assert s1 % 16 == 0;
      assert (b0 % 4) * 16 + 0 / 16 == s1;
    } else {
      var s2 := Value(g[2]);
      var b1 := b[1] as int;
      SplitJoined(s1 % 16, s2 / 4, 16);
      assert b1 / 16 == s1 % 16 && b1 % 16 == s2 / 4;
      assert (b0 % 4) * 16 + b1 / 16 == s1;
      if g[3] == Pad {
        assert s2 % 4 == 0;
        assert (b1 % 16) * 4 + 0 / 64 == s2;
      } else {
        var s3 := Value(g[3]);
        var b2 := b[2] as int;
        SplitJoined(s2 % 4, s3, 64);
        assert b2 / 64 == s2 % 4 && b2 % 64 == s3;
        assert (b1 % 16) * 4 + b2 / 64 == s2;
      }
    }
  }

  /** Decoding a canonical string and encoding the result gives back the string. */
  lemma {:induction false} EncodeDecode(s: string)
    requires IsCanonical(s)
    ensures Encode(Decode(s)) == s
    decreases |s|
  {
    if |s| == 0 {
    } else if |s| == 4 {
      EncodeDecodeGroup(s);
    } else {
      var head, rest := DecodeGroup(s[..4]), Decode(s[4..]);
      EncodeDecode(s[4..]);
      EncodeDecodeGroup(s[..4]);
      assert |head| == 3;
      var b := head + rest;
      assert b[..3] == head && b[3..] == rest;
      assert s[..4] + s[4..] == s;
    }
  }

  /** An encoding is plain ASCII text. */
  lemma {:induction false} EncodeIsAscii(b: seq<byte>)
    ensures forall i :: 0 <= i < |Encode(b)| ==> (Encode(b)[i] as int) < 128
    decreases |b|
  {
    if 3 < |b| {
      EncodeIsAscii(b[3..]);
      var g, rest := EncodeGroup(b[..3]), Encode(b[3..]);
      assert Encode(b) == g + rest;
      forall i | 0 <= i < |Encode(b)|
        ensures (Encode(b)[i] as int) < 128
      {
        if i >= 4 {
          assert Encode(b)[i] == rest[i - 4];
        }
      }
    }
  }
}
