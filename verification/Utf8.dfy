/** UTF-8 as RFC 3629 defines it, the two recognisers, and the sanitiser. */
module Utf8s {
  import opened Prelude

  // ---------------------------------------------------------------------------
  // RFC 3629
  // ---------------------------------------------------------------------------

  /** A Unicode scalar value: any code point but a surrogate. */
  type Scalar = c: int | 0 <= c < 0xD800 || 0xE000 <= c <= 0x10FFFF witness 0

  /** Section 3. */
  function EncodeOne(c: Scalar): (r: seq<Byte>)
    ensures 1 <= |r| <= 4
  {
    var (x, y, z) := (c / 64, c / 64 / 64, c / 64 / 64 / 64);
    if c < 0x80 then [c]
    else if c < 0x800 then [0xC0 + x, 0x80 + c % 64]
    else if c < 0x10000 then [0xE0 + y, 0x80 + x % 64, 0x80 + c % 64]
    else [0xF0 + z, 0x80 + y % 64, 0x80 + x % 64, 0x80 + c % 64]
  }

  function Encode(cs: seq<Scalar>): seq<Byte> {
    if cs == [] then [] else EncodeOne(cs[0]) + Encode(cs[1..])
  }

  predicate IsTail(b: Byte) {
    0x80 <= b <= 0xBF
  }

  /** Section 4: the length of the UTF8-char at the front, or 0. */
  function CharLength(s: seq<Byte>): (n: nat)
    ensures n <= |s| && n <= 4
  {
    if |s| >= 1 && s[0] <= 0x7F then 1
    else if |s| >= 2 && 0xC2 <= s[0] <= 0xDF && IsTail(s[1]) then 2
    else if |s| >= 3 && IsTail(s[2]) &&
      ((s[0] == 0xE0 && 0xA0 <= s[1] <= 0xBF) || (0xE1 <= s[0] <= 0xEC && IsTail(s[1])) ||
       (s[0] == 0xED && 0x80 <= s[1] <= 0x9F) || (0xEE <= s[0] <= 0xEF && IsTail(s[1]))) then 3
    else if |s| >= 4 && IsTail(s[2]) && IsTail(s[3]) &&
      ((s[0] == 0xF0 && 0x90 <= s[1] <= 0xBF) || (0xF1 <= s[0] <= 0xF3 && IsTail(s[1])) ||
       (s[0] == 0xF4 && 0x80 <= s[1] <= 0x8F)) then 4
    else 0
  }

  /** Section 4: a UTF8-octets string. */
  predicate Valid(s: seq<Byte>) {
    s == [] || (CharLength(s) > 0 && Valid(s[CharLength(s)..]))
  }

  function Push(high: nat, low: nat): (c: nat)
    requires low < 64
    ensures c / 64 == high && c % 64 == low
  {
    high * 64 + low
  }

  function DecodeOne(s: seq<Byte>): (c: Scalar)
    requires CharLength(s) > 0
    ensures EncodeOne(c) == s[..CharLength(s)]
  {
    var (n, first) := (CharLength(s), s[0] as int);
    if n == 1 then first
    else if n == 2 then Push(first - 0xC0, s[1] - 0x80)
    else if n == 3 then Push(Push(first - 0xE0, s[1] - 0x80), s[2] - 0x80)
    else Push(Push(Push(first - 0xF0, s[1] - 0x80), s[2] - 0x80), s[3] - 0x80)
  }

  function Decode(s: seq<Byte>): Option<seq<Scalar>> {
    if s == [] then Some([])
    else if CharLength(s) == 0 then None
    else
      match Decode(s[CharLength(s)..])
      case Some(cs) => Some([DecodeOne(s)] + cs)
      case None => None
  }

  lemma EncodedFront(c: Scalar, rest: seq<Byte>)
    ensures CharLength(EncodeOne(c) + rest) == |EncodeOne(c)|
    ensures DecodeOne(EncodeOne(c) + rest) == c
  {
    var (n, s) := (|EncodeOne(c)|, EncodeOne(c) + rest);
    assert CharLength(s) == n;
    assert s[..n] == EncodeOne(c);
    EncodeOnce(c, DecodeOne(s));
  }

  lemma EncodeOnce(c: Scalar, d: Scalar)
    requires EncodeOne(c) == EncodeOne(d)
    ensures c == d
  {
    assert |EncodeOne(c)| == |EncodeOne(d)|;
    assert forall i | 0 <= i < |EncodeOne(c)| :: EncodeOne(c)[i] == EncodeOne(d)[i];
  }

  /** Decoding undoes encoding, and what it accepts it undoes. */
  lemma {:induction false} DecodeEncode(cs: seq<Scalar>)
    ensures Decode(Encode(cs)) == Some(cs)
  {
    if cs != [] {
      var (front, rest) := (EncodeOne(cs[0]), Encode(cs[1..]));
      EncodedFront(cs[0], rest);
      assert (front + rest)[|front|..] == rest;
      DecodeEncode(cs[1..]);
      assert [cs[0]] + cs[1..] == cs;
    }
  }

  lemma {:induction false} EncodeDecode(s: seq<Byte>)
    ensures Decode(s).Some? <==> Valid(s)
    ensures Decode(s).Some? ==> Encode(Decode(s).value) == s
  {
    hide CharLength, EncodeOne;
    var n := CharLength(s);
    if s != [] && n > 0 {
      EncodeDecode(s[n..]);
      assert s[..n] + s[n..] == s;
      if Decode(s).Some? {
        var rest := Decode(s[n..]).value;
        assert Decode(s).value == [DecodeOne(s)] + rest;
        assert ([DecodeOne(s)] + rest)[1..] == rest;
      }
    }
  }

  /** The grammar accepts exactly the encodings of sequences of scalar values. */
  lemma ValidIsEncoded(s: seq<Byte>)
    ensures Valid(s) <==> exists cs :: Encode(cs) == s
  {
    EncodeDecode(s);
    forall cs | Encode(cs) == s ensures Valid(s) {
      DecodeEncode(cs);
    }
  }

  // ---------------------------------------------------------------------------
  // The two recognisers
  // ---------------------------------------------------------------------------

  /** The documents' recogniser, sequence by sequence. */
  method SeqLen(s: seq<Byte>, i: nat) returns (n: nat)
    ensures n == if i < |s| then CharLength(s[i..]) else 0
  {
    if i >= |s| {
      return 0;
    }
    var c := s[i];
    if c < 0x80 {
      return 1;
    }
    var len, lo, hi := 0, 0x80, 0xBF;
    if 0xC2 <= c <= 0xDF {
      len := 2;
    } else if c == 0xE0 {
      len, lo := 3, 0xA0;
    } else if (0xE1 <= c <= 0xEC) || c == 0xEE || c == 0xEF {
      len := 3;
    } else if c == 0xED {
      len, hi := 3, 0x9F;
    } else if c == 0xF0 {
      len, lo := 4, 0x90;
    } else if 0xF1 <= c <= 0xF3 {
      len := 4;
    } else if c == 0xF4 {
      len, hi := 4, 0x8F;
    } else {
      return 0;
    }
    if i + len > |s| || s[i + 1] < lo || s[i + 1] > hi {
      return 0;
    }
    for k := 2 to len
      invariant forall j | i + 2 <= j < i + k :: IsTail(s[j])
    {
      if s[i + k] < 0x80 || s[i + k] > 0xBF {
        assert !IsTail(s[i..][k]);
        return 0;
      }
    }
    return len;
  }

  method Utf8Valid(s: seq<Byte>) returns (ok: bool)
    ensures ok <==> Valid(s)
  {
    var i := 0;
    while i < |s|
      invariant i <= |s| && (Valid(s) <==> Valid(s[i..]))
    {
      var len := SeqLen(s, i);
      if len == 0 {
        return false;
      }
      assert s[i..][len..] == s[i + len..];
      i := i + len;
    }
    return true;
  }

  /** Discovery's recogniser, written apart from the other one. */
  method IsValidUtf8(s: seq<Byte>) returns (ok: bool)
    ensures ok <==> Valid(s)
  {
    var p := 0;
    while p < |s|
      invariant p <= |s| && (Valid(s) <==> Valid(s[p..]))
    {
      var c := s[p];
      if c < 0x80 {
        assert s[p..][1..] == s[p + 1..];
        p := p + 1;
        continue;
      }
      var n, lo, hi := 0, 0x80, 0xBF;
      if 0xC2 <= c <= 0xDF {
        n := 1;
      } else if c == 0xE0 {
        n, lo := 2, 0xA0;
      } else if c == 0xED {
        n, hi := 2, 0x9F;
      } else if 0xE1 <= c <= 0xEF {
        n := 2;
      } else if c == 0xF0 {
        n, lo := 3, 0x90;
      } else if c == 0xF4 {
        n, hi := 3, 0x8F;
      } else if 0xF1 <= c <= 0xF3 {
        n := 3;
      } else {
        return false;
      }
      if |s| - p <= n || s[p + 1] < lo || s[p + 1] > hi {
        return false;
      }
      for i := 2 to n + 1
        invariant forall j | p + 2 <= j < p + i :: IsTail(s[j])
      {
        if s[p + i] < 0x80 || s[p + i] > 0xBF {
          assert !IsTail(s[p..][i]);
          return false;
        }
      }
      assert CharLength(s[p..]) == n + 1 && s[p..][n + 1..] == s[p + n + 1..];
      p := p + n + 1;
    }
    return true;
  }

  // ---------------------------------------------------------------------------
  // Boundaries
  // ---------------------------------------------------------------------------

  lemma FrontKept(a: seq<Byte>, b: seq<Byte>)
    requires CharLength(a) > 0
    ensures CharLength(a + b) == CharLength(a)
  {
  }

  lemma {:induction false} ValidSum(a: seq<Byte>, b: seq<Byte>)
    requires Valid(a)
    ensures Valid(a + b) <==> Valid(b)
  {
    if a == [] {
      assert a + b == b;
    } else {
      var n := CharLength(a);
      FrontKept(a, b);
      assert (a + b)[n..] == a[n..] + b;
      ValidSum(a[n..], b);
    }
  }

  lemma CharInside(s: seq<Byte>, k: nat)
    requires 0 < k < CharLength(s)
    ensures s[k] >= 0x80
  {
  }

  lemma ValidChar(s: seq<Byte>)
    requires CharLength(s) > 0
    ensures Valid(s[..CharLength(s)])
  {
    var c := s[..CharLength(s)];
    assert CharLength(c) == |c| && c[|c|..] == [];
  }

  lemma ValidRest(s: seq<Byte>)
    requires Valid(s) && s != []
    ensures CharLength(s) > 0 && Valid(s[CharLength(s)..])
  {
    hide CharLength;
  }

  /** An ASCII byte of a valid string is a character of its own. */
  lemma {:induction false} AsciiStandsAlone(s: seq<Byte>, i: nat)
    requires Valid(s) && i < |s| && s[i] < 0x80
    ensures Valid(s[..i]) && Valid(s[i..])
  {
    hide CharLength;
    if i == 0 {
      assert s[..0] == [] && s[0..] == s;
    } else {
      var n := CharLength(s);
      ValidRest(s);
      ValidChar(s);
      hide Valid;
      if i < n { CharInside(s, i); }
      var t := s[n..];
      AsciiStandsAlone(t, i - n);
      ValidSum(s[..n], t[..i - n]);
      assert s[..n] + t[..i - n] == s[..i];
      assert t[i - n..] == s[i..];
    }
  }

  ghost predicate Ascii(s: seq<Byte>) {
    forall b | b in s :: b < 0x80
  }

  lemma {:induction false} AsciiValid(s: seq<Byte>)
    requires Ascii(s)
    ensures Valid(s)
  {
    if s != [] {
      assert s[0] in s && forall b | b in s[1..] :: b in s;
      AsciiValid(s[1..]);
    }
  }

  lemma AfterAscii(s: seq<Byte>, i: nat)
    requires Valid(s) && 0 < i <= |s| && s[i - 1] < 0x80
    ensures Valid(s[..i]) && Valid(s[i..])
  {
    hide Valid, CharLength;
    AsciiStandsAlone(s, i - 1);
    AsciiValid([s[i - 1]]);
    assert s[i - 1..] == [s[i - 1]] + s[i..];
    ValidSum([s[i - 1]], s[i..]);
    assert s[..i] == s[..i - 1] + [s[i - 1]];
    ValidSum(s[..i - 1], [s[i - 1]]);
  }

  // ---------------------------------------------------------------------------
  // Sanitising
  // ---------------------------------------------------------------------------

  /** U+FFFD. */
  const REPLACEMENT: seq<Byte> := [0xEF, 0xBF, 0xBD]

  function Sanitized(s: seq<Byte>): seq<Byte> {
    if s == [] then []
    else if CharLength(s) == 0 then REPLACEMENT + Sanitized(s[1..])
    else s[..CharLength(s)] + Sanitized(s[CharLength(s)..])
  }

  lemma SanitizedStep(s: seq<Byte>, i: nat)
    requires i < |s|
    ensures
      var n := CharLength(s[i..]);
      i + n <= |s| &&
      Sanitized(s[i..]) == if n == 0 then REPLACEMENT + Sanitized(s[i + 1..]) else s[i..i + n] + Sanitized(s[i + n..])
  {
    hide CharLength;
    var n := CharLength(s[i..]);
    assert s[i..][1..] == s[i + 1..] && s[i..][n..] == s[i + n..] && s[i..][..n] == s[i..i + n];
  }

  lemma SumAssoc(a: seq<Byte>, b: seq<Byte>, c: seq<Byte>)
    ensures a + (b + c) == (a + b) + c
  {
  }

  method Utf8Sanitize(s: seq<Byte>) returns (out: seq<Byte>)
    ensures out == Sanitized(s)
  {
    hide CharLength, Sanitized, Valid;
    var ok := Utf8Valid(s);
    if ok {
      SanitizedValid(s);
      return s;
    }
    out := [];
    var i := 0;
    assert s[0..] == s && [] + Sanitized(s) == Sanitized(s);
    while i < |s|
      invariant i <= |s| && out + Sanitized(s[i..]) == Sanitized(s)
    {
      var len := SeqLen(s, i);
      SanitizedStep(s, i);
      if len == 0 {
        SumAssoc(out, REPLACEMENT, Sanitized(s[i + 1..]));
        out := out + REPLACEMENT;
        i := i + 1;
        continue;
      }
      SumAssoc(out, s[i..i + len], Sanitized(s[i + len..]));
      out := out + s[i..i + len];
      i := i + len;
    }
    SanitizedEmpty();
    assert s[i..] == [] && out + [] == out;
  }

  lemma SanitizedEmpty()
    ensures Sanitized([]) == []
  {
  }

  lemma {:induction false} SanitizedValid(s: seq<Byte>)
    ensures Valid(Sanitized(s))
    ensures Valid(s) ==> Sanitized(s) == s
    decreases |s|
  {
    if s != [] {
      var n := CharLength(s);
      var front := if n == 0 then REPLACEMENT else s[..n];
      var rest := s[if n == 0 then 1 else n..];
      SanitizedValid(rest);
      assert CharLength(front) == |front| && front[|front|..] == [];
      ValidSum(front, Sanitized(rest));
    }
  }

  /** The output is always valid; a valid input is left alone, so sanitising twice changes nothing. */
  lemma SanitizedOnce(s: seq<Byte>)
    ensures Valid(Sanitized(s)) && (Sanitized(s) == s <==> Valid(s)) && Sanitized(Sanitized(s)) == Sanitized(s)
  {
    SanitizedValid(s);
    SanitizedValid(Sanitized(s));
  }
}
