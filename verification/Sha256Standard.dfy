/** That the definitions of Sha256s are the standard's: byte order, hexadecimal text and the bit functions. */
module Sha256Standard {
  import opened Prelude
  import opened Sha256s

  // ---------------------------------------------------------------------------
  // Byte order
  // ---------------------------------------------------------------------------

  /** Bytes as a number, the most significant first. */
  function Value(bytes: seq<Byte>): nat {
    if bytes == [] then 0 else 256 * Value(bytes[..|bytes| - 1]) + bytes[|bytes| - 1]
  }

  /** The first k bytes of a length are its leading k digits. */
  lemma {:induction false} LengthPrefix(bits: nat, k: nat)
    requires bits < LENGTH_MODULUS && k <= 8
    ensures Value(LengthBytes(bits)[..k]) == bits / Pow256(8 - k)
  {
    hide LengthBytes, Pow256, Value;
    var b := LengthBytes(bits);
    if k == 0 {
      Pow8();
      ValueNone(b);
    } else {
      LengthPrefix(bits, k - 1);
      PowNext(8 - k);
      ValueMore(b, k);
      LengthByte(bits, k - 1);
      DivideTwice(bits, Pow256(8 - k));
    }
  }

  lemma LengthByte(bits: nat, i: nat)
    requires i < 8
    ensures LengthBytes(bits)[i] == bits / Pow256(7 - i) % 256
  {
    hide Pow256;
  }

  lemma ValueNone(b: seq<Byte>)
    ensures Value(b[..0]) == 0
  {
  }

  lemma ValueMore(b: seq<Byte>, k: nat)
    requires 0 < k <= |b|
    ensures Value(b[..k]) == 256 * Value(b[..k - 1]) + b[k - 1]
  {
    assert b[..k][..k - 1] == b[..k - 1];
  }

  lemma PowNext(n: nat)
    ensures Pow256(n + 1) == 256 * Pow256(n)
  {
  }

  lemma Pow8()
    ensures Pow256(8) == LENGTH_MODULUS
  {
    assert Pow256(2) == 0x1_0000 && Pow256(4) == 0x1_0000 * Pow256(2) && Pow256(6) == 0x1_0000 * Pow256(4);
  }

  lemma DivideTwice(n: nat, p: nat)
    requires p > 0
    ensures n / p == 256 * (n / (256 * p)) + n / p % 256
  {
    var (h, rest) := (n / (256 * p), n % (256 * p));
    assert n == 256 * p * h + rest;
    var (q, r) := (rest / p, rest % p);
    assert rest == p * q + r;
    Regroup(p, h, q);
    Quotient(n, p, 256 * h + q, r);
    Grows(p, 256, q);
  }

  lemma Regroup(p: nat, h: nat, q: nat)
    ensures 256 * p * h + p * q == p * (256 * h + q)
  {
  }

  lemma Grows(d: nat, a: nat, b: nat)
    ensures a <= b ==> d * a <= d * b
    ensures a < b ==> d * a + d <= d * b
  {
    if a < b {
      var k := b - a - 1;
      assert b == a + 1 + k && d * k >= 0;
      assert d * (a + 1 + k) == d * a + d + d * k;
    }
  }

  lemma Quotient(n: nat, d: nat, q: nat, r: nat)
    requires d > 0 && n == d * q + r && r < d
    ensures n / d == q
  {
    var e := n / d;
    assert n == d * e + n % d;
    Grows(d, e, q);
    Grows(d, q, e);
  }

  lemma LengthValue(bits: nat)
    requires bits < LENGTH_MODULUS
    ensures Value(LengthBytes(bits)) == bits
  {
    LengthPrefix(bits, 8);
    assert Pow256(0) == 1;
    hide Pow256, Value;
    assert LengthBytes(bits)[..8] == LengthBytes(bits);
  }

  /** The length field is the bit count, and the bit count is eight times the length up to 2^64 bits. */
  lemma LengthIsCount(n: nat)
    ensures Value(LengthBytes(BitCount(n))) == BitCount(n)
    ensures 8 * n < LENGTH_MODULUS ==> Value(LengthBytes(BitCount(n))) == 8 * n
  {
    LengthValue(BitCount(n));
    hide LengthBytes, Value;
  }

  // Conversions between numbers and words are dear, so each is met once and hidden.

  lemma ByteWord(b: Byte)
    ensures ToWord(b) == ((b as bv8) as Word)
  {
  }

  lemma ByteThere(b: bv8)
    ensures ((b as int) as bv8) == b
  {
  }

  lemma Back0(b: int)
    requires 0 <= b < 32
    ensures ((b as bv8) as int) == b
  {
  }

  lemma Back1(b: int)
    requires 32 <= b < 64
    ensures ((b as bv8) as int) == b
  {
  }

  lemma Back2(b: int)
    requires 64 <= b < 96
    ensures ((b as bv8) as int) == b
  {
  }

  lemma Back3(b: int)
    requires 96 <= b < 128
    ensures ((b as bv8) as int) == b
  {
  }

  lemma Back4(b: int)
    requires 128 <= b < 160
    ensures ((b as bv8) as int) == b
  {
  }

  lemma Back5(b: int)
    requires 160 <= b < 192
    ensures ((b as bv8) as int) == b
  {
  }

  lemma Back6(b: int)
    requires 192 <= b < 224
    ensures ((b as bv8) as int) == b
  {
  }

  lemma Back7(b: int)
    requires 224 <= b < 256
    ensures ((b as bv8) as int) == b
  {
  }

  lemma ByteBack(b: Byte)
    ensures ((b as bv8) as int) == b
  {
    if b < 128 {
      if b < 64 {
        if b < 32 { Back0(b); } else { Back1(b); }
      } else {
        if b < 96 { Back2(b); } else { Back3(b); }
      }
    } else {
      if b < 192 {
        if b < 160 { Back4(b); } else { Back5(b); }
      } else {
        if b < 224 { Back6(b); } else { Back7(b); }
      }
    }
  }

  lemma SmallByte(b: Byte)
    ensures ToWord(b) <= 0xFF
  {
    ByteWord(b);
    Widened(b as bv8);
    hide ToWord;
  }

  lemma Widened(b: bv8)
    ensures (b as Word) <= 0xFF
  {
  }

  function Base256(a: Word, b: Word, c: Word, d: Word): Word {
    ((a * 256 + b) * 256 + c) * 256 + d
  }

  lemma JoinedValue(a: Word, b: Word, c: Word, d: Word)
    requires a <= 0xFF && b <= 0xFF && c <= 0xFF && d <= 0xFF
    ensures Joined(a, b, c, d) == Base256(a, b, c, d)
  {
  }

  lemma PartsOfJoined(a: Word, b: Word, c: Word, d: Word)
    requires a <= 0xFF && b <= 0xFF && c <= 0xFF && d <= 0xFF
    ensures
      var w := Joined(a, b, c, d);
      Part(w, 24) == a && Part(w, 16) == b && Part(w, 8) == c && Part(w, 0) == d
  {
  }

  lemma JoinedParts(w: Word)
    ensures Joined(Part(w, 24), Part(w, 16), Part(w, 8), Part(w, 0)) == w
  {
  }

  /** A word is its four bytes in base 256, the most significant first. */
  lemma WordAtValue(block: seq<Byte>, i: nat)
    requires 4 * i + 3 < |block|
    ensures
      WordAt(block, i) ==
      Base256(ToWord(block[4 * i]), ToWord(block[4 * i + 1]), ToWord(block[4 * i + 2]), ToWord(block[4 * i + 3]))
  {
    hide ToWord, Joined, Base256;
    var (a, b, c, d) := (block[4 * i], block[4 * i + 1], block[4 * i + 2], block[4 * i + 3]);
    SmallByte(a);
    SmallByte(b);
    SmallByte(c);
    SmallByte(d);
    JoinedValue(ToWord(a), ToWord(b), ToWord(c), ToWord(d));
  }

  lemma PartSmall(w: Word, n: bv6)
    requires n <= 24
    ensures Part(w, n) <= 0xFF
  {
  }

  lemma Narrow(w: Word)
    requires w <= 0xFF
    ensures (((w & 0xFF) as bv8) as Word) == w
  {
  }

  lemma WordOfByte(w: Word)
    requires w <= 0xFF
    ensures ToWord(ByteOf(w)) == w
  {
    ByteWord(ByteOf(w));
    ByteThere((w & 0xFF) as bv8);
    Narrow(w);
    hide ToWord;
  }

  lemma Narrowed(b: bv8)
    ensures (((b as Word) & 0xFF) as bv8) == b
  {
  }

  lemma ByteOfWord(b: Byte)
    ensures ByteOf(ToWord(b)) == b
  {
    ByteWord(b);
    ByteBack(b);
    Narrowed(b as bv8);
    hide ToWord;
  }

  /** Reading a word's bytes gives the word back. */
  lemma WordOfBytes(w: Word)
    ensures WordAt(WordBytes(w), 0) == w
  {
    hide ByteOf, ToWord, Part, Joined;
    PartSmall(w, 24);
    PartSmall(w, 16);
    PartSmall(w, 8);
    PartSmall(w, 0);
    WordOfByte(Part(w, 24));
    WordOfByte(Part(w, 16));
    WordOfByte(Part(w, 8));
    WordOfByte(Part(w, 0));
    JoinedParts(w);
  }

  /** And a word's bytes are those it was read from. */
  lemma BytesOfWord(block: seq<Byte>, i: nat)
    requires 4 * i + 3 < |block|
    ensures WordBytes(WordAt(block, i)) == block[4 * i..4 * i + 4]
  {
    hide ByteOf, ToWord, Part, Joined;
    var (a, b, c, d) := (block[4 * i], block[4 * i + 1], block[4 * i + 2], block[4 * i + 3]);
    SmallByte(a);
    SmallByte(b);
    SmallByte(c);
    SmallByte(d);
    PartsOfJoined(ToWord(a), ToWord(b), ToWord(c), ToWord(d));
    ByteOfWord(a);
    ByteOfWord(b);
    ByteOfWord(c);
    ByteOfWord(d);
  }

  /** The digest's bytes are the state's words in their order. */
  lemma {:induction false} WordInDigest(ws: seq<Word>, k: nat)
    requires k < |ws|
    ensures |AllBytes(ws)| == 4 * |ws| && AllBytes(ws)[4 * k..4 * k + 4] == WordBytes(ws[k])
  {
    hide WordBytes;
    var last := |ws| - 1;
    DigestLength(ws, |ws|);
    DigestLength(ws[..last], last);
    var (front, whole) := (AllBytes(ws[..last]), AllBytes(ws));
    assert whole == front + WordBytes(ws[last]);
    hide AllBytes;
    if k < last {
      WordInDigest(ws[..last], k);
      assert whole[4 * k..4 * k + 4] == front[4 * k..4 * k + 4];
    } else {
      assert whole[4 * k..4 * k + 4] == WordBytes(ws[last]);
    }
  }

  // ---------------------------------------------------------------------------
  // Hexadecimal text
  // ---------------------------------------------------------------------------

  function DigitValue(c: char): int {
    if '0' <= c <= '9' then c as int - '0' as int else c as int - 'a' as int + 10
  }

  /** Pairs of digits, the higher first. */
  function HexValue(s: string): seq<int> {
    seq(|s| / 2, i requires 0 <= i < |s| / 2 => 16 * DigitValue(s[2 * i]) + DigitValue(s[2 * i + 1]))
  }

  predicate LowerHex(c: char) {
    '0' <= c <= '9' || 'a' <= c <= 'f'
  }

  lemma {:induction false} HexAt(bytes: seq<Byte>, i: nat)
    requires i < |bytes|
    ensures Hex(bytes)[2 * i] == HexDigit(bytes[i] / 16) && Hex(bytes)[2 * i + 1] == HexDigit(bytes[i] % 16)
  {
    hide HexDigit;
    if i < |bytes| - 1 {
      HexAt(bytes[..|bytes| - 1], i);
    }
  }

  /** The text is lower-case hexadecimal, and read in base 16 it is the bytes. */
  lemma {:induction false} HexReadsBack(bytes: seq<Byte>)
    ensures HexValue(Hex(bytes)) == bytes && forall k | 0 <= k < |Hex(bytes)| :: LowerHex(Hex(bytes)[k])
  {
    hide Hex, HexDigit, DigitValue, LowerHex;
    forall i | 0 <= i < |bytes|
      ensures 16 * DigitValue(Hex(bytes)[2 * i]) + DigitValue(Hex(bytes)[2 * i + 1]) == bytes[i]
      ensures LowerHex(Hex(bytes)[2 * i]) && LowerHex(Hex(bytes)[2 * i + 1])
    {
      HexAt(bytes, i);
      DigitsOf(bytes[i] / 16);
      DigitsOf(bytes[i] % 16);
    }
    forall k | 0 <= k < |Hex(bytes)| ensures LowerHex(Hex(bytes)[k]) {
      assert k == 2 * (k / 2) || k == 2 * (k / 2) + 1;
    }
  }

  lemma DigitsOf(n: nat)
    requires n < 16
    ensures DigitValue(HexDigit(n)) == n && LowerHex(HexDigit(n))
  {
  }

  // ---------------------------------------------------------------------------
  // The bit functions
  // ---------------------------------------------------------------------------

  /** Ch takes y's bits where x has a one, and z's elsewhere. */
  lemma ChChooses(x: Word, y: Word, z: Word)
    ensures Ch(x, y, z) & x == y & x
  {
  }

  lemma ChElse(x: Word, y: Word, z: Word)
    ensures Ch(x, y, z) & !x == z & !x
  {
  }

  /** A bit of Maj is what two of the three have. */
  lemma MajOfTwo(x: Word, y: Word, z: Word)
    ensures Maj(x, y, z) == (x & y) | (x & z) | (y & z)
  {
  }

  /** Rotr turns the word right, by each of the amounts of section 4.1.2. */
  lemma RotrTurns(x: Word)
    ensures Rotr(x, 2) == x.RotateRight(2) && Rotr(x, 13) == x.RotateRight(13) && Rotr(x, 22) == x.RotateRight(22)
    ensures Rotr(x, 6) == x.RotateRight(6) && Rotr(x, 11) == x.RotateRight(11) && Rotr(x, 25) == x.RotateRight(25)
    ensures Rotr(x, 7) == x.RotateRight(7) && Rotr(x, 18) == x.RotateRight(18)
    ensures Rotr(x, 17) == x.RotateRight(17) && Rotr(x, 19) == x.RotateRight(19)
  {
  }
}
