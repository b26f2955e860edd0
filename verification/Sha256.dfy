/** SHA-256 as FIPS 180-4 defines it, and the streaming hasher proved against it. The length counter
    is 64 bits wide and wraps; the standard's messages are those it does not wrap for. */
module Sha256s {

  import opened Prelude

  type Word = bv32

  // ---------------------------------------------------------------------------
  // FIPS 180-4
  // ---------------------------------------------------------------------------

  /** Section 3.2. */
  function Rotr(x: Word, n: bv6): Word
    requires n <= 32
  {
    (x >> n) | (x << (32 - n))
  }

  /** Section 4.1.2. */
  function Ch(x: Word, y: Word, z: Word): Word { (x & y) ^ (!x & z) }
  function Maj(x: Word, y: Word, z: Word): Word { (x & y) ^ (x & z) ^ (y & z) }
  function Sum0(x: Word): Word { Rotr(x, 2) ^ Rotr(x, 13) ^ Rotr(x, 22) }
  function Sum1(x: Word): Word { Rotr(x, 6) ^ Rotr(x, 11) ^ Rotr(x, 25) }
  function Sigma0(x: Word): Word { Rotr(x, 7) ^ Rotr(x, 18) ^ (x >> 3) }
  function Sigma1(x: Word): Word { Rotr(x, 17) ^ Rotr(x, 19) ^ (x >> 10) }

  /** Section 4.2.2. */
  const K: seq<Word> :=
    [0x428a2f98, 0x71374491, 0xb5c0fbcf, 0xe9b5dba5, 0x3956c25b, 0x59f111f1, 0x923f82a4, 0xab1c5ed5] +
    [0xd807aa98, 0x12835b01, 0x243185be, 0x550c7dc3, 0x72be5d74, 0x80deb1fe, 0x9bdc06a7, 0xc19bf174] +
    [0xe49b69c1, 0xefbe4786, 0x0fc19dc6, 0x240ca1cc, 0x2de92c6f, 0x4a7484aa, 0x5cb0a9dc, 0x76f988da] +
    [0x983e5152, 0xa831c66d, 0xb00327c8, 0xbf597fc7, 0xc6e00bf3, 0xd5a79147, 0x06ca6351, 0x14292967] +
    [0x27b70a85, 0x2e1b2138, 0x4d2c6dfc, 0x53380d13, 0x650a7354, 0x766a0abb, 0x81c2c92e, 0x92722c85] +
    [0xa2bfe8a1, 0xa81a664b, 0xc24b8b70, 0xc76c51a3, 0xd192e819, 0xd6990624, 0xf40e3585, 0x106aa070] +
    [0x19a4c116, 0x1e376c08, 0x2748774c, 0x34b0bcb5, 0x391c0cb3, 0x4ed8aa4a, 0x5b9cca4f, 0x682e6ff3] +
    [0x748f82ee, 0x78a5636f, 0x84c87814, 0x8cc70208, 0x90befffa, 0xa4506ceb, 0xbef9a3f7, 0xc67178f2]

  /** Section 5.3.3. */
  const H0: seq<Word> := [
    0x6a09e667, 0xbb67ae85, 0x3c6ef372, 0xa54ff53a, 0x510e527f, 0x9b05688c, 0x1f83d9ab, 0x5be0cd19
  ]

  const BLOCK := 64
  const LENGTH_MODULUS := 0x1_0000_0000_0000_0000

  function ToWord(b: Byte): Word {
    b as Word
  }

  function Joined(a: Word, b: Word, c: Word, d: Word): Word {
    (a << 24) | (b << 16) | (c << 8) | d
  }

  function WordAt(block: seq<Byte>, i: nat): Word
    requires 4 * i + 3 < |block|
  {
    Joined(ToWord(block[4 * i]), ToWord(block[4 * i + 1]), ToWord(block[4 * i + 2]), ToWord(block[4 * i + 3]))
  }

  function NextWord(a: Word, b: Word, c: Word, d: Word): Word {
    a + Sigma0(b) + c + Sigma1(d)
  }

  /** The message schedule (section 6.2.2, step 1). */
  function Schedule(block: seq<Byte>, t: nat): Word
    requires |block| == BLOCK
  {
    if t < 16 then WordAt(block, t)
    else
      NextWord(Schedule(block, t - 16), Schedule(block, t - 15), Schedule(block, t - 7), Schedule(block, t - 2))
  }

  datatype Vars = Vars(a: Word, b: Word, c: Word, d: Word, e: Word, f: Word, g: Word, h: Word)

  /** One turn of section 6.2.2, step 3. */
  function Turn(v: Vars, k: Word, w: Word): Vars {
    var t1 := v.h + Sum1(v.e) + Ch(v.e, v.f, v.g) + k + w;
    var t2 := Sum0(v.a) + Maj(v.a, v.b, v.c);
    Vars(t1 + t2, v.a, v.b, v.c, v.d + t1, v.e, v.f, v.g)
  }

  function Turns(v: Vars, block: seq<Byte>, t: nat): Vars
    requires |block| == BLOCK && t <= 64
  {
    if t == 0 then v else Turn(Turns(v, block, t - 1), K[t - 1], Schedule(block, t - 1))
  }

  function Compressed(h: seq<Word>, block: seq<Byte>): (r: seq<Word>)
    requires |h| == 8 && |block| == BLOCK
    ensures |r| == 8
  {
    Added(h, Turns(Vars(h[0], h[1], h[2], h[3], h[4], h[5], h[6], h[7]), block, 64))
  }

  function Plus(x: Word, y: Word): Word { x + y }

  function Added(h: seq<Word>, v: Vars): (r: seq<Word>)
    requires |h| == 8
    ensures |r| == 8
  {
    [Plus(h[0], v.a), Plus(h[1], v.b), Plus(h[2], v.c), Plus(h[3], v.d),
     Plus(h[4], v.e), Plus(h[5], v.f), Plus(h[6], v.g), Plus(h[7], v.h)]
  }

  function HashBlocks(bytes: seq<Byte>): (r: seq<Word>)
    requires |bytes| % BLOCK == 0
    ensures |r| == 8
  {
    if bytes == [] then H0
    else Compressed(HashBlocks(bytes[..|bytes| - BLOCK]), bytes[|bytes| - BLOCK..])
  }

  function Zeros(n: nat): (r: seq<Byte>)
    ensures |r| == n
  {
    seq(n, i => 0)
  }

  function Pow256(n: nat): (p: nat)
    ensures p > 0
  {
    if n == 0 then 1 else 256 * Pow256(n - 1)
  }

  /** A length in bits as eight bytes, the most significant first. */
  function LengthBytes(bits: nat): (r: seq<Byte>)
    ensures |r| == 8
  {
    seq(8, i requires 0 <= i < 8 => (bits / Pow256(7 - i)) % 256)
  }

  /** The length in bits, in the 64-bit counter. */
  function BitCount(n: nat): nat {
    8 * n % LENGTH_MODULUS
  }

  /** Section 5.1.1: a one bit, the fewest zeros that leave room for the length, and the length. */
  function Padded(m: seq<Byte>): seq<Byte> {
    m + [0x80] + Zeros(ZeroCount(|m|)) + LengthBytes(BitCount(|m|))
  }

  /** The least k with n + 1 + k = 56 (mod 64), all in bytes. */
  function ZeroCount(n: nat): (k: nat)
    ensures k < BLOCK && (n + 1 + k + 8) % BLOCK == 0
  {
    (119 - n % BLOCK) % BLOCK
  }

  function Part(w: Word, n: bv6): Word
    requires n <= 24
  {
    (w >> n) & 0xFF
  }

  /** The low byte. */
  function ByteOf(w: Word): Byte {
    ((w & 0xFF) as bv8) as int
  }

  function WordBytes(w: Word): seq<Byte> {
    [ByteOf(Part(w, 24)), ByteOf(Part(w, 16)), ByteOf(Part(w, 8)), ByteOf(Part(w, 0))]
  }

  function AllBytes(ws: seq<Word>): seq<Byte> {
    if ws == [] then [] else AllBytes(ws[..|ws| - 1]) + WordBytes(ws[|ws| - 1])
  }

  lemma PaddedWhole(m: seq<Byte>)
    ensures |Padded(m)| % BLOCK == 0
  {
  }

  lemma {:induction false} DigestLength(ws: seq<Word>, n: nat)
    requires |ws| == n
    ensures |AllBytes(ws)| == 4 * n
  {
    if n > 0 {
      DigestLength(ws[..n - 1], n - 1);
    }
  }

  function Digest(m: seq<Byte>): (r: seq<Byte>)
    ensures |r| == 32
  {
    PaddedWhole(m);
    DigestLength(HashBlocks(Padded(m)), 8);
    AllBytes(HashBlocks(Padded(m)))
  }

  // ---------------------------------------------------------------------------
  // The streaming hasher
  // ---------------------------------------------------------------------------

  /** The whole blocks of a message, and what is left over. */
  function Whole(m: seq<Byte>): (r: seq<Byte>)
    ensures |r| % BLOCK == 0
  {
    m[..|m| - |m| % BLOCK]
  }

  function Tail(m: seq<Byte>): (r: seq<Byte>)
    ensures |r| == |m| % BLOCK && Whole(m) + r == m
  {
    m[|m| - |m| % BLOCK..]
  }

  lemma FillTail(m: seq<Byte>, chunk: seq<Byte>)
    requires |m| % BLOCK + |chunk| < BLOCK
    ensures Whole(m + chunk) == Whole(m) && Tail(m + chunk) == Tail(m) + chunk
  {
    TailSum(|m|, |chunk|);
  }

  lemma TailSum(n: nat, k: nat)
    requires n % BLOCK + k < BLOCK
    ensures (n + k) % BLOCK == n % BLOCK + k
  {
  }

  lemma FillBlock(m: seq<Byte>, chunk: seq<Byte>)
    requires |m| % BLOCK + |chunk| == BLOCK
    ensures Whole(m + chunk) == Whole(m) + (Tail(m) + chunk) && Tail(m + chunk) == []
    ensures HashBlocks(Whole(m + chunk)) == Compressed(HashBlocks(Whole(m)), Tail(m) + chunk)
  {
    var (a, b) := (Whole(m), Tail(m) + chunk);
    assert (|m| + |chunk|) % BLOCK == 0;
    assert Whole(m + chunk) == m + chunk == a + b;
    AppendBlock(a, b);
  }

  lemma AppendBlock(a: seq<Byte>, b: seq<Byte>)
    requires |a| % BLOCK == 0 && |b| == BLOCK
    ensures |a + b| % BLOCK == 0 && HashBlocks(a + b) == Compressed(HashBlocks(a), b)
  {
    assert (a + b)[..|a + b| - BLOCK] == a && (a + b)[|a + b| - BLOCK..] == b;
  }

  method ScheduleInto(block: array<Byte>) returns (w: array<Word>)
    requires block.Length == BLOCK
    ensures fresh(w) && w.Length == 64
    ensures forall t | 0 <= t < 64 :: w[t] == Schedule(block[..], t)
  {
    hide NextWord, WordAt;
    w := new Word[64];
    for i := 0 to 16
      invariant forall t | 0 <= t < i :: w[t] == Schedule(block[..], t)
    {
      w[i] := WordAt(block[..], i);
    }
    for i := 16 to 64
      invariant forall t | 0 <= t < i :: w[t] == Schedule(block[..], t)
    {
      w[i] := NextWord(w[i - 16], w[i - 15], w[i - 7], w[i - 2]);
    }
  }

  class Sha256 {
    const state: array<Word>
    const block: array<Byte>
    var bits: nat
    var used: nat
    ghost var message: seq<Byte>   // everything hashed since the last reset

    /** The state has taken in the whole blocks of the message, and the buffer holds the rest. */
    ghost predicate Represents()
      reads this, state, block
    {
      && state.Length == 8 && block.Length == BLOCK
      && state[..] == HashBlocks(Whole(message))
      && used == |message| % BLOCK && block[..used] == Tail(message)
    }

    ghost predicate Valid()
      reads this, state, block
    {
      Represents() && bits == BitCount(|message|)
    }

    constructor ()
      ensures Valid() && message == [] && fresh(state) && fresh(block)
    {
      state, block := new Word[8], new Byte[BLOCK];
      new;
      Reset();
    }

    method Reset()
      requires state.Length == 8 && block.Length == BLOCK
      modifies this, state
      ensures Valid() && message == []
    {
      for i := 0 to 8
        invariant forall j | 0 <= j < i :: state[j] == H0[j]
      {
        state[i] := H0[i];
      }
      bits, used, message := 0, 0, [];
      assert state[..] == H0;
      assert block[..0] == [];
    }

    method Compress()
      requires state.Length == 8 && block.Length == BLOCK
      modifies state
      ensures state[..] == Compressed(old(state[..]), block[..])
    {
      hide Turn, Schedule;
      var w := ScheduleInto(block);
      var v := Vars(state[0], state[1], state[2], state[3], state[4], state[5], state[6], state[7]);
      ghost var start := v;
      for i := 0 to 64
        invariant v == Turns(start, block[..], i)
      {
        v := Turn(v, K[i], w[i]);
      }
      hide Added;
      AddIn(v);
    }

    method AddIn(v: Vars)
      requires state.Length == 8
      modifies state
      ensures state[..] == Added(old(state[..]), v)
    {
      hide Plus;
      state[0], state[1], state[2], state[3] :=
        Plus(state[0], v.a), Plus(state[1], v.b), Plus(state[2], v.c), Plus(state[3], v.d);
      state[4], state[5], state[6], state[7] :=
        Plus(state[4], v.e), Plus(state[5], v.f), Plus(state[6], v.g), Plus(state[7], v.h);
    }

    method Update(data: seq<Byte>)
      requires Valid()
      modifies this, state, block
      ensures Valid() && message == old(message) + data
    {
      bits := (bits + |data| * 8) % LENGTH_MODULUS;
      CountBits(|message|, |data|);
      hide BitCount;
      ghost var total := |message| + |data|;
      assert used < BLOCK;
      hide Represents, Digest;
      var done := 0;
      while done < |data|
        invariant done <= |data| && Represents() && used < BLOCK && message == old(message) + data[..done]
        invariant bits == BitCount(total)
      {
        var take := if |data| - done < BLOCK - used then |data| - done else BLOCK - used;
        NextSlice(old(message), data, done, take);
        Fill(data[done..done + take]);
        done := done + take;
      }
      assert data[..|data|] == data;
    }

    method Copy(chunk: seq<Byte>)
      requires block.Length == BLOCK && used + |chunk| <= BLOCK
      modifies `used, block
      ensures used == old(used) + |chunk| && block[..used] == old(block[..used]) + chunk
    {
      for i := 0 to |chunk|
        invariant used == old(used) && block[..used + i] == old(block[..used]) + chunk[..i]
      {
        block[used + i] := chunk[i];
      }
      assert chunk[..|chunk|] == chunk;
      used := used + |chunk|;
    }

    /** Appends a chunk that fits in the buffer, and compresses the buffer when that fills it. */
    method Fill(chunk: seq<Byte>)
      requires Represents() && 0 < |chunk| <= BLOCK - used
      modifies `used, `message, state, block
      ensures Represents() && used < BLOCK && message == old(message) + chunk
    {
      Copy(chunk);
      if used == BLOCK {
        FillBlock(message, chunk);
        assert block[..] == block[..used];
        Compress();
        used := 0;
      } else {
        FillTail(message, chunk);
      }
      message := message + chunk;
    }

    /** The digest of everything hashed; the hasher starts over. */
    method Finish() returns (out: seq<Byte>)
      requires Valid()
      modifies this, state, block
      ensures out == Digest(old(message)) && Valid() && message == []
    {
      Pad();
      PaddedWhole(message);
      hide HashBlocks, Padded, AllBytes;
      out := Output();
      Reset();
    }

    method Output() returns (out: seq<Byte>)
      requires state.Length == 8
      ensures out == AllBytes(state[..])
    {
      hide WordBytes;
      out := [];
      for i := 0 to 8
        invariant out == AllBytes(state[..i])
      {
        assert state[..i + 1][..i] == state[..i];
        out := out + WordBytes(state[i]);
      }
      assert state[..8] == state[..];
    }

    /** The padding goes through the buffer: one block, or two when the length does not fit in the first. */
    method Pad()
      requires Valid()
      modifies `used, state, block
      ensures state.Length == 8 && block.Length == BLOCK && |Padded(message)| % BLOCK == 0
      ensures state[..] == HashBlocks(Padded(message))
    {
      ghost var tail := Tail(message);
      PaddedBlocks(message);
      hide HashBlocks, Compressed, Padded, LengthBytes;
      block[used] := 0x80;
      used := used + 1;
      assert block[..used] == tail + [0x80];
      if used > 56 {
        FillZeros(64);
        assert block[..] == block[..64] == tail + [0x80] + Zeros(63 - |tail|);
        Compress();
        used := 0;
        assert block[..0] == [];
      }
      FillZeros(56);
      AppendLength();
      Compress();
    }

    method AppendLength()
      requires block.Length == BLOCK && used == 56
      modifies `used, block
      ensures block[..] == old(block[..56]) + LengthBytes(bits)
    {
      for i := 0 to 8
        invariant used == 56 + i && block[..56] == old(block[..56]) && block[56..56 + i] == LengthBytes(bits)[..i]
      {
        block[used] := (bits / Pow256(7 - i)) % 256;
        used := used + 1;
      }
      assert block[..] == block[..56] + block[56..64];
    }

    /** Zero bytes up to position `to`. */
    method FillZeros(to: nat)
      requires block.Length == BLOCK && used <= to <= BLOCK
      modifies `used, block
      ensures used == to && block[..to] == old(block[..used]) + Zeros(to - old(used))
    {
      while used < to
        invariant old(used) <= used <= to && block[..used] == old(block[..used]) + Zeros(used - old(used))
      {
        block[used] := 0;
        used := used + 1;
      }
    }
  }

  lemma PaddedSplit(m: seq<Byte>, zeros: seq<Byte>)
    requires zeros == Zeros(ZeroCount(|m|))
    ensures Padded(m) == Whole(m) + (Tail(m) + [0x80] + zeros) + LengthBytes(BitCount(|m|))
  {
    var (w, t, l) := (Whole(m), Tail(m), LengthBytes(BitCount(|m|)));
    assert w + t == m;
    hide Whole, Tail, Zeros, LengthBytes, BitCount;
    assert w + t + [0x80] + zeros == w + (t + [0x80] + zeros);
  }

  lemma PaddedOne(m: seq<Byte>)
    requires |m| % BLOCK < 56
    ensures |Padded(m)| % BLOCK == 0
    ensures
      HashBlocks(Padded(m)) ==
      Compressed(HashBlocks(Whole(m)), Tail(m) + [0x80] + Zeros(55 - |Tail(m)|) + LengthBytes(BitCount(|m|)))
  {
    var zeros := Zeros(55 - |Tail(m)|);
    PaddedSplit(m, zeros);
    hide HashBlocks, Compressed, Padded, Zeros, Whole, Tail, LengthBytes, ZeroCount;
    OneBlock(Whole(m), Tail(m) + [0x80] + zeros, LengthBytes(BitCount(|m|)));
  }

  lemma PaddedTwo(m: seq<Byte>)
    requires |m| % BLOCK >= 56
    ensures |Padded(m)| % BLOCK == 0
    ensures
      HashBlocks(Padded(m)) ==
      Compressed(Compressed(HashBlocks(Whole(m)), Tail(m) + [0x80] + Zeros(63 - |Tail(m)|)),
                 [] + Zeros(56) + LengthBytes(BitCount(|m|)))
  {
    var (z1, z2) := (Zeros(63 - |Tail(m)|), Zeros(56));
    assert Zeros(119 - |Tail(m)|) == z1 + z2;
    PaddedSplit(m, z1 + z2);
    hide HashBlocks, Compressed, Padded, Zeros, Whole, Tail, LengthBytes, ZeroCount;
    assert Tail(m) + [0x80] + (z1 + z2) == (Tail(m) + [0x80]) + (z1 + z2);
    TwoBlocks(Whole(m), Tail(m) + [0x80], z1, z2, LengthBytes(BitCount(|m|)));
  }

  /** The two shapes of the padding: the length fits in the last block of the message, or takes one more. */
  lemma PaddedBlocks(m: seq<Byte>)
    ensures |Padded(m)| % BLOCK == 0
    ensures
      var (state, tail, length) := (HashBlocks(Whole(m)), Tail(m), LengthBytes(BitCount(|m|)));
      HashBlocks(Padded(m)) ==
      if |tail| < 56 then Compressed(state, tail + [0x80] + Zeros(55 - |tail|) + length)
      else Compressed(Compressed(state, tail + [0x80] + Zeros(63 - |tail|)), [] + Zeros(56) + length)
  {
    hide HashBlocks, Compressed, Padded, Zeros, Whole, Tail, LengthBytes, ZeroCount;
    if |m| % BLOCK < 56 { PaddedOne(m); } else { PaddedTwo(m); }
  }

  lemma OneBlock(whole: seq<Byte>, tail: seq<Byte>, length: seq<Byte>)
    requires |whole| % BLOCK == 0 && |tail + length| == BLOCK
    ensures |whole + tail + length| % BLOCK == 0
    ensures HashBlocks(whole + tail + length) == Compressed(HashBlocks(whole), tail + length)
  {
    assert whole + tail + length == whole + (tail + length);
    AppendBlock(whole, tail + length);
  }

  lemma TwoBlocks(whole: seq<Byte>, tail: seq<Byte>, z1: seq<Byte>, z2: seq<Byte>, length: seq<Byte>)
    requires |whole| % BLOCK == 0 && |tail + z1| == BLOCK && |z2 + length| == BLOCK
    ensures |whole + (tail + (z1 + z2)) + length| % BLOCK == 0
    ensures
      HashBlocks(whole + (tail + (z1 + z2)) + length) ==
      Compressed(Compressed(HashBlocks(whole), tail + z1), [] + z2 + length)
  {
    hide HashBlocks, Compressed;
    assert whole + (tail + (z1 + z2)) + length == whole + (tail + z1) + ([] + z2 + length);
    AppendBlock(whole, tail + z1);
    AppendBlock(whole + (tail + z1), [] + z2 + length);
  }

  lemma NextSlice<T>(before: seq<T>, data: seq<T>, done: nat, take: nat)
    requires done + take <= |data|
    ensures before + data[..done] + data[done..done + take] == before + data[..done + take]
  {
  }

  lemma CountBits(n: nat, k: nat)
    ensures (BitCount(n) + k * 8) % LENGTH_MODULUS == BitCount(n + k)
  {
  }

  function Flatten(parts: seq<seq<Byte>>): seq<Byte> {
    if parts == [] then [] else Flatten(parts[..|parts| - 1]) + parts[|parts| - 1]
  }

  /** However a message is split into updates, its digest is the standard's. */
  method HashParts(parts: seq<seq<Byte>>) returns (out: seq<Byte>)
    ensures out == Digest(Flatten(parts)) && |out| == 32
  {
    hide Digest;
    var h := new Sha256();
    for i := 0 to |parts|
      invariant h.Valid() && h.message == Flatten(parts[..i])
    {
      assert parts[..i + 1][..i] == parts[..i];
      h.Update(parts[i]);
    }
    assert parts[..|parts|] == parts;
    out := h.Finish();
  }

  function HexDigit(n: nat): char
    requires n < 16
  {
    "0123456789abcdef"[n]
  }

  function HexByte(b: Byte): string {
    [HexDigit(b / 16), HexDigit(b % 16)]
  }

  function Hex(bytes: seq<Byte>): (r: string)
    ensures |r| == 2 * |bytes|
  {
    if bytes == [] then "" else Hex(bytes[..|bytes| - 1]) + HexByte(bytes[|bytes| - 1])
  }

  method HexOf(bytes: seq<Byte>) returns (out: string)
    ensures out == Hex(bytes)
  {
    hide HexByte;
    out := "";
    for i := 0 to |bytes|
      invariant out == Hex(bytes[..i])
    {
      assert bytes[..i + 1][..i] == bytes[..i];
      out := out + HexByte(bytes[i]);
    }
    assert bytes[..|bytes|] == bytes;
  }

  method Sha256Hex(bytes: seq<Byte>) returns (out: string)
    ensures out == Hex(Digest(bytes)) && |out| == 64
  {
    hide Digest, Hex;
    var h := new Sha256();
    h.Update(bytes);
    assert [] + bytes == bytes;
    var digest := h.Finish();
    out := HexOf(digest);
  }
}
