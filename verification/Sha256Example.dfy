/** The one-block example of FIPS 180-4: the message "abc". Rows of eight words are written as `Vars`; W0 to W7
    are the message schedule, and V0 to V8 the working variables after every eighth turn. */
module Sha256Example {
  import opened Prelude
  import opened Sha256s
  import opened Sha256Standard
  import opened Sha256Constants

  /** The next eight words of the schedule, from the sixteen before them. */
  function EightWords(x: Vars, y: Vars): Vars {
    var (a, b) := (NextWord(x.a, x.b, y.b, y.g), NextWord(x.b, x.c, y.c, y.h));
    var (c, d) := (NextWord(x.c, x.d, y.d, a), NextWord(x.d, x.e, y.e, b));
    var (e, f) := (NextWord(x.e, x.f, y.f, c), NextWord(x.f, x.g, y.g, d));
    Vars(a, b, c, d, e, f, NextWord(x.g, x.h, y.h, e), NextWord(x.h, y.a, a, f))
  }

  function EightTurns(v: Vars, k: Vars, w: Vars): Vars {
    var v := Turn(Turn(Turn(Turn(v, k.a, w.a), k.b, w.b), k.c, w.c), k.d, w.d);
    Turn(Turn(Turn(Turn(v, k.e, w.e), k.f, w.f), k.g, w.g), k.h, w.h)
  }

  /** The row of the schedule that starts at t. */
  predicate Scheduled(block: seq<Byte>, t: nat, w: Vars)
    requires |block| == BLOCK
  {
    && Schedule(block, t) == w.a && Schedule(block, t + 1) == w.b && Schedule(block, t + 2) == w.c
    && Schedule(block, t + 3) == w.d && Schedule(block, t + 4) == w.e && Schedule(block, t + 5) == w.f
    && Schedule(block, t + 6) == w.g && Schedule(block, t + 7) == w.h
  }

  lemma ScheduleNext(block: seq<Byte>, t: nat)
    requires |block| == BLOCK && t >= 16
    ensures
      Schedule(block, t) == NextWord(Schedule(block, t - 16), Schedule(block, t - 15), Schedule(block, t - 7), Schedule(block, t - 2))
  {
    hide NextWord;
  }

  lemma ScheduledMore(block: seq<Byte>, t: nat, x: Vars, y: Vars)
    requires |block| == BLOCK && t >= 16 && Scheduled(block, t - 16, x) && Scheduled(block, t - 8, y)
    ensures Scheduled(block, t, EightWords(x, y))
  {
    hide NextWord, Schedule;
    ScheduleNext(block, t);
    ScheduleNext(block, t + 1);
    ScheduleNext(block, t + 2);
    ScheduleNext(block, t + 3);
    ScheduleNext(block, t + 4);
    ScheduleNext(block, t + 5);
    ScheduleNext(block, t + 6);
    ScheduleNext(block, t + 7);
  }

  lemma TurnsMore(v: Vars, block: seq<Byte>, t: nat, k: Vars, w: Vars)
    requires |block| == BLOCK && t <= 56 && Scheduled(block, t, w) && KRow(t, k)
    ensures Turns(v, block, t + 8) == EightTurns(Turns(v, block, t), k, w)
  {
    hide Turn, Schedule, K;
    assert Turns(v, block, t + 1) == Turn(Turns(v, block, t), k.a, w.a);
    assert Turns(v, block, t + 2) == Turn(Turns(v, block, t + 1), k.b, w.b);
    assert Turns(v, block, t + 3) == Turn(Turns(v, block, t + 2), k.c, w.c);
    assert Turns(v, block, t + 4) == Turn(Turns(v, block, t + 3), k.d, w.d);
    assert Turns(v, block, t + 5) == Turn(Turns(v, block, t + 4), k.e, w.e);
    assert Turns(v, block, t + 6) == Turn(Turns(v, block, t + 5), k.f, w.f);
    assert Turns(v, block, t + 7) == Turn(Turns(v, block, t + 6), k.g, w.g);
  }

  const W0 := Vars(0x61626380, 0x00000000, 0x00000000, 0x00000000, 0x00000000, 0x00000000, 0x00000000, 0x00000000)
  const W1 := Vars(0x00000000, 0x00000000, 0x00000000, 0x00000000, 0x00000000, 0x00000000, 0x00000000, 0x00000018)
  const W2 := Vars(0x61626380, 0x000f0000, 0x7da86405, 0x600003c6, 0x3e9d7b78, 0x0183fc00, 0x12dcbfdb, 0xe2e2c38e)
  const W3 := Vars(0xc8215c1a, 0xb73679a2, 0xe5bc3909, 0x32663c5b, 0x9d209d67, 0xec8726cb, 0x702138a4, 0xd3b7973b)
  const W4 := Vars(0x93f5997f, 0x3b68ba73, 0xaff4ffc1, 0xf10a5c62, 0x0a8b3996, 0x72af830a, 0x9409e33e, 0x24641522)
  const W5 := Vars(0x9f47bf94, 0xf0a64f5a, 0x3e246a79, 0x27333ba3, 0x0c4763f2, 0x840abf27, 0x7a290d5d, 0x065c43da)
  const W6 := Vars(0xfb3e89cb, 0xcc7617db, 0xb9e66c34, 0xa9993667, 0x84badedd, 0xc21462bc, 0x1487472c, 0xb20f7a99)
  const W7 := Vars(0xef57b9cd, 0xebe6b238, 0x9fe3095e, 0x78bc8d4b, 0xa43fcf15, 0x668b2ff8, 0xeeaba2cc, 0x12b1edeb)

  const V0 := Vars(0x6a09e667, 0xbb67ae85, 0x3c6ef372, 0xa54ff53a, 0x510e527f, 0x9b05688c, 0x1f83d9ab, 0x5be0cd19)
  const V1 := Vars(0x85a07b5f, 0xe5030380, 0x2b4209f5, 0x04409a6a, 0x0c657a79, 0x9b27a401, 0x714260ad, 0x43ada245)
  const V2 := Vars(0xb0fa238e, 0xc0645fde, 0xd932eb16, 0x87912990, 0x07590dcd, 0x0b92f20c, 0x745a48de, 0x1e578218)
  const V3 := Vars(0xc5d53d8d, 0xa7a3623f, 0xc2606d6d, 0x9dc68b63, 0xaa47c347, 0x49f5114a, 0xe1257970, 0x8ada8930)
  const V4 := Vars(0x73b33bf5, 0xea992a22, 0xa0060b30, 0x363482c9, 0xba591112, 0x0109ab3a, 0xade79437, 0x6112a3b7)
  const V5 := Vars(0x79ea687a, 0x6dc57a8a, 0x34df1604, 0x41a65cb1, 0x1efbc0a0, 0xf0781bc8, 0xa507a53d, 0x0772a26b)
  const V6 := Vars(0x4172328d, 0xa14c14b0, 0x72ab4b91, 0x26628815, 0xfecf0bc6, 0xd57b94a9, 0xb7755da1, 0xa80f11f0)
  const V7 := Vars(0x38cc9913, 0x3ec45cdb, 0xf5702fdb, 0x101fd28f, 0x54cb266b, 0xe50e1b4f, 0x9f4787c3, 0x529e7d00)
  const V8 := Vars(0x506e3058, 0xd39a2165, 0x04d24d6c, 0xb85e2ce9, 0x5ef50f24, 0xfb121210, 0x948d25b6, 0x961f4894)

  lemma Words2()
    ensures EightWords(W0, W1) == W2
  {
    NextFour2a();
    NextFour2b();
    hide NextWord;
  }

  lemma NextFour2a()
    ensures NextWord(0x61626380, 0x00000000, 0x00000000, 0x00000000) == 0x61626380
    ensures NextWord(0x00000000, 0x00000000, 0x00000000, 0x00000018) == 0x000f0000
    ensures NextWord(0x00000000, 0x00000000, 0x00000000, 0x61626380) == 0x7da86405
    ensures NextWord(0x00000000, 0x00000000, 0x00000000, 0x000f0000) == 0x600003c6
  {
  }

  lemma NextFour2b()
    ensures NextWord(0x00000000, 0x00000000, 0x00000000, 0x7da86405) == 0x3e9d7b78
    ensures NextWord(0x00000000, 0x00000000, 0x00000000, 0x600003c6) == 0x0183fc00
    ensures NextWord(0x00000000, 0x00000000, 0x00000018, 0x3e9d7b78) == 0x12dcbfdb
    ensures NextWord(0x00000000, 0x00000000, 0x61626380, 0x0183fc00) == 0xe2e2c38e
  {
  }

  lemma Words3()
    ensures EightWords(W1, W2) == W3
  {
    NextFour3a();
    NextFour3b();
    hide NextWord;
  }

  lemma NextFour3a()
    ensures NextWord(0x00000000, 0x00000000, 0x000f0000, 0x12dcbfdb) == 0xc8215c1a
    ensures NextWord(0x00000000, 0x00000000, 0x7da86405, 0xe2e2c38e) == 0xb73679a2
    ensures NextWord(0x00000000, 0x00000000, 0x600003c6, 0xc8215c1a) == 0xe5bc3909
    ensures NextWord(0x00000000, 0x00000000, 0x3e9d7b78, 0xb73679a2) == 0x32663c5b
  {
  }

  lemma NextFour3b()
    ensures NextWord(0x00000000, 0x00000000, 0x0183fc00, 0xe5bc3909) == 0x9d209d67
    ensures NextWord(0x00000000, 0x00000000, 0x12dcbfdb, 0x32663c5b) == 0xec8726cb
    ensures NextWord(0x00000000, 0x00000018, 0xe2e2c38e, 0x9d209d67) == 0x702138a4
    ensures NextWord(0x00000018, 0x61626380, 0xc8215c1a, 0xec8726cb) == 0xd3b7973b
  {
  }

  lemma Words4()
    ensures EightWords(W2, W3) == W4
  {
    NextFour4a();
    NextFour4b();
    hide NextWord;
  }

  lemma NextFour4a()
    ensures NextWord(0x61626380, 0x000f0000, 0xb73679a2, 0x702138a4) == 0x93f5997f
    ensures NextWord(0x000f0000, 0x7da86405, 0xe5bc3909, 0xd3b7973b) == 0x3b68ba73
    ensures NextWord(0x7da86405, 0x600003c6, 0x32663c5b, 0x93f5997f) == 0xaff4ffc1
    ensures NextWord(0x600003c6, 0x3e9d7b78, 0x9d209d67, 0x3b68ba73) == 0xf10a5c62
  {
  }

  lemma NextFour4b()
    ensures NextWord(0x3e9d7b78, 0x0183fc00, 0xec8726cb, 0xaff4ffc1) == 0x0a8b3996
    ensures NextWord(0x0183fc00, 0x12dcbfdb, 0x702138a4, 0xf10a5c62) == 0x72af830a
    ensures NextWord(0x12dcbfdb, 0xe2e2c38e, 0xd3b7973b, 0x0a8b3996) == 0x9409e33e
    ensures NextWord(0xe2e2c38e, 0xc8215c1a, 0x93f5997f, 0x72af830a) == 0x24641522
  {
  }

  lemma Words5()
    ensures EightWords(W3, W4) == W5
  {
    NextFour5a();
    NextFour5b();
    hide NextWord;
  }

  lemma NextFour5a()
    ensures NextWord(0xc8215c1a, 0xb73679a2, 0x3b68ba73, 0x9409e33e) == 0x9f47bf94
    ensures NextWord(0xb73679a2, 0xe5bc3909, 0xaff4ffc1, 0x24641522) == 0xf0a64f5a
    ensures NextWord(0xe5bc3909, 0x32663c5b, 0xf10a5c62, 0x9f47bf94) == 0x3e246a79
    ensures NextWord(0x32663c5b, 0x9d209d67, 0x0a8b3996, 0xf0a64f5a) == 0x27333ba3
  {
  }

  lemma NextFour5b()
    ensures NextWord(0x9d209d67, 0xec8726cb, 0x72af830a, 0x3e246a79) == 0x0c4763f2
    ensures NextWord(0xec8726cb, 0x702138a4, 0x9409e33e, 0x27333ba3) == 0x840abf27
    ensures NextWord(0x702138a4, 0xd3b7973b, 0x24641522, 0x0c4763f2) == 0x7a290d5d
    ensures NextWord(0xd3b7973b, 0x93f5997f, 0x9f47bf94, 0x840abf27) == 0x065c43da
  {
  }

  lemma Words6()
    ensures EightWords(W4, W5) == W6
  {
    NextFour6a();
    NextFour6b();
    hide NextWord;
  }

  lemma NextFour6a()
    ensures NextWord(0x93f5997f, 0x3b68ba73, 0xf0a64f5a, 0x7a290d5d) == 0xfb3e89cb
    ensures NextWord(0x3b68ba73, 0xaff4ffc1, 0x3e246a79, 0x065c43da) == 0xcc7617db
    ensures NextWord(0xaff4ffc1, 0xf10a5c62, 0x27333ba3, 0xfb3e89cb) == 0xb9e66c34
    ensures NextWord(0xf10a5c62, 0x0a8b3996, 0x0c4763f2, 0xcc7617db) == 0xa9993667
  {
  }

  lemma NextFour6b()
    ensures NextWord(0x0a8b3996, 0x72af830a, 0x840abf27, 0xb9e66c34) == 0x84badedd
    ensures NextWord(0x72af830a, 0x9409e33e, 0x7a290d5d, 0xa9993667) == 0xc21462bc
    ensures NextWord(0x9409e33e, 0x24641522, 0x065c43da, 0x84badedd) == 0x1487472c
    ensures NextWord(0x24641522, 0x9f47bf94, 0xfb3e89cb, 0xc21462bc) == 0xb20f7a99
  {
  }

  lemma Words7()
    ensures EightWords(W5, W6) == W7
  {
    NextFour7a();
    NextFour7b();
    hide NextWord;
  }

  lemma NextFour7a()
    ensures NextWord(0x9f47bf94, 0xf0a64f5a, 0xcc7617db, 0x1487472c) == 0xef57b9cd
    ensures NextWord(0xf0a64f5a, 0x3e246a79, 0xb9e66c34, 0xb20f7a99) == 0xebe6b238
    ensures NextWord(0x3e246a79, 0x27333ba3, 0xa9993667, 0xef57b9cd) == 0x9fe3095e
    ensures NextWord(0x27333ba3, 0x0c4763f2, 0x84badedd, 0xebe6b238) == 0x78bc8d4b
  {
  }

  lemma NextFour7b()
    ensures NextWord(0x0c4763f2, 0x840abf27, 0xc21462bc, 0x9fe3095e) == 0xa43fcf15
    ensures NextWord(0x840abf27, 0x7a290d5d, 0x1487472c, 0x78bc8d4b) == 0x668b2ff8
    ensures NextWord(0x7a290d5d, 0x065c43da, 0xb20f7a99, 0xa43fcf15) == 0xeeaba2cc
    ensures NextWord(0x065c43da, 0xfb3e89cb, 0xef57b9cd, 0x668b2ff8) == 0x12b1edeb
  {
  }

  lemma Turns0()
    ensures EightTurns(V0, K0, W0) == V1
  {
  }

  lemma Turns1()
    ensures EightTurns(V1, K1, W1) == V2
  {
  }

  lemma Turns2()
    ensures EightTurns(V2, K2, W2) == V3
  {
  }

  lemma Turns3()
    ensures EightTurns(V3, K3, W3) == V4
  {
  }

  lemma Turns4()
    ensures EightTurns(V4, K4, W4) == V5
  {
  }

  lemma Turns5()
    ensures EightTurns(V5, K5, W5) == V6
  {
  }

  lemma Turns6()
    ensures EightTurns(V6, K6, W6) == V7
  {
  }

  lemma Turns7()
    ensures EightTurns(V7, K7, W7) == V8
  {
  }

  const ABC: seq<Byte> := [0x61, 0x62, 0x63]

  /** The padded message, one block: the message, a one bit, zeros, and its 24 bits. */
  lemma AbcPadded()
    ensures |Padded(ABC)| == BLOCK && Padded(ABC)[..4] == [0x61, 0x62, 0x63, 0x80] && Padded(ABC)[63] == 24
    ensures forall i | 4 <= i < 63 :: Padded(ABC)[i] == 0
  {
    Length24();
    hide LengthBytes;
    assert ZeroCount(3) == 52;
  }

  lemma Length24()
    ensures LengthBytes(24)[7] == 24 && forall i | 0 <= i < 7 :: LengthBytes(24)[i] == 0
  {
    forall i | 0 <= i < 7 ensures LengthBytes(24)[i] == 0 {
      PowLarge(7 - i);
      Quotient(24, Pow256(7 - i), 0, 24);
    }
    assert Pow256(0) == 1;
  }

  lemma PowLarge(n: nat)
    requires n >= 1
    ensures Pow256(n) >= 256
  {
  }

  lemma AbcSchedule(block: seq<Byte>)
    requires block == Padded(ABC) && |block| == BLOCK
    ensures Scheduled(block, 0, W0) && Scheduled(block, 8, W1)
  {
    AbcPadded();
    hide Padded;
    FirstWords(block);
  }

  lemma FirstWords(block: seq<Byte>)
    requires |block| == BLOCK && block[..4] == [0x61, 0x62, 0x63, 0x80] && block[63] == 24
    requires forall i | 4 <= i < 63 :: block[i] == 0
    ensures Scheduled(block, 0, W0) && Scheduled(block, 8, W1)
  {
    SomeWords();
    hide ToWord, Joined;
    assert block[0] == block[..4][0] && block[1] == block[..4][1] && block[2] == block[..4][2] && block[3] == block[..4][3];
    assert WordAt(block, 0) == W0.a && WordAt(block, 15) == W1.h;
    assert forall i | 1 <= i < 15 :: WordAt(block, i) == 0;
  }

  lemma SomeWords()
    ensures Joined(ToWord(0x61), ToWord(0x62), ToWord(0x63), ToWord(0x80)) == 0x61626380
    ensures Joined(ToWord(0), ToWord(0), ToWord(0), ToWord(24)) == 24 && Joined(ToWord(0), ToWord(0), ToWord(0), ToWord(0)) == 0
  {
  }

  lemma AbcTurns(block: seq<Byte>)
    requires block == Padded(ABC) && |block| == BLOCK
    ensures Turns(V0, block, 64) == V8
  {
    hide Scheduled, EightWords, EightTurns, KRow, Turns, Padded;
    AbcSchedule(block);
    ScheduledMore(block, 16, W0, W1);
    Words2();
    ScheduledMore(block, 24, W1, W2);
    Words3();
    ScheduledMore(block, 32, W2, W3);
    Words4();
    ScheduledMore(block, 40, W3, W4);
    Words5();
    ScheduledMore(block, 48, W4, W5);
    Words6();
    ScheduledMore(block, 56, W5, W6);
    Words7();
    TurnsNone(V0, block);
    KRow0();
    TurnsMore(V0, block, 0, K0, W0);
    Turns0();
    KRow1();
    TurnsMore(V0, block, 8, K1, W1);
    Turns1();
    KRow2();
    TurnsMore(V0, block, 16, K2, W2);
    Turns2();
    KRow3();
    TurnsMore(V0, block, 24, K3, W3);
    Turns3();
    KRow4();
    TurnsMore(V0, block, 32, K4, W4);
    Turns4();
    KRow5();
    TurnsMore(V0, block, 40, K5, W5);
    Turns5();
    KRow6();
    TurnsMore(V0, block, 48, K6, W6);
    Turns6();
    KRow7();
    TurnsMore(V0, block, 56, K7, W7);
    Turns7();
  }

  lemma TurnsNone(v: Vars, block: seq<Byte>)
    requires |block| == BLOCK
    ensures Turns(v, block, 0) == v
  {
  }

  const ABC_STATE: seq<Word> := [
    0xba7816bf, 0x8f01cfea, 0x414140de, 0x5dae2223, 0xb00361a3, 0x96177a9c, 0xb410ff61, 0xf20015ad
  ]

  lemma AbcHash()
    ensures |Padded(ABC)| % BLOCK == 0 && HashBlocks(Padded(ABC)) == ABC_STATE
  {
    AbcPadded();
    AbcTurns(Padded(ABC));
    AbcBlocks(Padded(ABC));
    hide Turns, Padded;
    assert Added(H0, V8) == ABC_STATE;
  }

  lemma AbcBlocks(block: seq<Byte>)
    requires |block| == BLOCK
    ensures HashBlocks(block) == Added(H0, Turns(V0, block, 64))
  {
    assert block[..0] == [] && block[0..] == block;
    assert HashBlocks([]) == H0;
  }

  /** The digest the standard gives. */
  lemma AbcDigest()
    ensures Digest(ABC)[0..4] == [0xba, 0x78, 0x16, 0xbf]
    ensures Digest(ABC)[4..8] == [0x8f, 0x01, 0xcf, 0xea]
    ensures Digest(ABC)[8..12] == [0x41, 0x41, 0x40, 0xde]
    ensures Digest(ABC)[12..16] == [0x5d, 0xae, 0x22, 0x23]
    ensures Digest(ABC)[16..20] == [0xb0, 0x03, 0x61, 0xa3]
    ensures Digest(ABC)[20..24] == [0x96, 0x17, 0x7a, 0x9c]
    ensures Digest(ABC)[24..28] == [0xb4, 0x10, 0xff, 0x61]
    ensures Digest(ABC)[28..32] == [0xf2, 0x00, 0x15, 0xad]
  {
    AbcHash();
    hide HashBlocks, Padded, AllBytes, WordBytes;
    var s := ABC_STATE;
    WordInDigest(s, 0);
    WordInDigest(s, 1);
    WordInDigest(s, 2);
    WordInDigest(s, 3);
    WordInDigest(s, 4);
    WordInDigest(s, 5);
    WordInDigest(s, 6);
    WordInDigest(s, 7);
    StateBytes();
  }

  lemma StateBytes()
    ensures WordBytes(0xba7816bf) == [0xba, 0x78, 0x16, 0xbf]
    ensures WordBytes(0x8f01cfea) == [0x8f, 0x01, 0xcf, 0xea]
    ensures WordBytes(0x414140de) == [0x41, 0x41, 0x40, 0xde]
    ensures WordBytes(0x5dae2223) == [0x5d, 0xae, 0x22, 0x23]
    ensures WordBytes(0xb00361a3) == [0xb0, 0x03, 0x61, 0xa3]
    ensures WordBytes(0x96177a9c) == [0x96, 0x17, 0x7a, 0x9c]
    ensures WordBytes(0xb410ff61) == [0xb4, 0x10, 0xff, 0x61]
    ensures WordBytes(0xf20015ad) == [0xf2, 0x00, 0x15, 0xad]
  {
  }
}
