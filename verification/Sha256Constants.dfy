/** The constants of FIPS 180-4: sections 4.2.2 and 5.3.3 define them by the roots of the first primes. Rows of
    eight words are written as `Vars`. */
module Sha256Constants {
  import opened Sha256s
  import opened Sha256Standard

  const PRIMES: seq<nat> :=
    [2, 3, 5, 7, 11, 13, 17, 19, 23, 29, 31, 37, 41, 43, 47, 53] +
    [59, 61, 67, 71, 73, 79, 83, 89, 97, 101, 103, 107, 109, 113, 127, 131] +
    [137, 139, 149, 151, 157, 163, 167, 173, 179, 181, 191, 193, 197, 199, 211, 223] +
    [227, 229, 233, 239, 241, 251, 257, 263, 269, 271, 277, 281, 283, 293, 307, 311]

  // ---------------------------------------------------------------------------
  // The first primes
  // ---------------------------------------------------------------------------

  predicate IsPrime(n: nat) {
    n >= 2 && forall d | 2 <= d < n :: n % d != 0
  }

  /** What is left below 19 * 19 after sieving with the primes up to 17. */
  predicate Sieved(n: nat) {
    || n == 2 || n == 3 || n == 5 || n == 7 || n == 11 || n == 13 || n == 17
    || (n >= 2 && n % 2 != 0 && n % 3 != 0 && n % 5 != 0 && n % 7 != 0 && n % 11 != 0 && n % 13 != 0 && n % 17 != 0)
  }

  lemma DividesBy(n: nat, p: nat, k: nat)
    requires p > 0 && n == p * k
    ensures n % p == 0
  {
    Quotient(n, p, k, 0);
  }

  lemma Factor(n: nat, d: nat, e: nat, p: nat)
    requires n == d * e && p > 0 && d % p == 0
    ensures n % p == 0
  {
    var q := d / p;
    assert d == p * q;
    assert p * q * e == p * (q * e);
    DividesBy(n, p, q * e);
  }

  lemma SmallFactor(n: nat, d: nat, e: nat)
    requires n == d * e && 2 <= d < 19 && d < n
    ensures !Sieved(n)
  {
    var p := if d % 2 == 0 then 2 else if d % 3 == 0 then 3 else if d == 5 then 5 else if d == 7 then 7
             else if d == 11 then 11 else if d == 13 then 13 else 17;
    Factor(n, d, e, p);
  }

  lemma UnsievedIsNot(n: nat)
    requires n >= 2 && !Sieved(n)
    ensures !IsPrime(n)
  {
    var d := if n % 2 == 0 then 2 else if n % 3 == 0 then 3 else if n % 5 == 0 then 5 else if n % 7 == 0 then 7
             else if n % 11 == 0 then 11 else if n % 13 == 0 then 13 else 17;
    assert 2 <= d < n && n % d == 0;
  }

  lemma CompositeIsUnsieved(n: nat)
    requires 2 <= n < 361 && !IsPrime(n)
    ensures !Sieved(n)
  {
    hide Sieved;
    var d :| 2 <= d < n && n % d == 0;
    var e := n / d;
    assert n == d * e;
    Grows(d, 19, e);
    if d < 19 {
      SmallFactor(n, d, e);
    } else {
      Grows(19, 19, d);
      assert e < 19 && e >= 2;
      SmallFactor(n, e, d);
    }
  }

  lemma SievedIsPrime(n: nat)
    requires n < 361
    ensures IsPrime(n) <==> Sieved(n)
  {
    if n >= 2 && !Sieved(n) {
      UnsievedIsNot(n);
    }
    if n >= 2 && !IsPrime(n) {
      CompositeIsUnsieved(n);
    }
    hide IsPrime;
  }

  predicate PrimeRow(t: nat, a: nat, b: nat, c: nat, d: nat, e: nat, f: nat, g: nat, h: nat)
    requires t <= 56
  {
    && PRIMES[t] == a && PRIMES[t + 1] == b && PRIMES[t + 2] == c && PRIMES[t + 3] == d
    && PRIMES[t + 4] == e && PRIMES[t + 5] == f && PRIMES[t + 6] == g && PRIMES[t + 7] == h
  }

  /** PRIMES[i] is the next prime after PRIMES[i - 1]. */
  predicate IsNext(i: nat)
    requires i < 64
  {
    IsPrime(PRIMES[i]) &&
    if i == 0 then PRIMES[i] == 2 else PRIMES[i - 1] < PRIMES[i] && forall n | PRIMES[i - 1] < n < PRIMES[i] :: !IsPrime(n)
  }

  lemma PrimeRow0()
    ensures PrimeRow(0, 2, 3, 5, 7, 11, 13, 17, 19)
  {
  }

  lemma PrimeRow1()
    ensures PrimeRow(8, 23, 29, 31, 37, 41, 43, 47, 53)
  {
  }

  lemma PrimeRow2()
    ensures PrimeRow(16, 59, 61, 67, 71, 73, 79, 83, 89)
  {
  }

  lemma PrimeRow3()
    ensures PrimeRow(24, 97, 101, 103, 107, 109, 113, 127, 131)
  {
  }

  lemma PrimeRow4()
    ensures PrimeRow(32, 137, 139, 149, 151, 157, 163, 167, 173)
  {
  }

  lemma PrimeRow5()
    ensures PrimeRow(40, 179, 181, 191, 193, 197, 199, 211, 223)
  {
  }

  lemma PrimeRow6()
    ensures PrimeRow(48, 227, 229, 233, 239, 241, 251, 257, 263)
  {
  }

  lemma PrimeRow7()
    ensures PrimeRow(56, 269, 271, 277, 281, 283, 293, 307, 311)
  {
  }

  lemma Sieve0(n: nat)
    requires 0 <= n <= 7
    ensures Sieved(n) <==> n == 2 || n == 3 || n == 5 || n == 7
  {
    assert n % 2 == 0 || n % 3 == 0 || n % 5 == 0 || n == 1 || n == 7;
  }

  lemma Sieve1(n: nat)
    requires 8 <= n <= 19
    ensures Sieved(n) <==> n == 11 || n == 13 || n == 17 || n == 19
  {
    assert n % 2 == 0 || n % 3 == 0 || n % 5 == 0 || n == 11 || n == 13 || n == 17 || n == 19;
  }

  lemma Sieve2(n: nat)
    requires 20 <= n <= 37
    ensures Sieved(n) <==> n == 23 || n == 29 || n == 31 || n == 37
  {
    assert n % 2 == 0 || n % 3 == 0 || n % 5 == 0 || n == 23 || n == 29 || n == 31 || n == 37;
  }

  lemma Sieve3(n: nat)
    requires 38 <= n <= 53
    ensures Sieved(n) <==> n == 41 || n == 43 || n == 47 || n == 53
  {
    assert n % 2 == 0 || n % 3 == 0 || n % 5 == 0 || n == 41 || n == 43 || n == 47 || n == 49 || n == 53;
  }

  lemma Sieve4(n: nat)
    requires 54 <= n <= 71
    ensures Sieved(n) <==> n == 59 || n == 61 || n == 67 || n == 71
  {
    assert n % 2 == 0 || n % 3 == 0 || n % 5 == 0 || n == 59 || n == 61 || n == 67 || n == 71;
  }

  lemma Sieve5(n: nat)
    requires 72 <= n <= 89
    ensures Sieved(n) <==> n == 73 || n == 79 || n == 83 || n == 89
  {
    assert n % 2 == 0 || n % 3 == 0 || n % 5 == 0 || n == 73 || n == 77 || n == 79 || n == 83 || n == 89;
  }

  lemma Sieve6(n: nat)
    requires 90 <= n <= 107
    ensures Sieved(n) <==> n == 97 || n == 101 || n == 103 || n == 107
  {
    assert n % 2 == 0 || n % 3 == 0 || n % 5 == 0 || n == 91 || n == 97 || n == 101 || n == 103 || n == 107;
  }

  lemma Sieve7(n: nat)
    requires 108 <= n <= 131
    ensures Sieved(n) <==> n == 109 || n == 113 || n == 127 || n == 131
  {
    assert n % 2 == 0 || n % 3 == 0 || n % 5 == 0 || n == 109 || n == 113 || n == 119 || n == 121 || n == 127 || n == 131;
  }

  lemma Sieve8(n: nat)
    requires 132 <= n <= 151
    ensures Sieved(n) <==> n == 137 || n == 139 || n == 149 || n == 151
  {
    assert n % 2 == 0 || n % 3 == 0 || n % 5 == 0 || n == 133 || n == 137 || n == 139 || n == 143 || n == 149 || n == 151;
  }

  lemma Sieve9(n: nat)
    requires 152 <= n <= 173
    ensures Sieved(n) <==> n == 157 || n == 163 || n == 167 || n == 173
  {
    assert n % 2 == 0 || n % 3 == 0 || n % 5 == 0 || n == 157 || n == 161 || n == 163 || n == 167 || n == 169 || n == 173;
  }

  lemma Sieve10(n: nat)
    requires 174 <= n <= 193
    ensures Sieved(n) <==> n == 179 || n == 181 || n == 191 || n == 193
  {
    assert n % 2 == 0 || n % 3 == 0 || n % 5 == 0 || n == 179 || n == 181 || n == 187 || n == 191 || n == 193;
  }

  lemma Sieve11(n: nat)
    requires 194 <= n <= 223
    ensures Sieved(n) <==> n == 197 || n == 199 || n == 211 || n == 223
  {
    assert n % 2 == 0 || n % 3 == 0 || n % 5 == 0 || n == 197 || n == 199 || n == 203 || n == 209 || n == 211 || n == 217 || n == 221 || n == 223;
  }

  lemma Sieve12(n: nat)
    requires 224 <= n <= 239
    ensures Sieved(n) <==> n == 227 || n == 229 || n == 233 || n == 239
  {
    assert n % 2 == 0 || n % 3 == 0 || n % 5 == 0 || n == 227 || n == 229 || n == 233 || n == 239;
  }

  lemma Sieve13(n: nat)
    requires 240 <= n <= 263
    ensures Sieved(n) <==> n == 241 || n == 251 || n == 257 || n == 263
  {
    assert n % 2 == 0 || n % 3 == 0 || n % 5 == 0 || n == 241 || n == 247 || n == 251 || n == 253 || n == 257 || n == 259 || n == 263;
  }

  lemma Sieve14(n: nat)
    requires 264 <= n <= 281
    ensures Sieved(n) <==> n == 269 || n == 271 || n == 277 || n == 281
  {
    assert n % 2 == 0 || n % 3 == 0 || n % 5 == 0 || n == 269 || n == 271 || n == 277 || n == 281;
  }

  lemma Sieve15(n: nat)
    requires 282 <= n <= 311
    ensures Sieved(n) <==> n == 283 || n == 293 || n == 307 || n == 311
  {
    assert n % 2 == 0 || n % 3 == 0 || n % 5 == 0 || n == 283 || n == 287 || n == 289 || n == 293 || n == 299 || n == 301 || n == 307 || n == 311;
  }

  lemma InOrder0(i: nat)
    requires 0 <= i < 8
    ensures IsNext(i)
  {
    PrimeRow0();
    hide PRIMES, Sieved, IsPrime;
    forall n: nat | 0 <= n <= 19 ensures IsPrime(n) <==> n == 2 || n == 3 || n == 5 || n == 7 || n == 11 || n == 13 || n == 17 || n == 19 {
      SievedIsPrime(n);
      if n <= 7 { Sieve0(n); } else { Sieve1(n); }
    }
  }

  lemma InOrder1(i: nat)
    requires 8 <= i < 16
    ensures IsNext(i)
  {
    PrimeRow1(); PrimeRow0();
    hide PRIMES, Sieved, IsPrime;
    forall n: nat | 20 <= n <= 53 ensures IsPrime(n) <==> n == 23 || n == 29 || n == 31 || n == 37 || n == 41 || n == 43 || n == 47 || n == 53 {
      SievedIsPrime(n);
      if n <= 37 { Sieve2(n); } else { Sieve3(n); }
    }
  }

  lemma InOrder2(i: nat)
    requires 16 <= i < 24
    ensures IsNext(i)
  {
    PrimeRow2(); PrimeRow1();
    hide PRIMES, Sieved, IsPrime;
    forall n: nat | 54 <= n <= 89 ensures IsPrime(n) <==> n == 59 || n == 61 || n == 67 || n == 71 || n == 73 || n == 79 || n == 83 || n == 89 {
      SievedIsPrime(n);
      if n <= 71 { Sieve4(n); } else { Sieve5(n); }
    }
  }

  lemma InOrder3(i: nat)
    requires 24 <= i < 32
    ensures IsNext(i)
  {
    PrimeRow3(); PrimeRow2();
    hide PRIMES, Sieved, IsPrime;
    forall n: nat | 90 <= n <= 131 ensures IsPrime(n) <==> n == 97 || n == 101 || n == 103 || n == 107 || n == 109 || n == 113 || n == 127 || n == 131 {
      SievedIsPrime(n);
      if n <= 107 { Sieve6(n); } else { Sieve7(n); }
    }
  }

  lemma InOrder4(i: nat)
    requires 32 <= i < 40
    ensures IsNext(i)
  {
    PrimeRow4(); PrimeRow3();
    hide PRIMES, Sieved, IsPrime;
    forall n: nat | 132 <= n <= 173 ensures IsPrime(n) <==> n == 137 || n == 139 || n == 149 || n == 151 || n == 157 || n == 163 || n == 167 || n == 173 {
      SievedIsPrime(n);
      if n <= 151 { Sieve8(n); } else { Sieve9(n); }
    }
  }

  lemma InOrder5(i: nat)
    requires 40 <= i < 48
    ensures IsNext(i)
  {
    PrimeRow5(); PrimeRow4();
    hide PRIMES, Sieved, IsPrime;
    forall n: nat | 174 <= n <= 223 ensures IsPrime(n) <==> n == 179 || n == 181 || n == 191 || n == 193 || n == 197 || n == 199 || n == 211 || n == 223 {
      SievedIsPrime(n);
      if n <= 193 { Sieve10(n); } else { Sieve11(n); }
    }
  }

  lemma InOrder6(i: nat)
    requires 48 <= i < 56
    ensures IsNext(i)
  {
    PrimeRow6(); PrimeRow5();
    hide PRIMES, Sieved, IsPrime;
    forall n: nat | 224 <= n <= 263 ensures IsPrime(n) <==> n == 227 || n == 229 || n == 233 || n == 239 || n == 241 || n == 251 || n == 257 || n == 263 {
      SievedIsPrime(n);
      if n <= 239 { Sieve12(n); } else { Sieve13(n); }
    }
  }

  lemma InOrder7(i: nat)
    requires 56 <= i < 64
    ensures IsNext(i)
  {
    PrimeRow7(); PrimeRow6();
    hide PRIMES, Sieved, IsPrime;
    forall n: nat | 264 <= n <= 311 ensures IsPrime(n) <==> n == 269 || n == 271 || n == 277 || n == 281 || n == 283 || n == 293 || n == 307 || n == 311 {
      SievedIsPrime(n);
      if n <= 281 { Sieve14(n); } else { Sieve15(n); }
    }
  }

  // ---------------------------------------------------------------------------
  // The constants as roots
  // ---------------------------------------------------------------------------

  const WORD := 0x1_0000_0000

  function Cube(x: nat): nat {
    x * x * x
  }

  function Number(w: Word): nat {
    w as int
  }

  /** p's cube root is n + f / 2^32 and less than 1 / 2^32 more. */
  predicate CubeRootIs(p: nat, n: nat, f: nat) {
    f < WORD && Cube(n * WORD + f) <= p * WORD * WORD * WORD < Cube(n * WORD + f + 1)
  }

  predicate SquareRootIs(p: nat, n: nat, f: nat) {
    f < WORD && (n * WORD + f) * (n * WORD + f) <= p * WORD * WORD < (n * WORD + f + 1) * (n * WORD + f + 1)
  }

  /** The word is the first 32 bits of the fraction of p's cube root. */
  ghost predicate CubeFraction(p: nat, k: Word) {
    exists n: nat :: CubeRootIs(p, n, Number(k))
  }

  ghost predicate SquareFraction(p: nat, h: Word) {
    exists n: nat :: SquareRootIs(p, n, Number(h))
  }

  lemma CubeRoot(p: nat, n: nat, k: Word)
    requires CubeRootIs(p, n, Number(k))
    ensures CubeFraction(p, k)
  {
  }

  lemma SquareRoot(p: nat, n: nat, h: Word)
    requires SquareRootIs(p, n, Number(h))
    ensures SquareFraction(p, h)
  {
  }

  predicate KRow(t: nat, k: Vars)
    requires t <= 56
  {
    && K[t] == k.a && K[t + 1] == k.b && K[t + 2] == k.c && K[t + 3] == k.d
    && K[t + 4] == k.e && K[t + 5] == k.f && K[t + 6] == k.g && K[t + 7] == k.h
  }

  const K0 := Vars(0x428a2f98, 0x71374491, 0xb5c0fbcf, 0xe9b5dba5, 0x3956c25b, 0x59f111f1, 0x923f82a4, 0xab1c5ed5)
  const K1 := Vars(0xd807aa98, 0x12835b01, 0x243185be, 0x550c7dc3, 0x72be5d74, 0x80deb1fe, 0x9bdc06a7, 0xc19bf174)
  const K2 := Vars(0xe49b69c1, 0xefbe4786, 0x0fc19dc6, 0x240ca1cc, 0x2de92c6f, 0x4a7484aa, 0x5cb0a9dc, 0x76f988da)
  const K3 := Vars(0x983e5152, 0xa831c66d, 0xb00327c8, 0xbf597fc7, 0xc6e00bf3, 0xd5a79147, 0x06ca6351, 0x14292967)
  const K4 := Vars(0x27b70a85, 0x2e1b2138, 0x4d2c6dfc, 0x53380d13, 0x650a7354, 0x766a0abb, 0x81c2c92e, 0x92722c85)
  const K5 := Vars(0xa2bfe8a1, 0xa81a664b, 0xc24b8b70, 0xc76c51a3, 0xd192e819, 0xd6990624, 0xf40e3585, 0x106aa070)
  const K6 := Vars(0x19a4c116, 0x1e376c08, 0x2748774c, 0x34b0bcb5, 0x391c0cb3, 0x4ed8aa4a, 0x5b9cca4f, 0x682e6ff3)
  const K7 := Vars(0x748f82ee, 0x78a5636f, 0x84c87814, 0x8cc70208, 0x90befffa, 0xa4506ceb, 0xbef9a3f7, 0xc67178f2)

  lemma KRow0()
    ensures KRow(0, K0)
  {
  }

  lemma Cubes0(i: nat)
    requires 0 <= i < 8
    ensures CubeFraction(PRIMES[i], K[i])
  {
    KRow0();
    PrimeRow0();
    hide K, PRIMES, CubeFraction;
    CubeRoot(2, 1, K0.a);
    CubeRoot(3, 1, K0.b);
    CubeRoot(5, 1, K0.c);
    CubeRoot(7, 1, K0.d);
    CubeRoot(11, 2, K0.e);
    CubeRoot(13, 2, K0.f);
    CubeRoot(17, 2, K0.g);
    CubeRoot(19, 2, K0.h);
  }

  lemma KRow1()
    ensures KRow(8, K1)
  {
  }

  lemma Cubes1(i: nat)
    requires 8 <= i < 16
    ensures CubeFraction(PRIMES[i], K[i])
  {
    KRow1();
    PrimeRow1();
    hide K, PRIMES, CubeFraction;
    CubeRoot(23, 2, K1.a);
    CubeRoot(29, 3, K1.b);
    CubeRoot(31, 3, K1.c);
    CubeRoot(37, 3, K1.d);
    CubeRoot(41, 3, K1.e);
    CubeRoot(43, 3, K1.f);
    CubeRoot(47, 3, K1.g);
    CubeRoot(53, 3, K1.h);
  }

  lemma KRow2()
    ensures KRow(16, K2)
  {
  }

  lemma Cubes2(i: nat)
    requires 16 <= i < 24
    ensures CubeFraction(PRIMES[i], K[i])
  {
    KRow2();
    PrimeRow2();
    hide K, PRIMES, CubeFraction;
    CubeRoot(59, 3, K2.a);
    CubeRoot(61, 3, K2.b);
    CubeRoot(67, 4, K2.c);
    CubeRoot(71, 4, K2.d);
    CubeRoot(73, 4, K2.e);
    CubeRoot(79, 4, K2.f);
    CubeRoot(83, 4, K2.g);
    CubeRoot(89, 4, K2.h);
  }

  lemma KRow3()
    ensures KRow(24, K3)
  {
  }

  lemma Cubes3(i: nat)
    requires 24 <= i < 32
    ensures CubeFraction(PRIMES[i], K[i])
  {
    KRow3();
    PrimeRow3();
    hide K, PRIMES, CubeFraction;
    CubeRoot(97, 4, K3.a);
    CubeRoot(101, 4, K3.b);
    CubeRoot(103, 4, K3.c);
    CubeRoot(107, 4, K3.d);
    CubeRoot(109, 4, K3.e);
    CubeRoot(113, 4, K3.f);
    CubeRoot(127, 5, K3.g);
    CubeRoot(131, 5, K3.h);
  }

  lemma KRow4()
    ensures KRow(32, K4)
  {
  }

  lemma Cubes4(i: nat)
    requires 32 <= i < 40
    ensures CubeFraction(PRIMES[i], K[i])
  {
    KRow4();
    PrimeRow4();
    hide K, PRIMES, CubeFraction;
    CubeRoot(137, 5, K4.a);
    CubeRoot(139, 5, K4.b);
    CubeRoot(149, 5, K4.c);
    CubeRoot(151, 5, K4.d);
    CubeRoot(157, 5, K4.e);
    CubeRoot(163, 5, K4.f);
    CubeRoot(167, 5, K4.g);
    CubeRoot(173, 5, K4.h);
  }

  lemma KRow5()
    ensures KRow(40, K5)
  {
  }

  lemma Cubes5(i: nat)
    requires 40 <= i < 48
    ensures CubeFraction(PRIMES[i], K[i])
  {
    KRow5();
    PrimeRow5();
    hide K, PRIMES, CubeFraction;
    CubeRoot(179, 5, K5.a);
    CubeRoot(181, 5, K5.b);
    CubeRoot(191, 5, K5.c);
    CubeRoot(193, 5, K5.d);
    CubeRoot(197, 5, K5.e);
    CubeRoot(199, 5, K5.f);
    CubeRoot(211, 5, K5.g);
    CubeRoot(223, 6, K5.h);
  }

  lemma KRow6()
    ensures KRow(48, K6)
  {
  }

  lemma Cubes6(i: nat)
    requires 48 <= i < 56
    ensures CubeFraction(PRIMES[i], K[i])
  {
    KRow6();
    PrimeRow6();
    hide K, PRIMES, CubeFraction;
    CubeRoot(227, 6, K6.a);
    CubeRoot(229, 6, K6.b);
    CubeRoot(233, 6, K6.c);
    CubeRoot(239, 6, K6.d);
    CubeRoot(241, 6, K6.e);
    CubeRoot(251, 6, K6.f);
    CubeRoot(257, 6, K6.g);
    CubeRoot(263, 6, K6.h);
  }

  lemma KRow7()
    ensures KRow(56, K7)
  {
  }

  lemma Cubes7(i: nat)
    requires 56 <= i < 64
    ensures CubeFraction(PRIMES[i], K[i])
  {
    KRow7();
    PrimeRow7();
    hide K, PRIMES, CubeFraction;
    CubeRoot(269, 6, K7.a);
    CubeRoot(271, 6, K7.b);
    CubeRoot(277, 6, K7.c);
    CubeRoot(281, 6, K7.d);
    CubeRoot(283, 6, K7.e);
    CubeRoot(293, 6, K7.f);
    CubeRoot(307, 6, K7.g);
    CubeRoot(311, 6, K7.h);
  }

  lemma Squares(i: nat)
    requires i < 8
    ensures SquareFraction(PRIMES[i], H0[i])
  {
    PrimeRow0();
    hide PRIMES, SquareFraction;
    SquareRoot(2, 1, 0x6a09e667);
    SquareRoot(3, 1, 0xbb67ae85);
    SquareRoot(5, 2, 0x3c6ef372);
    SquareRoot(7, 2, 0xa54ff53a);
    SquareRoot(11, 3, 0x510e527f);
    SquareRoot(13, 3, 0x9b05688c);
    SquareRoot(17, 4, 0x1f83d9ab);
    SquareRoot(19, 4, 0x5be0cd19);
  }

  /** In order from the first, PRIMES are the primes, and the constants are the fractions of their roots. */
  lemma ConstantsAreRoots(i: nat)
    requires i < 64
    ensures IsNext(i) && CubeFraction(PRIMES[i], K[i])
    ensures i < 8 ==> SquareFraction(PRIMES[i], H0[i])
  {
    hide IsNext, CubeFraction, SquareFraction, K, H0, PRIMES;
    if i < 8 {
      InOrder0(i);
      Cubes0(i);
      Squares(i);
    } else if i < 16 {
      InOrder1(i);
      Cubes1(i);
    } else if i < 24 {
      InOrder2(i);
      Cubes2(i);
    } else if i < 32 {
      InOrder3(i);
      Cubes3(i);
    } else if i < 40 {
      InOrder4(i);
      Cubes4(i);
    } else if i < 48 {
      InOrder5(i);
      Cubes5(i);
    } else if i < 56 {
      InOrder6(i);
      Cubes6(i);
    } else {
      InOrder7(i);
      Cubes7(i);
    }
  }
}
