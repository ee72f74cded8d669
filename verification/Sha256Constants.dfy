/**
 Where the constants of SHA-256 come from, as sections 4.2.2 and 5.3.3 of FIPS 180-4 state it: the first thirty-two bits
 of the fractional parts of the cube roots of the first sixty-four primes, and of the square roots of the first eight.
 */
module Sha256Constants {
  import opened Sha256

  // ----- the first sixty-four primes

  const PRIMES: seq<nat> :=
    [2, 3, 5, 7, 11, 13, 17, 19] +
    [23, 29, 31, 37, 41, 43, 47, 53] +
    [59, 61, 67, 71, 73, 79, 83, 89] +
    [97, 101, 103, 107, 109, 113, 127, 131] +
    [137, 139, 149, 151, 157, 163, 167, 173] +
    [179, 181, 191, 193, 197, 199, 211, 223] +
    [227, 229, 233, 239, 241, 251, 257, 263] +
    [269, 271, 277, 281, 283, 293, 307, 311]

  ghost predicate IsPrime(p: nat) { p >= 2 && forall a: nat, b: nat :: a >= 2 && b >= 2 ==> a * b != p }

  /** The number is that prime, or no multiple of it. */
  predicate Clear(p: nat, q: nat)
    requires q > 0
  {
    p == q || p % q != 0
  }

  /** None of the primes below 18 divides p, but for itself. */
  predicate Sieved(p: nat) {
    && p >= 2 && Clear(p, 2) && Clear(p, 3) && Clear(p, 5) && Clear(p, 7) && Clear(p, 11) && Clear(p, 13)
      && Clear(p, 17)
  }

  lemma MultipleModulo(q: nat, m: nat)
    requires q > 0
    ensures q * m % q == 0
  {
    var p := q * m;
    var k := m - p / q;
    assert q * k == p - q * (p / q) == p % q;
    assert k >= 1 ==> q * k >= q;
    assert k <= -1 ==> q * k + q <= 0;
  }

  lemma ClearMeans(p: nat, q: nat, m: nat)
    requires q > 0 && Clear(p, q) && m >= 2
    ensures p != q * m
  {
    MultipleModulo(q, m);
    assert m >= 2 ==> q * m > q;
  }

  lemma NoMultiple(p: nat, q: nat, m: nat)
    requires q == 2 || q == 3 || q == 5 || q == 7 || q == 11 || q == 13 || q == 17
    requires Sieved(p) && m >= 2
    ensures p != q * m
  {
    hide Clear;
    ClearMeans(p, q, m);
  }

  /** Each number below 18 is one of those primes, twice a number, or three times one. */
  lemma NoSmallFactor(p: nat, d: nat, e: nat)
    requires Sieved(p) && 2 <= d < 18 && e >= 2
    ensures p != d * e
  {
    hide Sieved;
    if d % 2 == 0 {
      Regroups(2, d / 2, e);
      NoMultiple(p, 2, d / 2 * e);
    } else if d % 3 == 0 {
      Regroups(3, d / 3, e);
      NoMultiple(p, 3, d / 3 * e);
    } else {
      NoMultiple(p, d, e);
    }
  }

  lemma Regroups(q: nat, f: nat, e: nat)
    requires f >= 1 && e >= 2
    ensures q * f * e == q * (f * e) && f * e >= 2
  {
    assert f * e >= e;
  }

  lemma LargeFactors(a: nat, b: nat)
    requires a >= 18 && b >= 18
    ensures a * b >= 324
  {
    assert a * b >= 18 * b;
  }

  lemma SievedIsPrime(p: nat)
    requires p < 324 && Sieved(p)
    ensures IsPrime(p)
  {
    hide Clear;
    forall a: nat, b: nat | a >= 2 && b >= 2 ensures a * b != p {
      if a >= 18 && b >= 18 {
        LargeFactors(a, b);
      } else if a < 18 {
        NoSmallFactor(p, a, b);
      } else {
        NoSmallFactor(p, b, a);
        assert a * b == b * a;
      }
    }
  }

  lemma PrimeIsClear(p: nat, q: nat)
    requires IsPrime(p) && q >= 2
    ensures Clear(p, q)
  {
    if p % q == 0 {
      assert q * (p / q) == p;
    }
  }

  lemma PrimeIsSieved(p: nat)
    requires IsPrime(p)
    ensures Sieved(p)
  {
    hide Clear, IsPrime;
    PrimeIsAtLeastTwo(p);
    PrimeIsClear(p, 2);
    PrimeIsClear(p, 3);
    PrimeIsClear(p, 5);
    PrimeIsClear(p, 7);
    PrimeIsClear(p, 11);
    PrimeIsClear(p, 13);
    PrimeIsClear(p, 17);
  }

  lemma PrimeIsAtLeastTwo(p: nat)
    requires IsPrime(p)
    ensures p >= 2
  {
  }

  lemma Sieve1(p: nat)
    requires 0 <= p < 11
    ensures Sieved(p) <==> p == 2 || p == 3 || p == 5 || p == 7
  {
  }

  lemma Sieve2(p: nat)
    requires 11 <= p < 23
    ensures Sieved(p) <==> p == 11 || p == 13 || p == 17 || p == 19
  {
  }

  lemma Sieve3(p: nat)
    requires 23 <= p < 41
    ensures Sieved(p) <==> p == 23 || p == 29 || p == 31 || p == 37
  {
  }

  lemma Sieve4(p: nat)
    requires 41 <= p < 59
    ensures Sieved(p) <==> p == 41 || p == 43 || p == 47 || p == 53
  {
  }

  lemma Sieve5(p: nat)
    requires 59 <= p < 73
    ensures Sieved(p) <==> p == 59 || p == 61 || p == 67 || p == 71
  {
  }

  lemma Sieve6(p: nat)
    requires 73 <= p < 97
    ensures Sieved(p) <==> p == 73 || p == 79 || p == 83 || p == 89
  {
  }

  lemma Sieve7(p: nat)
    requires 97 <= p < 109
    ensures Sieved(p) <==> p == 97 || p == 101 || p == 103 || p == 107
  {
  }

  lemma Sieve8(p: nat)
    requires 109 <= p < 137
    ensures Sieved(p) <==> p == 109 || p == 113 || p == 127 || p == 131
  {
  }

  lemma Sieve9(p: nat)
    requires 137 <= p < 157
    ensures Sieved(p) <==> p == 137 || p == 139 || p == 149 || p == 151
  {
  }

  lemma Sieve10(p: nat)
    requires 157 <= p < 179
    ensures Sieved(p) <==> p == 157 || p == 163 || p == 167 || p == 173
  {
  }

  lemma Sieve11(p: nat)
    requires 179 <= p < 197
    ensures Sieved(p) <==> p == 179 || p == 181 || p == 191 || p == 193
  {
  }

  lemma Sieve12(p: nat)
    requires 197 <= p < 227
    ensures Sieved(p) <==> p == 197 || p == 199 || p == 211 || p == 223
  {
  }

  lemma Sieve13(p: nat)
    requires 227 <= p < 241
    ensures Sieved(p) <==> p == 227 || p == 229 || p == 233 || p == 239
  {
  }

  lemma Sieve14(p: nat)
    requires 241 <= p < 269
    ensures Sieved(p) <==> p == 241 || p == 251 || p == 257 || p == 263
  {
  }

  lemma Sieve15(p: nat)
    requires 269 <= p < 283
    ensures Sieved(p) <==> p == 269 || p == 271 || p == 277 || p == 281
  {
  }

  lemma Sieve16(p: nat)
    requires 283 <= p < 312
    ensures Sieved(p) <==> p == 283 || p == 293 || p == 307 || p == 311
  {
  }

  lemma Listed(p: nat)
    ensures p in PRIMES <==> (
      p == 2 || p == 3 || p == 5 || p == 7 || p == 11 || p == 13 || p == 17 || p == 19 ||
      p == 23 || p == 29 || p == 31 || p == 37 || p == 41 || p == 43 || p == 47 || p == 53 ||
      p == 59 || p == 61 || p == 67 || p == 71 || p == 73 || p == 79 || p == 83 || p == 89 ||
      p == 97 || p == 101 || p == 103 || p == 107 || p == 109 || p == 113 || p == 127 || p == 131 ||
      p == 137 || p == 139 || p == 149 || p == 151 || p == 157 || p == 163 || p == 167 || p == 173 ||
      p == 179 || p == 181 || p == 191 || p == 193 || p == 197 || p == 199 || p == 211 || p == 223 ||
      p == 227 || p == 229 || p == 233 || p == 239 || p == 241 || p == 251 || p == 257 || p == 263 ||
      p == 269 || p == 271 || p == 277 || p == 281 || p == 283 || p == 293 || p == 307 || p == 311)
  {
  }

  lemma SieveLists(p: nat)
    ensures p < 312 && Sieved(p) <==> p in PRIMES
  {
    hide Sieved;
    Listed(p);
    if 0 <= p < 11 { Sieve1(p); }
    if 11 <= p < 23 { Sieve2(p); }
    if 23 <= p < 41 { Sieve3(p); }
    if 41 <= p < 59 { Sieve4(p); }
    if 59 <= p < 73 { Sieve5(p); }
    if 73 <= p < 97 { Sieve6(p); }
    if 97 <= p < 109 { Sieve7(p); }
    if 109 <= p < 137 { Sieve8(p); }
    if 137 <= p < 157 { Sieve9(p); }
    if 157 <= p < 179 { Sieve10(p); }
    if 179 <= p < 197 { Sieve11(p); }
    if 197 <= p < 227 { Sieve12(p); }
    if 227 <= p < 241 { Sieve13(p); }
    if 241 <= p < 269 { Sieve14(p); }
    if 269 <= p < 283 { Sieve15(p); }
    if 283 <= p < 312 { Sieve16(p); }
  }

  lemma PrimesIncreaseFirst()
    ensures |PRIMES| == 64 && forall i :: 0 <= i < 32 ==> PRIMES[i] < PRIMES[i + 1]
  {
  }

  lemma PrimesIncreaseLast()
    ensures |PRIMES| == 64 && forall i :: 32 <= i < 63 ==> PRIMES[i] < PRIMES[i + 1]
  {
  }

  /** The table holds exactly the primes below 312, in increasing order, and there are sixty-four of them. */
  lemma FirstSixtyFourPrimes(p: nat)
    ensures |PRIMES| == 64 && forall i :: 0 <= i < 63 ==> PRIMES[i] < PRIMES[i + 1]
    ensures p in PRIMES <==> IsPrime(p) && p < 312
  {
    hide Sieved, IsPrime, PRIMES;
    PrimesIncreaseFirst();
    PrimesIncreaseLast();
    SieveLists(p);
    if p < 312 && Sieved(p) { SievedIsPrime(p); }
    if IsPrime(p) { PrimeIsSieved(p); }
  }

  // ----- the fractional parts of their roots

  /** n is the cube root of p, scaled by 2^32 and rounded down. */
  predicate CubeRoot(p: nat, n: nat) {
    n * n * n <= p * 0x1_0000_0000_0000_0000_0000_0000 < (n + 1) * (n + 1) * (n + 1)
  }

  /** n is the square root of p, scaled by 2^32 and rounded down. */
  predicate SquareRoot(p: nat, n: nat) { n * n <= p * 0x1_0000_0000_0000_0000 < (n + 1) * (n + 1) }

  /** The word is the first thirty-two bits of the fractional part of the cube root of p. */
  ghost predicate CubeFraction(p: nat, k: word) {
    exists n: nat :: CubeRoot(p, n) && k as int == n % 0x1_0000_0000
  }

  ghost predicate SquareFraction(p: nat, k: word) {
    exists n: nat :: SquareRoot(p, n) && k as int == n % 0x1_0000_0000
  }

  lemma CubeRoots1()
    ensures |K| == 64 && |PRIMES| == 64
    ensures forall t :: 0 <= t < 4 ==> CubeFraction(PRIMES[t], K[t])
  {
    assert CubeRoot(PRIMES[0], 0x1428a2f98) && K[0] as int == 0x428a2f98;
    assert CubeRoot(PRIMES[1], 0x171374491) && K[1] as int == 0x71374491;
    assert CubeRoot(PRIMES[2], 0x1b5c0fbcf) && K[2] as int == 0xb5c0fbcf;
    assert CubeRoot(PRIMES[3], 0x1e9b5dba5) && K[3] as int == 0xe9b5dba5;
  }

  lemma CubeRoots2()
    ensures |K| == 64 && |PRIMES| == 64
    ensures forall t :: 4 <= t < 8 ==> CubeFraction(PRIMES[t], K[t])
  {
    assert CubeRoot(PRIMES[4], 0x23956c25b) && K[4] as int == 0x3956c25b;
    assert CubeRoot(PRIMES[5], 0x259f111f1) && K[5] as int == 0x59f111f1;
    assert CubeRoot(PRIMES[6], 0x2923f82a4) && K[6] as int == 0x923f82a4;
    assert CubeRoot(PRIMES[7], 0x2ab1c5ed5) && K[7] as int == 0xab1c5ed5;
  }

  lemma CubeRoots3()
    ensures |K| == 64 && |PRIMES| == 64
    ensures forall t :: 8 <= t < 12 ==> CubeFraction(PRIMES[t], K[t])
  {
    assert CubeRoot(PRIMES[8], 0x2d807aa98) && K[8] as int == 0xd807aa98;
    assert CubeRoot(PRIMES[9], 0x312835b01) && K[9] as int == 0x12835b01;
    assert CubeRoot(PRIMES[10], 0x3243185be) && K[10] as int == 0x243185be;
    assert CubeRoot(PRIMES[11], 0x3550c7dc3) && K[11] as int == 0x550c7dc3;
  }

  lemma CubeRoots4()
    ensures |K| == 64 && |PRIMES| == 64
    ensures forall t :: 12 <= t < 16 ==> CubeFraction(PRIMES[t], K[t])
  {
    assert CubeRoot(PRIMES[12], 0x372be5d74) && K[12] as int == 0x72be5d74;
    assert CubeRoot(PRIMES[13], 0x380deb1fe) && K[13] as int == 0x80deb1fe;
    assert CubeRoot(PRIMES[14], 0x39bdc06a7) && K[14] as int == 0x9bdc06a7;
    assert CubeRoot(PRIMES[15], 0x3c19bf174) && K[15] as int == 0xc19bf174;
  }

  lemma CubeRoots5()
    ensures |K| == 64 && |PRIMES| == 64
    ensures forall t :: 16 <= t < 20 ==> CubeFraction(PRIMES[t], K[t])
  {
    assert CubeRoot(PRIMES[16], 0x3e49b69c1) && K[16] as int == 0xe49b69c1;
    assert CubeRoot(PRIMES[17], 0x3efbe4786) && K[17] as int == 0xefbe4786;
    assert CubeRoot(PRIMES[18], 0x40fc19dc6) && K[18] as int == 0xfc19dc6;
    assert CubeRoot(PRIMES[19], 0x4240ca1cc) && K[19] as int == 0x240ca1cc;
  }

  lemma CubeRoots6()
    ensures |K| == 64 && |PRIMES| == 64
    ensures forall t :: 20 <= t < 24 ==> CubeFraction(PRIMES[t], K[t])
  {
    assert CubeRoot(PRIMES[20], 0x42de92c6f) && K[20] as int == 0x2de92c6f;
    assert CubeRoot(PRIMES[21], 0x44a7484aa) && K[21] as int == 0x4a7484aa;
    assert CubeRoot(PRIMES[22], 0x45cb0a9dc) && K[22] as int == 0x5cb0a9dc;
    assert CubeRoot(PRIMES[23], 0x476f988da) && K[23] as int == 0x76f988da;
  }

  lemma CubeRoots7()
    ensures |K| == 64 && |PRIMES| == 64
    ensures forall t :: 24 <= t < 28 ==> CubeFraction(PRIMES[t], K[t])
  {
    assert CubeRoot(PRIMES[24], 0x4983e5152) && K[24] as int == 0x983e5152;
    assert CubeRoot(PRIMES[25], 0x4a831c66d) && K[25] as int == 0xa831c66d;
    assert CubeRoot(PRIMES[26], 0x4b00327c8) && K[26] as int == 0xb00327c8;
    assert CubeRoot(PRIMES[27], 0x4bf597fc7) && K[27] as int == 0xbf597fc7;
  }

  lemma CubeRoots8()
    ensures |K| == 64 && |PRIMES| == 64
    ensures forall t :: 28 <= t < 32 ==> CubeFraction(PRIMES[t], K[t])
  {
    assert CubeRoot(PRIMES[28], 0x4c6e00bf3) && K[28] as int == 0xc6e00bf3;
    assert CubeRoot(PRIMES[29], 0x4d5a79147) && K[29] as int == 0xd5a79147;
    assert CubeRoot(PRIMES[30], 0x506ca6351) && K[30] as int == 0x6ca6351;
    assert CubeRoot(PRIMES[31], 0x514292967) && K[31] as int == 0x14292967;
  }

  lemma CubeRoots9()
    ensures |K| == 64 && |PRIMES| == 64
    ensures forall t :: 32 <= t < 36 ==> CubeFraction(PRIMES[t], K[t])
  {
    assert CubeRoot(PRIMES[32], 0x527b70a85) && K[32] as int == 0x27b70a85;
    assert CubeRoot(PRIMES[33], 0x52e1b2138) && K[33] as int == 0x2e1b2138;
    assert CubeRoot(PRIMES[34], 0x54d2c6dfc) && K[34] as int == 0x4d2c6dfc;
    assert CubeRoot(PRIMES[35], 0x553380d13) && K[35] as int == 0x53380d13;
  }

  lemma CubeRoots10()
    ensures |K| == 64 && |PRIMES| == 64
    ensures forall t :: 36 <= t < 40 ==> CubeFraction(PRIMES[t], K[t])
  {
    assert CubeRoot(PRIMES[36], 0x5650a7354) && K[36] as int == 0x650a7354;
    assert CubeRoot(PRIMES[37], 0x5766a0abb) && K[37] as int == 0x766a0abb;
    assert CubeRoot(PRIMES[38], 0x581c2c92e) && K[38] as int == 0x81c2c92e;
    assert CubeRoot(PRIMES[39], 0x592722c85) && K[39] as int == 0x92722c85;
  }

  lemma CubeRoots11()
    ensures |K| == 64 && |PRIMES| == 64
    ensures forall t :: 40 <= t < 44 ==> CubeFraction(PRIMES[t], K[t])
  {
    assert CubeRoot(PRIMES[40], 0x5a2bfe8a1) && K[40] as int == 0xa2bfe8a1;
    assert CubeRoot(PRIMES[41], 0x5a81a664b) && K[41] as int == 0xa81a664b;
    assert CubeRoot(PRIMES[42], 0x5c24b8b70) && K[42] as int == 0xc24b8b70;
    assert CubeRoot(PRIMES[43], 0x5c76c51a3) && K[43] as int == 0xc76c51a3;
  }

  lemma CubeRoots12()
    ensures |K| == 64 && |PRIMES| == 64
    ensures forall t :: 44 <= t < 48 ==> CubeFraction(PRIMES[t], K[t])
  {
    assert CubeRoot(PRIMES[44], 0x5d192e819) && K[44] as int == 0xd192e819;
    assert CubeRoot(PRIMES[45], 0x5d6990624) && K[45] as int == 0xd6990624;
    assert CubeRoot(PRIMES[46], 0x5f40e3585) && K[46] as int == 0xf40e3585;
    assert CubeRoot(PRIMES[47], 0x6106aa070) && K[47] as int == 0x106aa070;
  }

  lemma CubeRoots13()
    ensures |K| == 64 && |PRIMES| == 64
    ensures forall t :: 48 <= t < 52 ==> CubeFraction(PRIMES[t], K[t])
  {
    assert CubeRoot(PRIMES[48], 0x619a4c116) && K[48] as int == 0x19a4c116;
    assert CubeRoot(PRIMES[49], 0x61e376c08) && K[49] as int == 0x1e376c08;
    assert CubeRoot(PRIMES[50], 0x62748774c) && K[50] as int == 0x2748774c;
    assert CubeRoot(PRIMES[51], 0x634b0bcb5) && K[51] as int == 0x34b0bcb5;
  }

  lemma CubeRoots14()
    ensures |K| == 64 && |PRIMES| == 64
    ensures forall t :: 52 <= t < 56 ==> CubeFraction(PRIMES[t], K[t])
  {
    assert CubeRoot(PRIMES[52], 0x6391c0cb3) && K[52] as int == 0x391c0cb3;
    assert CubeRoot(PRIMES[53], 0x64ed8aa4a) && K[53] as int == 0x4ed8aa4a;
    assert CubeRoot(PRIMES[54], 0x65b9cca4f) && K[54] as int == 0x5b9cca4f;
    assert CubeRoot(PRIMES[55], 0x6682e6ff3) && K[55] as int == 0x682e6ff3;
  }

  lemma CubeRoots15()
    ensures |K| == 64 && |PRIMES| == 64
    ensures forall t :: 56 <= t < 60 ==> CubeFraction(PRIMES[t], K[t])
  {
    assert CubeRoot(PRIMES[56], 0x6748f82ee) && K[56] as int == 0x748f82ee;
    assert CubeRoot(PRIMES[57], 0x678a5636f) && K[57] as int == 0x78a5636f;
    assert CubeRoot(PRIMES[58], 0x684c87814) && K[58] as int == 0x84c87814;
    assert CubeRoot(PRIMES[59], 0x68cc70208) && K[59] as int == 0x8cc70208;
  }

  lemma CubeRoots16()
    ensures |K| == 64 && |PRIMES| == 64
    ensures forall t :: 60 <= t < 64 ==> CubeFraction(PRIMES[t], K[t])
  {
    assert CubeRoot(PRIMES[60], 0x690befffa) && K[60] as int == 0x90befffa;
    assert CubeRoot(PRIMES[61], 0x6a4506ceb) && K[61] as int == 0xa4506ceb;
    assert CubeRoot(PRIMES[62], 0x6bef9a3f7) && K[62] as int == 0xbef9a3f7;
    assert CubeRoot(PRIMES[63], 0x6c67178f2) && K[63] as int == 0xc67178f2;
  }

  /** Section 4.2.2: the constants of the rounds come from the cube roots of the first sixty-four primes. */
  lemma RoundConstants(t: nat)
    requires t < 64
    ensures |K| == 64 && |PRIMES| == 64 && CubeFraction(PRIMES[t], K[t])
  {
    hide CubeFraction;
    CubeRoots1();
    CubeRoots2();
    CubeRoots3();
    CubeRoots4();
    CubeRoots5();
    CubeRoots6();
    CubeRoots7();
    CubeRoots8();
    CubeRoots9();
    CubeRoots10();
    CubeRoots11();
    CubeRoots12();
    CubeRoots13();
    CubeRoots14();
    CubeRoots15();
    CubeRoots16();
  }

  /** Section 5.3.3: the initial hash value comes from the square roots of the first eight primes. */
  lemma InitialHashValue(t: nat)
    requires t < 8
    ensures |INITIAL| == 8 && |PRIMES| == 64 && SquareFraction(PRIMES[t], INITIAL[t])
  {
    assert SquareRoot(PRIMES[0], 0x16a09e667) && INITIAL[0] as int == 0x6a09e667;
    assert SquareRoot(PRIMES[1], 0x1bb67ae85) && INITIAL[1] as int == 0xbb67ae85;
    assert SquareRoot(PRIMES[2], 0x23c6ef372) && INITIAL[2] as int == 0x3c6ef372;
    assert SquareRoot(PRIMES[3], 0x2a54ff53a) && INITIAL[3] as int == 0xa54ff53a;
    assert SquareRoot(PRIMES[4], 0x3510e527f) && INITIAL[4] as int == 0x510e527f;
    assert SquareRoot(PRIMES[5], 0x39b05688c) && INITIAL[5] as int == 0x9b05688c;
    assert SquareRoot(PRIMES[6], 0x41f83d9ab) && INITIAL[6] as int == 0x1f83d9ab;
    assert SquareRoot(PRIMES[7], 0x45be0cd19) && INITIAL[7] as int == 0x5be0cd19;
  }
}
