/**
 The one-block example that NIST publishes for SHA-256: the definition of FIPS 180-4 gives its digest of "abc". Each
 word of the schedule and each round is evaluated on its own.
 */
module Sha256Vectors {
  import opened Types
  import opened Sha256

  // ----- eight steps at a time

  /** The eight words of the schedule from here on. */
  ghost predicate Scheduled(block: seq<byte>, at: nat, w: seq<word>)
    requires |block| == 64 && |w| == 8
  {
    && Schedule(block, at) == w[0] && Schedule(block, at + 1) == w[1]
    && Schedule(block, at + 2) == w[2] && Schedule(block, at + 3) == w[3]
    && Schedule(block, at + 4) == w[4] && Schedule(block, at + 5) == w[5]
    && Schedule(block, at + 6) == w[6] && Schedule(block, at + 7) == w[7]
  }

  lemma NextWord(block: seq<byte>, t: nat, x: word, y: word, z: word, u: word, w: word)
    requires |block| == 64 && t >= 16 && Add4(Small1(x), y, Small0(z), u) == w
    requires Schedule(block, t - 2) == x && Schedule(block, t - 7) == y
    requires Schedule(block, t - 15) == z && Schedule(block, t - 16) == u
    ensures Schedule(block, t) == w
  {
    hide Add4, Small0, Small1;
  }

  /** Eight rounds in a row, with their constants and words. */
  predicate Turn(v: seq<Vars>, k: seq<word>, w: seq<word>)
    requires |v| == 9 && |k| == |w| == 8
  {
    forall i :: 0 <= i < 8 ==> v[i + 1] == Round(v[i], k[i], w[i])
  }

  lemma EightRounds(h: Vars, block: seq<byte>, at: nat, v: seq<Vars>, k: seq<word>, w: seq<word>)
    requires |block| == 64 && at + 8 <= |K| && |v| == 9 && |k| == |w| == 8 && Turn(v, k, w)
    requires k == K[at..at + 8] && Scheduled(block, at, w) && Rounds(h, block, at) == v[0]
    ensures Rounds(h, block, at + 8) == v[8]
  {
    hide Schedule, Round, K;
    assert forall i :: 0 <= i < 8 ==> Schedule(block, at + i) == w[i];
    for i := 0 to 8
      invariant Rounds(h, block, at + i) == v[i]
    {
    }
  }

  lemma Constants1()
    ensures |K| == 64
      && K[0..8] == [0x428a2f98, 0x71374491, 0xb5c0fbcf, 0xe9b5dba5, 0x3956c25b, 0x59f111f1, 0x923f82a4, 0xab1c5ed5]
  {
  }

  lemma Constants2()
    ensures |K| == 64
      && K[8..16] == [0xd807aa98, 0x12835b01, 0x243185be, 0x550c7dc3, 0x72be5d74, 0x80deb1fe, 0x9bdc06a7, 0xc19bf174]
  {
  }

  lemma Constants3()
    ensures |K| == 64
      && K[16..24] == [0xe49b69c1, 0xefbe4786, 0x0fc19dc6, 0x240ca1cc, 0x2de92c6f, 0x4a7484aa, 0x5cb0a9dc, 0x76f988da]
  {
  }

  lemma Constants4()
    ensures |K| == 64
      && K[24..32] == [0x983e5152, 0xa831c66d, 0xb00327c8, 0xbf597fc7, 0xc6e00bf3, 0xd5a79147, 0x06ca6351, 0x14292967]
  {
  }

  lemma Constants5()
    ensures |K| == 64
      && K[32..40] == [0x27b70a85, 0x2e1b2138, 0x4d2c6dfc, 0x53380d13, 0x650a7354, 0x766a0abb, 0x81c2c92e, 0x92722c85]
  {
  }

  lemma Constants6()
    ensures |K| == 64
      && K[40..48] == [0xa2bfe8a1, 0xa81a664b, 0xc24b8b70, 0xc76c51a3, 0xd192e819, 0xd6990624, 0xf40e3585, 0x106aa070]
  {
  }

  lemma Constants7()
    ensures |K| == 64
      && K[48..56] == [0x19a4c116, 0x1e376c08, 0x2748774c, 0x34b0bcb5, 0x391c0cb3, 0x4ed8aa4a, 0x5b9cca4f, 0x682e6ff3]
  {
  }

  lemma Constants8()
    ensures |K| == 64
      && K[56..64] == [0x748f82ee, 0x78a5636f, 0x84c87814, 0x8cc70208, 0x90befffa, 0xa4506ceb, 0xbef9a3f7, 0xc67178f2]
  {
  }

  // ----- one block

  ghost predicate Words(block: seq<byte>, at: nat, w: seq<word>)
    requires |block| == 64 && |w| == 8 && at <= 8
  {
    forall i :: 0 <= i < 8 ==> Word(block, 4 * (at + i)) == w[i]
  }

  lemma WordsScheduled(block: seq<byte>, at: nat, w: seq<word>)
    requires |block| == 64 && |w| == 8 && at <= 8 && Words(block, at, w)
    ensures Scheduled(block, at, w)
  {
    hide Word, Schedule;
    forall i | 0 <= i < 8 ensures Schedule(block, at + i) == w[i] { ScheduleStarts(block, at + i); }
  }

  lemma NoRounds(h: Vars, block: seq<byte>)
    requires |block| == 64
    ensures Rounds(h, block, 0) == h
  {
  }

  lemma NextHashIs(h: seq<word>, block: seq<byte>, v: Vars, next: seq<word>)
    requires |h| == 8 && |block| == 64 && |next| == 8 && |K| == 64 && Rounds(ToVars(h), block, 64) == v
    requires Sums(FromVars(v), h) == next
    ensures NextHash(h, block) == next
  {
    hide Rounds, K, Sums;
  }

  // ----- bytes

  lemma WordOfSlice(b: seq<byte>, at: nat, c: seq<byte>)
    requires at + 4 <= |b| && |c| == 4 && b[at..at + 4] == c
    ensures Word(b, at) == Word(c, 0)
  {
    assert b[at..at + 4][0] == b[at] && b[at..at + 4][1] == b[at + 1];
  }

  lemma Joined(c: seq<byte>, p: word, q: word, r: word, s: word)
    requires |c| == 4 && c[0] as bv32 == p && c[1] as bv32 == q && c[2] as bv32 == r && c[3] as bv32 == s
    ensures Word(c, 0) == (p << 24) | (q << 16) | (r << 8) | s
  {
  }

  // ----- the block of "abc"

  const AbcW1: seq<word> := [0x61626380, 0x00000000, 0x00000000, 0x00000000, 0x00000000, 0x00000000, 0x00000000,
                             0x00000000]
  const AbcW2: seq<word> := [0x00000000, 0x00000000, 0x00000000, 0x00000000, 0x00000000, 0x00000000, 0x00000000,
                             0x00000018]
  const AbcW3: seq<word> := [0x61626380, 0x000f0000, 0x7da86405, 0x600003c6, 0x3e9d7b78, 0x0183fc00, 0x12dcbfdb,
                             0xe2e2c38e]
  const AbcW4: seq<word> := [0xc8215c1a, 0xb73679a2, 0xe5bc3909, 0x32663c5b, 0x9d209d67, 0xec8726cb, 0x702138a4,
                             0xd3b7973b]
  const AbcW5: seq<word> := [0x93f5997f, 0x3b68ba73, 0xaff4ffc1, 0xf10a5c62, 0x0a8b3996, 0x72af830a, 0x9409e33e,
                             0x24641522]
  const AbcW6: seq<word> := [0x9f47bf94, 0xf0a64f5a, 0x3e246a79, 0x27333ba3, 0x0c4763f2, 0x840abf27, 0x7a290d5d,
                             0x065c43da]
  const AbcW7: seq<word> := [0xfb3e89cb, 0xcc7617db, 0xb9e66c34, 0xa9993667, 0x84badedd, 0xc21462bc, 0x1487472c,
                             0xb20f7a99]
  const AbcW8: seq<word> := [0xef57b9cd, 0xebe6b238, 0x9fe3095e, 0x78bc8d4b, 0xa43fcf15, 0x668b2ff8, 0xeeaba2cc,
                             0x12b1edeb]

  lemma AbcSchedule1(block: seq<byte>)
    requires |block| == 64 && Scheduled(block, 0, AbcW1) && Scheduled(block, 8, AbcW2)
    ensures Scheduled(block, 16, AbcW3)
  {
    hide Schedule;
    NextWord(block, 16, 0x00000000, 0x00000000, 0x00000000, 0x61626380, 0x61626380);
    NextWord(block, 17, 0x00000018, 0x00000000, 0x00000000, 0x00000000, 0x000f0000);
    NextWord(block, 18, 0x61626380, 0x00000000, 0x00000000, 0x00000000, 0x7da86405);
    NextWord(block, 19, 0x000f0000, 0x00000000, 0x00000000, 0x00000000, 0x600003c6);
    NextWord(block, 20, 0x7da86405, 0x00000000, 0x00000000, 0x00000000, 0x3e9d7b78);
    NextWord(block, 21, 0x600003c6, 0x00000000, 0x00000000, 0x00000000, 0x0183fc00);
    NextWord(block, 22, 0x3e9d7b78, 0x00000018, 0x00000000, 0x00000000, 0x12dcbfdb);
    NextWord(block, 23, 0x0183fc00, 0x61626380, 0x00000000, 0x00000000, 0xe2e2c38e);
  }

  lemma AbcSchedule2(block: seq<byte>)
    requires |block| == 64 && Scheduled(block, 8, AbcW2) && Scheduled(block, 16, AbcW3)
    ensures Scheduled(block, 24, AbcW4)
  {
    hide Schedule;
    NextWord(block, 24, 0x12dcbfdb, 0x000f0000, 0x00000000, 0x00000000, 0xc8215c1a);
    NextWord(block, 25, 0xe2e2c38e, 0x7da86405, 0x00000000, 0x00000000, 0xb73679a2);
    NextWord(block, 26, 0xc8215c1a, 0x600003c6, 0x00000000, 0x00000000, 0xe5bc3909);
    NextWord(block, 27, 0xb73679a2, 0x3e9d7b78, 0x00000000, 0x00000000, 0x32663c5b);
    NextWord(block, 28, 0xe5bc3909, 0x0183fc00, 0x00000000, 0x00000000, 0x9d209d67);
    NextWord(block, 29, 0x32663c5b, 0x12dcbfdb, 0x00000000, 0x00000000, 0xec8726cb);
    NextWord(block, 30, 0x9d209d67, 0xe2e2c38e, 0x00000018, 0x00000000, 0x702138a4);
    NextWord(block, 31, 0xec8726cb, 0xc8215c1a, 0x61626380, 0x00000018, 0xd3b7973b);
  }

  lemma AbcSchedule3(block: seq<byte>)
    requires |block| == 64 && Scheduled(block, 16, AbcW3) && Scheduled(block, 24, AbcW4)
    ensures Scheduled(block, 32, AbcW5)
  {
    hide Schedule;
    NextWord(block, 32, 0x702138a4, 0xb73679a2, 0x000f0000, 0x61626380, 0x93f5997f);
    NextWord(block, 33, 0xd3b7973b, 0xe5bc3909, 0x7da86405, 0x000f0000, 0x3b68ba73);
    NextWord(block, 34, 0x93f5997f, 0x32663c5b, 0x600003c6, 0x7da86405, 0xaff4ffc1);
    NextWord(block, 35, 0x3b68ba73, 0x9d209d67, 0x3e9d7b78, 0x600003c6, 0xf10a5c62);
    NextWord(block, 36, 0xaff4ffc1, 0xec8726cb, 0x0183fc00, 0x3e9d7b78, 0x0a8b3996);
    NextWord(block, 37, 0xf10a5c62, 0x702138a4, 0x12dcbfdb, 0x0183fc00, 0x72af830a);
    NextWord(block, 38, 0x0a8b3996, 0xd3b7973b, 0xe2e2c38e, 0x12dcbfdb, 0x9409e33e);
    NextWord(block, 39, 0x72af830a, 0x93f5997f, 0xc8215c1a, 0xe2e2c38e, 0x24641522);
  }

  lemma AbcSchedule4(block: seq<byte>)
    requires |block| == 64 && Scheduled(block, 24, AbcW4) && Scheduled(block, 32, AbcW5)
    ensures Scheduled(block, 40, AbcW6)
  {
    hide Schedule;
    NextWord(block, 40, 0x9409e33e, 0x3b68ba73, 0xb73679a2, 0xc8215c1a, 0x9f47bf94);
    NextWord(block, 41, 0x24641522, 0xaff4ffc1, 0xe5bc3909, 0xb73679a2, 0xf0a64f5a);
    NextWord(block, 42, 0x9f47bf94, 0xf10a5c62, 0x32663c5b, 0xe5bc3909, 0x3e246a79);
    NextWord(block, 43, 0xf0a64f5a, 0x0a8b3996, 0x9d209d67, 0x32663c5b, 0x27333ba3);
    NextWord(block, 44, 0x3e246a79, 0x72af830a, 0xec8726cb, 0x9d209d67, 0x0c4763f2);
    NextWord(block, 45, 0x27333ba3, 0x9409e33e, 0x702138a4, 0xec8726cb, 0x840abf27);
    NextWord(block, 46, 0x0c4763f2, 0x24641522, 0xd3b7973b, 0x702138a4, 0x7a290d5d);
    NextWord(block, 47, 0x840abf27, 0x9f47bf94, 0x93f5997f, 0xd3b7973b, 0x065c43da);
  }

  lemma AbcSchedule5(block: seq<byte>)
    requires |block| == 64 && Scheduled(block, 32, AbcW5) && Scheduled(block, 40, AbcW6)
    ensures Scheduled(block, 48, AbcW7)
  {
    hide Schedule;
    NextWord(block, 48, 0x7a290d5d, 0xf0a64f5a, 0x3b68ba73, 0x93f5997f, 0xfb3e89cb);
    NextWord(block, 49, 0x065c43da, 0x3e246a79, 0xaff4ffc1, 0x3b68ba73, 0xcc7617db);
    NextWord(block, 50, 0xfb3e89cb, 0x27333ba3, 0xf10a5c62, 0xaff4ffc1, 0xb9e66c34);
    NextWord(block, 51, 0xcc7617db, 0x0c4763f2, 0x0a8b3996, 0xf10a5c62, 0xa9993667);
    NextWord(block, 52, 0xb9e66c34, 0x840abf27, 0x72af830a, 0x0a8b3996, 0x84badedd);
    NextWord(block, 53, 0xa9993667, 0x7a290d5d, 0x9409e33e, 0x72af830a, 0xc21462bc);
    NextWord(block, 54, 0x84badedd, 0x065c43da, 0x24641522, 0x9409e33e, 0x1487472c);
    NextWord(block, 55, 0xc21462bc, 0xfb3e89cb, 0x9f47bf94, 0x24641522, 0xb20f7a99);
  }

  lemma AbcSchedule6(block: seq<byte>)
    requires |block| == 64 && Scheduled(block, 40, AbcW6) && Scheduled(block, 48, AbcW7)
    ensures Scheduled(block, 56, AbcW8)
  {
    hide Schedule;
    NextWord(block, 56, 0x1487472c, 0xcc7617db, 0xf0a64f5a, 0x9f47bf94, 0xef57b9cd);
    NextWord(block, 57, 0xb20f7a99, 0xb9e66c34, 0x3e246a79, 0xf0a64f5a, 0xebe6b238);
    NextWord(block, 58, 0xef57b9cd, 0xa9993667, 0x27333ba3, 0x3e246a79, 0x9fe3095e);
    NextWord(block, 59, 0xebe6b238, 0x84badedd, 0x0c4763f2, 0x27333ba3, 0x78bc8d4b);
    NextWord(block, 60, 0x9fe3095e, 0xc21462bc, 0x840abf27, 0x0c4763f2, 0xa43fcf15);
    NextWord(block, 61, 0x78bc8d4b, 0x1487472c, 0x7a290d5d, 0x840abf27, 0x668b2ff8);
    NextWord(block, 62, 0xa43fcf15, 0xb20f7a99, 0x065c43da, 0x7a290d5d, 0xeeaba2cc);
    NextWord(block, 63, 0x668b2ff8, 0xef57b9cd, 0xfb3e89cb, 0x065c43da, 0x12b1edeb);
  }

  lemma AbcRounds1() returns (v: seq<Vars>)
    ensures |v| == 9
      && Turn(v, [0x428a2f98, 0x71374491, 0xb5c0fbcf, 0xe9b5dba5, 0x3956c25b, 0x59f111f1, 0x923f82a4, 0xab1c5ed5],
              AbcW1)
    ensures v[0] == Vars(0x6a09e667, 0xbb67ae85, 0x3c6ef372, 0xa54ff53a, 0x510e527f, 0x9b05688c, 0x1f83d9ab, 0x5be0cd19)
    ensures v[8] == Vars(0x85a07b5f, 0xe5030380, 0x2b4209f5, 0x04409a6a, 0x0c657a79, 0x9b27a401, 0x714260ad, 0x43ada245)
  {
    var v0 := Vars(0x6a09e667, 0xbb67ae85, 0x3c6ef372, 0xa54ff53a, 0x510e527f, 0x9b05688c, 0x1f83d9ab, 0x5be0cd19);
    var v1 := Round(v0, 0x428a2f98, 0x61626380);
    assert v1.a == 0x5d6aebcd && v1.e == 0xfa2a4622;
    var v2 := Round(v1, 0x71374491, 0x00000000);
    assert v2.a == 0x5a6ad9ad && v2.e == 0x78ce7989;
    var v3 := Round(v2, 0xb5c0fbcf, 0x00000000);
    assert v3.a == 0xc8c347a7 && v3.e == 0xf92939eb;
    var v4 := Round(v3, 0xe9b5dba5, 0x00000000);
    assert v4.a == 0xd550f666 && v4.e == 0x24e00850;
    var v5 := Round(v4, 0x3956c25b, 0x00000000);
    assert v5.a == 0x04409a6a && v5.e == 0x43ada245;
    var v6 := Round(v5, 0x59f111f1, 0x00000000);
    assert v6.a == 0x2b4209f5 && v6.e == 0x714260ad;
    var v7 := Round(v6, 0x923f82a4, 0x00000000);
    assert v7.a == 0xe5030380 && v7.e == 0x9b27a401;
    var v8 := Round(v7, 0xab1c5ed5, 0x00000000);
    assert v8.a == 0x85a07b5f && v8.e == 0x0c657a79;
    v := [v0, v1, v2, v3, v4, v5, v6, v7, v8];
  }

  lemma AbcRounds2() returns (v: seq<Vars>)
    ensures |v| == 9
      && Turn(v, [0xd807aa98, 0x12835b01, 0x243185be, 0x550c7dc3, 0x72be5d74, 0x80deb1fe, 0x9bdc06a7, 0xc19bf174],
              AbcW2)
    ensures v[0] == Vars(0x85a07b5f, 0xe5030380, 0x2b4209f5, 0x04409a6a, 0x0c657a79, 0x9b27a401, 0x714260ad, 0x43ada245)
    ensures v[8] == Vars(0xb0fa238e, 0xc0645fde, 0xd932eb16, 0x87912990, 0x07590dcd, 0x0b92f20c, 0x745a48de, 0x1e578218)
  {
    var v0 := Vars(0x85a07b5f, 0xe5030380, 0x2b4209f5, 0x04409a6a, 0x0c657a79, 0x9b27a401, 0x714260ad, 0x43ada245);
    var v1 := Round(v0, 0xd807aa98, 0x00000000);
    assert v1.a == 0x8e04ecb9 && v1.e == 0x32ca2d8c;
    var v2 := Round(v1, 0x12835b01, 0x00000000);
    assert v2.a == 0x8c87346b && v2.e == 0x1cc92596;
    var v3 := Round(v2, 0x243185be, 0x00000000);
    assert v3.a == 0x4798a3f4 && v3.e == 0x436b23e8;
    var v4 := Round(v3, 0x550c7dc3, 0x00000000);
    assert v4.a == 0xf71fc5a9 && v4.e == 0x816fd6e9;
    var v5 := Round(v4, 0x72be5d74, 0x00000000);
    assert v5.a == 0x87912990 && v5.e == 0x1e578218;
    var v6 := Round(v5, 0x80deb1fe, 0x00000000);
    assert v6.a == 0xd932eb16 && v6.e == 0x745a48de;
    var v7 := Round(v6, 0x9bdc06a7, 0x00000000);
    assert v7.a == 0xc0645fde && v7.e == 0x0b92f20c;
    var v8 := Round(v7, 0xc19bf174, 0x00000018);
    assert v8.a == 0xb0fa238e && v8.e == 0x07590dcd;
    v := [v0, v1, v2, v3, v4, v5, v6, v7, v8];
  }

  lemma AbcRounds3() returns (v: seq<Vars>)
    ensures |v| == 9
      && Turn(v, [0xe49b69c1, 0xefbe4786, 0x0fc19dc6, 0x240ca1cc, 0x2de92c6f, 0x4a7484aa, 0x5cb0a9dc, 0x76f988da],
              AbcW3)
    ensures v[0] == Vars(0xb0fa238e, 0xc0645fde, 0xd932eb16, 0x87912990, 0x07590dcd, 0x0b92f20c, 0x745a48de, 0x1e578218)
    ensures v[8] == Vars(0xc5d53d8d, 0xa7a3623f, 0xc2606d6d, 0x9dc68b63, 0xaa47c347, 0x49f5114a, 0xe1257970, 0x8ada8930)
  {
    var v0 := Vars(0xb0fa238e, 0xc0645fde, 0xd932eb16, 0x87912990, 0x07590dcd, 0x0b92f20c, 0x745a48de, 0x1e578218);
    var v1 := Round(v0, 0xe49b69c1, 0x61626380);
    assert v1.a == 0x21da9a9b && v1.e == 0x8034229c;
    var v2 := Round(v1, 0xefbe4786, 0x000f0000);
    assert v2.a == 0xc2fbd9d1 && v2.e == 0x846ee454;
    var v3 := Round(v2, 0x0fc19dc6, 0x7da86405);
    assert v3.a == 0xfe777bbf && v3.e == 0xcc899961;
    var v4 := Round(v3, 0x240ca1cc, 0x600003c6);
    assert v4.a == 0xe1f20c33 && v4.e == 0xb0638179;
    var v5 := Round(v4, 0x2de92c6f, 0x3e9d7b78);
    assert v5.a == 0x9dc68b63 && v5.e == 0x8ada8930;
    var v6 := Round(v5, 0x4a7484aa, 0x0183fc00);
    assert v6.a == 0xc2606d6d && v6.e == 0xe1257970;
    var v7 := Round(v6, 0x5cb0a9dc, 0x12dcbfdb);
    assert v7.a == 0xa7a3623f && v7.e == 0x49f5114a;
    var v8 := Round(v7, 0x76f988da, 0xe2e2c38e);
    assert v8.a == 0xc5d53d8d && v8.e == 0xaa47c347;
    v := [v0, v1, v2, v3, v4, v5, v6, v7, v8];
  }

  lemma AbcRounds4() returns (v: seq<Vars>)
    ensures |v| == 9
      && Turn(v, [0x983e5152, 0xa831c66d, 0xb00327c8, 0xbf597fc7, 0xc6e00bf3, 0xd5a79147, 0x06ca6351, 0x14292967],
              AbcW4)
    ensures v[0] == Vars(0xc5d53d8d, 0xa7a3623f, 0xc2606d6d, 0x9dc68b63, 0xaa47c347, 0x49f5114a, 0xe1257970, 0x8ada8930)
    ensures v[8] == Vars(0x73b33bf5, 0xea992a22, 0xa0060b30, 0x363482c9, 0xba591112, 0x0109ab3a, 0xade79437, 0x6112a3b7)
  {
    var v0 := Vars(0xc5d53d8d, 0xa7a3623f, 0xc2606d6d, 0x9dc68b63, 0xaa47c347, 0x49f5114a, 0xe1257970, 0x8ada8930);
    var v1 := Round(v0, 0x983e5152, 0xc8215c1a);
    assert v1.a == 0x1c2c2838 && v1.e == 0x2823ef91;
    var v2 := Round(v1, 0xa831c66d, 0xb73679a2);
    assert v2.a == 0xcde8037d && v2.e == 0x14383d8e;
    var v3 := Round(v2, 0xb00327c8, 0xe5bc3909);
    assert v3.a == 0xb62ec4bc && v3.e == 0xc74c6516;
    var v4 := Round(v3, 0xbf597fc7, 0x32663c5b);
    assert v4.a == 0x77d37528 && v4.e == 0xedffbff8;
    var v5 := Round(v4, 0xc6e00bf3, 0x9d209d67);
    assert v5.a == 0x363482c9 && v5.e == 0x6112a3b7;
    var v6 := Round(v5, 0xd5a79147, 0xec8726cb);
    assert v6.a == 0xa0060b30 && v6.e == 0xade79437;
    var v7 := Round(v6, 0x06ca6351, 0x702138a4);
    assert v7.a == 0xea992a22 && v7.e == 0x0109ab3a;
    var v8 := Round(v7, 0x14292967, 0xd3b7973b);
    assert v8.a == 0x73b33bf5 && v8.e == 0xba591112;
    v := [v0, v1, v2, v3, v4, v5, v6, v7, v8];
  }

  lemma AbcRounds5() returns (v: seq<Vars>)
    ensures |v| == 9
      && Turn(v, [0x27b70a85, 0x2e1b2138, 0x4d2c6dfc, 0x53380d13, 0x650a7354, 0x766a0abb, 0x81c2c92e, 0x92722c85],
              AbcW5)
    ensures v[0] == Vars(0x73b33bf5, 0xea992a22, 0xa0060b30, 0x363482c9, 0xba591112, 0x0109ab3a, 0xade79437, 0x6112a3b7)
    ensures v[8] == Vars(0x79ea687a, 0x6dc57a8a, 0x34df1604, 0x41a65cb1, 0x1efbc0a0, 0xf0781bc8, 0xa507a53d, 0x0772a26b)
  {
    var v0 := Vars(0x73b33bf5, 0xea992a22, 0xa0060b30, 0x363482c9, 0xba591112, 0x0109ab3a, 0xade79437, 0x6112a3b7);
    var v1 := Round(v0, 0x27b70a85, 0x93f5997f);
    assert v1.a == 0x98e12507 && v1.e == 0x9cd9f5f6;
    var v2 := Round(v1, 0x2e1b2138, 0x3b68ba73);
    assert v2.a == 0xfe604df5 && v2.e == 0x59249dd3;
    var v3 := Round(v2, 0x4d2c6dfc, 0xaff4ffc1);
    assert v3.a == 0xa9a7738c && v3.e == 0x085f3833;
    var v4 := Round(v3, 0x53380d13, 0xf10a5c62);
    assert v4.a == 0x65a0cfe4 && v4.e == 0xf4b002d6;
    var v5 := Round(v4, 0x650a7354, 0x0a8b3996);
    assert v5.a == 0x41a65cb1 && v5.e == 0x0772a26b;
    var v6 := Round(v5, 0x766a0abb, 0x72af830a);
    assert v6.a == 0x34df1604 && v6.e == 0xa507a53d;
    var v7 := Round(v6, 0x81c2c92e, 0x9409e33e);
    assert v7.a == 0x6dc57a8a && v7.e == 0xf0781bc8;
    var v8 := Round(v7, 0x92722c85, 0x24641522);
    assert v8.a == 0x79ea687a && v8.e == 0x1efbc0a0;
    v := [v0, v1, v2, v3, v4, v5, v6, v7, v8];
  }

  lemma AbcRounds6() returns (v: seq<Vars>)
    ensures |v| == 9
      && Turn(v, [0xa2bfe8a1, 0xa81a664b, 0xc24b8b70, 0xc76c51a3, 0xd192e819, 0xd6990624, 0xf40e3585, 0x106aa070],
              AbcW6)
    ensures v[0] == Vars(0x79ea687a, 0x6dc57a8a, 0x34df1604, 0x41a65cb1, 0x1efbc0a0, 0xf0781bc8, 0xa507a53d, 0x0772a26b)
    ensures v[8] == Vars(0x4172328d, 0xa14c14b0, 0x72ab4b91, 0x26628815, 0xfecf0bc6, 0xd57b94a9, 0xb7755da1, 0xa80f11f0)
  {
    var v0 := Vars(0x79ea687a, 0x6dc57a8a, 0x34df1604, 0x41a65cb1, 0x1efbc0a0, 0xf0781bc8, 0xa507a53d, 0x0772a26b);
    var v1 := Round(v0, 0xa2bfe8a1, 0x9f47bf94);
    assert v1.a == 0xd6670766 && v1.e == 0x26352d63;
    var v2 := Round(v1, 0xa81a664b, 0xf0a64f5a);
    assert v2.a == 0xdf46652f && v2.e == 0x838b2711;
    var v3 := Round(v2, 0xc24b8b70, 0x3e246a79);
    assert v3.a == 0x17aa0dfe && v3.e == 0xdecd4715;
    var v4 := Round(v3, 0xc76c51a3, 0x27333ba3);
    assert v4.a == 0x9d4baf93 && v4.e == 0xfda24c2e;
    var v5 := Round(v4, 0xd192e819, 0x0c4763f2);
    assert v5.a == 0x26628815 && v5.e == 0xa80f11f0;
    var v6 := Round(v5, 0xd6990624, 0x840abf27);
    assert v6.a == 0x72ab4b91 && v6.e == 0xb7755da1;
    var v7 := Round(v6, 0xf40e3585, 0x7a290d5d);
    assert v7.a == 0xa14c14b0 && v7.e == 0xd57b94a9;
    var v8 := Round(v7, 0x106aa070, 0x065c43da);
    assert v8.a == 0x4172328d && v8.e == 0xfecf0bc6;
    v := [v0, v1, v2, v3, v4, v5, v6, v7, v8];
  }

  lemma AbcRounds7() returns (v: seq<Vars>)
    ensures |v| == 9
      && Turn(v, [0x19a4c116, 0x1e376c08, 0x2748774c, 0x34b0bcb5, 0x391c0cb3, 0x4ed8aa4a, 0x5b9cca4f, 0x682e6ff3],
              AbcW7)
    ensures v[0] == Vars(0x4172328d, 0xa14c14b0, 0x72ab4b91, 0x26628815, 0xfecf0bc6, 0xd57b94a9, 0xb7755da1, 0xa80f11f0)
    ensures v[8] == Vars(0x38cc9913, 0x3ec45cdb, 0xf5702fdb, 0x101fd28f, 0x54cb266b, 0xe50e1b4f, 0x9f4787c3, 0x529e7d00)
  {
    var v0 := Vars(0x4172328d, 0xa14c14b0, 0x72ab4b91, 0x26628815, 0xfecf0bc6, 0xd57b94a9, 0xb7755da1, 0xa80f11f0);
    var v1 := Round(v0, 0x19a4c116, 0xfb3e89cb);
    assert v1.a == 0x05757ceb && v1.e == 0xbd714038;
    var v2 := Round(v1, 0x1e376c08, 0xcc7617db);
    assert v2.a == 0xf11bfaa8 && v2.e == 0x6e5c390c;
    var v3 := Round(v2, 0x2748774c, 0xb9e66c34);
    assert v3.a == 0x7a0508a1 && v3.e == 0x52f1ccf7;
    var v4 := Round(v3, 0x34b0bcb5, 0xa9993667);
    assert v4.a == 0x886e7a22 && v4.e == 0x49231c1e;
    var v5 := Round(v4, 0x391c0cb3, 0x84badedd);
    assert v5.a == 0x101fd28f && v5.e == 0x529e7d00;
    var v6 := Round(v5, 0x4ed8aa4a, 0xc21462bc);
    assert v6.a == 0xf5702fdb && v6.e == 0x9f4787c3;
    var v7 := Round(v6, 0x5b9cca4f, 0x1487472c);
    assert v7.a == 0x3ec45cdb && v7.e == 0xe50e1b4f;
    var v8 := Round(v7, 0x682e6ff3, 0xb20f7a99);
    assert v8.a == 0x38cc9913 && v8.e == 0x54cb266b;
    v := [v0, v1, v2, v3, v4, v5, v6, v7, v8];
  }

  lemma AbcRounds8() returns (v: seq<Vars>)
    ensures |v| == 9
      && Turn(v, [0x748f82ee, 0x78a5636f, 0x84c87814, 0x8cc70208, 0x90befffa, 0xa4506ceb, 0xbef9a3f7, 0xc67178f2],
              AbcW8)
    ensures v[0] == Vars(0x38cc9913, 0x3ec45cdb, 0xf5702fdb, 0x101fd28f, 0x54cb266b, 0xe50e1b4f, 0x9f4787c3, 0x529e7d00)
    ensures v[8] == Vars(0x506e3058, 0xd39a2165, 0x04d24d6c, 0xb85e2ce9, 0x5ef50f24, 0xfb121210, 0x948d25b6, 0x961f4894)
  {
    var v0 := Vars(0x38cc9913, 0x3ec45cdb, 0xf5702fdb, 0x101fd28f, 0x54cb266b, 0xe50e1b4f, 0x9f4787c3, 0x529e7d00);
    var v1 := Round(v0, 0x748f82ee, 0xef57b9cd);
    assert v1.a == 0xfcd1887b && v1.e == 0x9b5e906c;
    var v2 := Round(v1, 0x78a5636f, 0xebe6b238);
    assert v2.a == 0xc062d46f && v2.e == 0x7e44008e;
    var v3 := Round(v2, 0x84c87814, 0x9fe3095e);
    assert v3.a == 0xffb70472 && v3.e == 0x6d83bfc6;
    var v4 := Round(v3, 0x8cc70208, 0x78bc8d4b);
    assert v4.a == 0xb6ae8fff && v4.e == 0xb21bad3d;
    var v5 := Round(v4, 0x90befffa, 0xa43fcf15);
    assert v5.a == 0xb85e2ce9 && v5.e == 0x961f4894;
    var v6 := Round(v5, 0xa4506ceb, 0x668b2ff8);
    assert v6.a == 0x04d24d6c && v6.e == 0x948d25b6;
    var v7 := Round(v6, 0xbef9a3f7, 0xeeaba2cc);
    assert v7.a == 0xd39a2165 && v7.e == 0xfb121210;
    var v8 := Round(v7, 0xc67178f2, 0x12b1edeb);
    assert v8.a == 0x506e3058 && v8.e == 0x5ef50f24;
    v := [v0, v1, v2, v3, v4, v5, v6, v7, v8];
  }

  lemma AbcSums()
    ensures Sums(FromVars(Vars(0x506e3058, 0xd39a2165, 0x04d24d6c, 0xb85e2ce9, 0x5ef50f24, 0xfb121210, 0x948d25b6,
                               0x961f4894)),
                 [0x6a09e667, 0xbb67ae85, 0x3c6ef372, 0xa54ff53a, 0x510e527f, 0x9b05688c, 0x1f83d9ab, 0x5be0cd19])
         == [0xba7816bf, 0x8f01cfea, 0x414140de, 0x5dae2223, 0xb00361a3, 0x96177a9c, 0xb410ff61, 0xf20015ad]
  {
  }

  /** The hash value of the block of "abc". */
  lemma AbcBlock(block: seq<byte>)
    requires |block| == 64 && Words(block, 0, AbcW1) && Words(block, 8, AbcW2)
    ensures NextHash([0x6a09e667, 0xbb67ae85, 0x3c6ef372, 0xa54ff53a, 0x510e527f, 0x9b05688c, 0x1f83d9ab, 0x5be0cd19],
                     block)
         == [0xba7816bf, 0x8f01cfea, 0x414140de, 0x5dae2223, 0xb00361a3, 0x96177a9c, 0xb410ff61, 0xf20015ad]
  {
    hide Schedule, Rounds, Round, Word, Turn, K, Sums, NextHash, Scheduled, Words;
    WordsScheduled(block, 0, AbcW1);
    WordsScheduled(block, 8, AbcW2);
    AbcSchedule1(block);
    AbcSchedule2(block);
    AbcSchedule3(block);
    AbcSchedule4(block);
    AbcSchedule5(block);
    AbcSchedule6(block);
    var h := ToVars([0x6a09e667, 0xbb67ae85, 0x3c6ef372, 0xa54ff53a, 0x510e527f, 0x9b05688c, 0x1f83d9ab, 0x5be0cd19]);
    NoRounds(h, block);
    Constants1();
    var v1 := AbcRounds1();
    EightRounds(h, block, 0, v1,
                [0x428a2f98, 0x71374491, 0xb5c0fbcf, 0xe9b5dba5, 0x3956c25b, 0x59f111f1, 0x923f82a4,
                 0xab1c5ed5], AbcW1);
    Constants2();
    var v2 := AbcRounds2();
    EightRounds(h, block, 8, v2,
                [0xd807aa98, 0x12835b01, 0x243185be, 0x550c7dc3, 0x72be5d74, 0x80deb1fe, 0x9bdc06a7,
                 0xc19bf174], AbcW2);
    Constants3();
    var v3 := AbcRounds3();
    EightRounds(h, block, 16, v3,
                [0xe49b69c1, 0xefbe4786, 0x0fc19dc6, 0x240ca1cc, 0x2de92c6f, 0x4a7484aa, 0x5cb0a9dc,
                 0x76f988da], AbcW3);
    Constants4();
    var v4 := AbcRounds4();
    EightRounds(h, block, 24, v4,
                [0x983e5152, 0xa831c66d, 0xb00327c8, 0xbf597fc7, 0xc6e00bf3, 0xd5a79147, 0x06ca6351,
                 0x14292967], AbcW4);
    Constants5();
    var v5 := AbcRounds5();
    EightRounds(h, block, 32, v5,
                [0x27b70a85, 0x2e1b2138, 0x4d2c6dfc, 0x53380d13, 0x650a7354, 0x766a0abb, 0x81c2c92e,
                 0x92722c85], AbcW5);
    Constants6();
    var v6 := AbcRounds6();
    EightRounds(h, block, 40, v6,
                [0xa2bfe8a1, 0xa81a664b, 0xc24b8b70, 0xc76c51a3, 0xd192e819, 0xd6990624, 0xf40e3585,
                 0x106aa070], AbcW6);
    Constants7();
    var v7 := AbcRounds7();
    EightRounds(h, block, 48, v7,
                [0x19a4c116, 0x1e376c08, 0x2748774c, 0x34b0bcb5, 0x391c0cb3, 0x4ed8aa4a, 0x5b9cca4f,
                 0x682e6ff3], AbcW7);
    Constants8();
    var v8 := AbcRounds8();
    EightRounds(h, block, 56, v8,
                [0x748f82ee, 0x78a5636f, 0x84c87814, 0x8cc70208, 0x90befffa, 0xa4506ceb, 0xbef9a3f7,
                 0xc67178f2], AbcW8);
    AbcSums();
    NextHashIs([0x6a09e667, 0xbb67ae85, 0x3c6ef372, 0xa54ff53a, 0x510e527f, 0x9b05688c, 0x1f83d9ab, 0x5be0cd19], block,
               v8[8],
      [0xba7816bf, 0x8f01cfea, 0x414140de, 0x5dae2223, 0xb00361a3, 0x96177a9c, 0xb410ff61, 0xf20015ad]);
  }

  lemma Word61626380()
    ensures Word([0x61, 0x62, 0x63, 0x80], 0) == 0x61626380
  {
    hide Word;
    assert 0x61 as bv32 == 0x61 && 0x62 as bv32 == 0x62 && 0x63 as bv32 == 0x63 && 0x80 as bv32 == 0x80;
    Joined([0x61, 0x62, 0x63, 0x80], 0x61, 0x62, 0x63, 0x80);
  }

  lemma Word00000000()
    ensures Word([0x00, 0x00, 0x00, 0x00], 0) == 0x00000000
  {
    hide Word;
    assert 0x00 as bv32 == 0x00;
    Joined([0x00, 0x00, 0x00, 0x00], 0x00, 0x00, 0x00, 0x00);
  }

  lemma AbcHalf1(block: seq<byte>)
    requires |block| == 64
    requires block[0..4] == [0x61, 0x62, 0x63, 0x80]
    requires block[4..8] == [0x00, 0x00, 0x00, 0x00]
    requires block[8..12] == [0x00, 0x00, 0x00, 0x00]
    requires block[12..16] == [0x00, 0x00, 0x00, 0x00]
    requires block[16..20] == [0x00, 0x00, 0x00, 0x00]
    requires block[20..24] == [0x00, 0x00, 0x00, 0x00]
    requires block[24..28] == [0x00, 0x00, 0x00, 0x00]
    requires block[28..32] == [0x00, 0x00, 0x00, 0x00]
    ensures Words(block, 0, AbcW1)
  {
    hide Word;
    WordOfSlice(block, 0, [0x61, 0x62, 0x63, 0x80]);
    Word61626380();
    WordOfSlice(block, 4, [0x00, 0x00, 0x00, 0x00]);
    Word00000000();
    WordOfSlice(block, 8, [0x00, 0x00, 0x00, 0x00]);
    Word00000000();
    WordOfSlice(block, 12, [0x00, 0x00, 0x00, 0x00]);
    Word00000000();
    WordOfSlice(block, 16, [0x00, 0x00, 0x00, 0x00]);
    Word00000000();
    WordOfSlice(block, 20, [0x00, 0x00, 0x00, 0x00]);
    Word00000000();
    WordOfSlice(block, 24, [0x00, 0x00, 0x00, 0x00]);
    Word00000000();
    WordOfSlice(block, 28, [0x00, 0x00, 0x00, 0x00]);
    Word00000000();
  }

  lemma Word00000018()
    ensures Word([0x00, 0x00, 0x00, 0x18], 0) == 0x00000018
  {
    hide Word;
    assert 0x00 as bv32 == 0x00 && 0x18 as bv32 == 0x18;
    Joined([0x00, 0x00, 0x00, 0x18], 0x00, 0x00, 0x00, 0x18);
  }

  lemma AbcHalf2(block: seq<byte>)
    requires |block| == 64
    requires block[32..36] == [0x00, 0x00, 0x00, 0x00]
    requires block[36..40] == [0x00, 0x00, 0x00, 0x00]
    requires block[40..44] == [0x00, 0x00, 0x00, 0x00]
    requires block[44..48] == [0x00, 0x00, 0x00, 0x00]
    requires block[48..52] == [0x00, 0x00, 0x00, 0x00]
    requires block[52..56] == [0x00, 0x00, 0x00, 0x00]
    requires block[56..60] == [0x00, 0x00, 0x00, 0x00]
    requires block[60..64] == [0x00, 0x00, 0x00, 0x18]
    ensures Words(block, 8, AbcW2)
  {
    hide Word;
    WordOfSlice(block, 32, [0x00, 0x00, 0x00, 0x00]);
    Word00000000();
    WordOfSlice(block, 36, [0x00, 0x00, 0x00, 0x00]);
    Word00000000();
    WordOfSlice(block, 40, [0x00, 0x00, 0x00, 0x00]);
    Word00000000();
    WordOfSlice(block, 44, [0x00, 0x00, 0x00, 0x00]);
    Word00000000();
    WordOfSlice(block, 48, [0x00, 0x00, 0x00, 0x00]);
    Word00000000();
    WordOfSlice(block, 52, [0x00, 0x00, 0x00, 0x00]);
    Word00000000();
    WordOfSlice(block, 56, [0x00, 0x00, 0x00, 0x00]);
    Word00000000();
    WordOfSlice(block, 60, [0x00, 0x00, 0x00, 0x18]);
    Word00000018();
  }

  lemma AbcBytes()
    ensures WordBytes(0xba7816bf) == [0xba, 0x78, 0x16, 0xbf]
    ensures WordBytes(0x8f01cfea) == [0x8f, 0x01, 0xcf, 0xea]
    ensures WordBytes(0x414140de) == [0x41, 0x41, 0x40, 0xde]
    ensures WordBytes(0x5dae2223) == [0x5d, 0xae, 0x22, 0x23]
    ensures WordBytes(0xb00361a3) == [0xb0, 0x03, 0x61, 0xa3]
    ensures WordBytes(0x96177a9c) == [0x96, 0x17, 0x7a, 0x9c]
    ensures WordBytes(0xb410ff61) == [0xb4, 0x10, 0xff, 0x61]
    ensures WordBytes(0xf20015ad) == [0xf2, 0x00, 0x15, 0xad]
  {
  }

  lemma AbcDigest()
    ensures DigestBytes([0xba7816bf, 0x8f01cfea, 0x414140de, 0x5dae2223, 0xb00361a3, 0x96177a9c, 0xb410ff61,
                         0xf20015ad], 8)
         == [0xba, 0x78, 0x16, 0xbf, 0x8f, 0x01, 0xcf, 0xea, 0x41, 0x41, 0x40, 0xde, 0x5d, 0xae, 0x22, 0x23] +
            [0xb0, 0x03, 0x61, 0xa3, 0x96, 0x17, 0x7a, 0x9c, 0xb4, 0x10, 0xff, 0x61, 0xf2, 0x00, 0x15, 0xad]
  {
    hide WordBytes;
    AbcBytes();
  }

  lemma AbcPads(m: seq<byte>)
    requires m == [0x61, 0x62, 0x63]
    ensures |Pad(m)| == 64 && Pad(m)[0..4] == [0x61, 0x62, 0x63, 0x80]
    ensures forall i :: 1 <= i < 15 ==> Pad(m)[4 * i..4 * i + 4] == [0, 0, 0, 0]
    ensures Pad(m)[60..64] == [0, 0, 0, 0x18]
  {
    AbcLength();
    hide Be64;
  }

  lemma AbcLength()
    ensures Be64(24) == [0, 0, 0, 0, 0, 0, 0, 0x18]
  {
  }

  /** The digest of "abc". */
  lemma AbcVector()
    ensures Sha256Spec([0x61, 0x62, 0x63])
         == [0xba, 0x78, 0x16, 0xbf, 0x8f, 0x01, 0xcf, 0xea, 0x41, 0x41, 0x40, 0xde, 0x5d, 0xae, 0x22, 0x23] +
            [0xb0, 0x03, 0x61, 0xa3, 0x96, 0x17, 0x7a, 0x9c, 0xb4, 0x10, 0xff, 0x61, 0xf2, 0x00, 0x15, 0xad]
  {
    hide Pad, NextHash, DigestBytes, Word;
    var m: seq<byte> := [0x61, 0x62, 0x63];
    AbcPads(m);
    var p := Pad(m);
    assert p[0..64] == p;
    assert p[4..8] == p[8..12] == p[12..16] == p[16..20] == p[20..24] == p[24..28] == p[28..32] == [0, 0, 0, 0] by {
      assert p[4 * 1..4 * 1 + 4] == p[4 * 2..4 * 2 + 4] == p[4 * 3..4 * 3 + 4] == p[4 * 4..4 * 4 + 4];
      assert p[4 * 5..4 * 5 + 4] == p[4 * 6..4 * 6 + 4] == p[4 * 7..4 * 7 + 4];
    }
    assert p[32..36] == p[36..40] == p[40..44] == p[44..48] == p[48..52] == p[52..56] == p[56..60] == [0, 0, 0, 0] by {
      assert p[4 * 8..4 * 8 + 4] == p[4 * 9..4 * 9 + 4] == p[4 * 10..4 * 10 + 4] == p[4 * 11..4 * 11 + 4];
      assert p[4 * 12..4 * 12 + 4] == p[4 * 13..4 * 13 + 4] == p[4 * 14..4 * 14 + 4];
    }
    AbcHalf1(p);
    AbcHalf2(p);
    AbcBlock(p);
    AbcDigest();
  }

}
