/**
 SHA-256: the recursive definition of FIPS 180-4, and the in-place, chunked computation that equals it.
 */
module Sha256 {
  import opened Types

  // ----- section 4: functions and constants

  /** A 32-bit word. */
  type word = bv32

  /** Addition modulo 2^32. */
  function Add(x: word, y: word): word { x + y }
  function Add4(x: word, y: word, z: word, u: word): word { x + y + z + u }

  function Sigma0(x: word): word { x.RotateRight(2) ^ x.RotateRight(13) ^ x.RotateRight(22) }
  function Sigma1(x: word): word { x.RotateRight(6) ^ x.RotateRight(11) ^ x.RotateRight(25) }
  function Small0(x: word): word { x.RotateRight(7) ^ x.RotateRight(18) ^ (x >> 3) }
  function Small1(x: word): word { x.RotateRight(17) ^ x.RotateRight(19) ^ (x >> 10) }
  function Ch(x: word, y: word, z: word): word { (x & y) ^ ((!x) & z) }
  function Maj(x: word, y: word, z: word): word { (x & y) ^ (x & z) ^ (y & z) }

  const K: seq<word> :=
    [0x428a_2f98, 0x7137_4491, 0xb5c0_fbcf, 0xe9b5_dba5, 0x3956_c25b, 0x59f1_11f1, 0x923f_82a4, 0xab1c_5ed5] +
    [0xd807_aa98, 0x1283_5b01, 0x2431_85be, 0x550c_7dc3, 0x72be_5d74, 0x80de_b1fe, 0x9bdc_06a7, 0xc19b_f174] +
    [0xe49b_69c1, 0xefbe_4786, 0x0fc1_9dc6, 0x240c_a1cc, 0x2de9_2c6f, 0x4a74_84aa, 0x5cb0_a9dc, 0x76f9_88da] +
    [0x983e_5152, 0xa831_c66d, 0xb003_27c8, 0xbf59_7fc7, 0xc6e0_0bf3, 0xd5a7_9147, 0x06ca_6351, 0x1429_2967] +
    [0x27b7_0a85, 0x2e1b_2138, 0x4d2c_6dfc, 0x5338_0d13, 0x650a_7354, 0x766a_0abb, 0x81c2_c92e, 0x9272_2c85] +
    [0xa2bf_e8a1, 0xa81a_664b, 0xc24b_8b70, 0xc76c_51a3, 0xd192_e819, 0xd699_0624, 0xf40e_3585, 0x106a_a070] +
    [0x19a4_c116, 0x1e37_6c08, 0x2748_774c, 0x34b0_bcb5, 0x391c_0cb3, 0x4ed8_aa4a, 0x5b9c_ca4f, 0x682e_6ff3] +
    [0x748f_82ee, 0x78a5_636f, 0x84c8_7814, 0x8cc7_0208, 0x90be_fffa, 0xa450_6ceb, 0xbef9_a3f7, 0xc671_78f2]

  const INITIAL: seq<word> := [0x6a09_e667, 0xbb67_ae85, 0x3c6e_f372, 0xa54f_f53a, 0x510e_527f, 0x9b05_688c,
                               0x1f83_d9ab, 0x5be0_cd19]

  // ----- big-endian words

  function Word(b: seq<byte>, at: nat): word
    requires at + 4 <= |b|
  {
    (b[at] as bv32 << 24) | (b[at + 1] as bv32 << 16) | (b[at + 2] as bv32 << 8) | b[at + 3] as bv32
  }

  function WordBytes(w: word): (b: seq<byte>)
    ensures |b| == 4
  {
    [(w >> 24) as bv8 as int, ((w >> 16) & 0xFF) as bv8 as int, ((w >> 8) & 0xFF) as bv8 as int,
     (w & 0xFF) as bv8 as int]
  }

  /** The last big-endian bytes of a number. */
  function BigEndian(n: nat, count: nat): (b: seq<byte>)
    ensures |b| == count
  {
    if count == 0 then [] else BigEndian(n / 256, count - 1) + [n % 256]
  }

  /** The eight big-endian bytes of a number modulo 2^64. */
  function Be64(n: nat): (b: seq<byte>)
    ensures |b| == 8
  {
    BigEndian(n % 0x1_0000_0000_0000_0000, 8)
  }

  function Zeros(n: nat): (b: seq<byte>)
    ensures |b| == n
  {
    seq(n, _ => 0)
  }

  // ----- section 5: padding and parsing

  /**
   Section 5.1.1: one set bit, the fewest zeros that leave room, and the length in bits.
   The standard takes messages of fewer than 2^64 bits; the length of a longer one wraps around.
   */
  function Pad(m: seq<byte>): seq<byte>
  {
    m + [0x80] + Zeros((119 - |m| % 64) % 64) + Be64(8 * |m|)
  }

  lemma PaddingIsLeast(m: seq<byte>, z: nat)
    ensures |Pad(m)| % 64 == 0
    ensures var k := |Pad(m)| - |m| - 9; k >= 0 && (z < k ==> (|m| + 1 + z) % 64 != 56)
  {
    hide Be64;
    var k := (119 - |m| % 64) % 64;
    assert |m| == 64 * (|m| / 64) + |m| % 64;
    assert |m| + 1 + k + 8 == 64 * (|m| / 64 + (if |m| % 64 <= 55 then 1 else 2));
    if z < k { LeastZeros(|m| / 64, |m| % 64, k, z); }
  }

  lemma LeastZeros(q: nat, r: nat, k: nat, z: nat)
    requires r < 64 && k == (119 - r) % 64 && z < k
    ensures (64 * q + r + 1 + z) % 64 != 56
  {
  }

  /** The number that some bytes denote, the most significant one first. */
  function Denoted(b: seq<byte>): nat { if b == [] then 0 else 256 * Denoted(b[..|b| - 1]) + b[|b| - 1] }

  function Power256(k: nat): nat { if k == 0 then 1 else 256 * Power256(k - 1) }

  lemma {:induction false} BigEndianDenotes(n: nat, count: nat)
    requires n < Power256(count)
    ensures Denoted(BigEndian(n, count)) == n
  {
    if count > 0 {
      BigEndianDenotes(n / 256, count - 1);
      var b := BigEndian(n, count);
      assert b[..|b| - 1] == BigEndian(n / 256, count - 1);
    }
  }

  /** The eight bytes denote the length in bits of every message that the standard takes. */
  lemma LengthIsExact(bits: nat)
    requires bits < 0x1_0000_0000_0000_0000
    ensures Denoted(Be64(bits)) == bits
  {
    hide BigEndian, Denoted;
    assert Power256(8) == 0x1_0000_0000_0000_0000;
    BigEndianDenotes(bits, 8);
  }

  // ----- section 6.2.2: the hash computation

  function Schedule(block: seq<byte>, t: nat): word
    requires |block| == 64
  {
    if t < 16 then Word(block, 4 * t)
    else
      Add4(Small1(Schedule(block, t - 2)), Schedule(block, t - 7), Small0(Schedule(block, t - 15)),
           Schedule(block, t - 16))
  }

  datatype Vars = Vars(a: word, b: word, c: word, d: word, e: word, f: word, g: word, h: word)

  function Round(v: Vars, k: word, w: word): Vars {
    var t1 := Add(Add4(v.h, Sigma1(v.e), Ch(v.e, v.f, v.g), k), w);
    var t2 := Add(Sigma0(v.a), Maj(v.a, v.b, v.c));
    Vars(Add(t1, t2), v.a, v.b, v.c, Add(v.d, t1), v.e, v.f, v.g)
  }

  function Rounds(v: Vars, block: seq<byte>, t: nat): Vars
    requires |block| == 64 && t <= |K|
  {
    if t == 0 then v else Round(Rounds(v, block, t - 1), K[t - 1], Schedule(block, t - 1))
  }

  function ToVars(h: seq<word>): Vars
    requires |h| == 8
  {
    Vars(h[0], h[1], h[2], h[3], h[4], h[5], h[6], h[7])
  }

  function FromVars(v: Vars): (h: seq<word>)
    ensures |h| == 8
  {
    [v.a, v.b, v.c, v.d, v.e, v.f, v.g, v.h]
  }

  function Sums(v: seq<word>, h: seq<word>): (r: seq<word>)
    requires |v| == |h|
    ensures |r| == |h|
  {
    seq(|h|, i requires 0 <= i < |h| => Add(v[i], h[i]))
  }

  function NextHash(h: seq<word>, block: seq<byte>): (r: seq<word>)
    requires |h| == 8 && |block| == 64
    ensures |r| == 8
  {
    Sums(FromVars(Rounds(ToVars(h), block, |K|)), h)
  }

  /** Section 5.2.1 and 6.2.2: the hash value after the first n blocks. */
  function HashBlocks(p: seq<byte>, n: nat): (r: seq<word>)
    requires 64 * n <= |p|
    ensures |r| == 8
  {
    if n == 0 then INITIAL else NextHash(HashBlocks(p, n - 1), p[64 * (n - 1)..64 * n])
  }

  lemma {:induction false} HashIgnoresTheRest(p: seq<byte>, q: seq<byte>, n: nat)
    requires 64 * n <= |p|
    ensures HashBlocks(p + q, n) == HashBlocks(p, n)
  {
    hide NextHash;
    if n > 0 {
      HashIgnoresTheRest(p, q, n - 1);
      assert (p + q)[64 * (n - 1)..64 * n] == p[64 * (n - 1)..64 * n];
    }
  }

  /** One more block goes through the compression with the hash value of the blocks before it. */
  lemma OneMoreBlock(p: seq<byte>, block: seq<byte>, n: nat)
    requires |p| == 64 * n && |block| == 64
    ensures HashBlocks(p + block, n + 1) == NextHash(HashBlocks(p, n), block)
    ensures HashBlocks(p, 0) == INITIAL
  {
    hide NextHash;
    HashIgnoresTheRest(p, block, n);
    assert (p + block)[64 * n..64 * (n + 1)] == block;
  }

  function DigestBytes(h: seq<word>, n: nat): (b: seq<byte>)
    requires n <= |h|
    ensures |b| == 4 * n
  {
    if n == 0 then [] else DigestBytes(h, n - 1) + WordBytes(h[n - 1])
  }

  /** The message digest. */
  function Sha256Spec(m: seq<byte>): (d: seq<byte>)
    ensures |d| == 32
  {
    var h := HashBlocks(Pad(m), |Pad(m)| / 64);
    DigestBytes(h, |h|)
  }

  // ----- the in-place computation

  lemma ScheduleStarts(block: seq<byte>, t: nat)
    requires |block| == 64 && t < 16
    ensures Schedule(block, t) == Word(block, 4 * t)
  {
  }

  lemma AddCommutes(x: word, y: word)
    ensures Add(x, y) == Add(y, x)
  {
  }

  /** The code adds the four terms of the schedule from the last to the first. */
  lemma SumReversed(x: word, y: word, z: word, u: word)
    ensures Add4(x, y, z, u) == Add4(u, z, y, x)
  {
  }

  lemma ExtendIsSchedule(block: seq<byte>, t: nat)
    requires |block| == 64 && t >= 16
    ensures Add4(Schedule(block, t - 16), Small0(Schedule(block, t - 15)), Schedule(block, t - 7),
                 Small1(Schedule(block, t - 2)))
         == Schedule(block, t)
  {
    hide Add4, Small0, Small1;
    SumReversed(Schedule(block, t - 16), Small0(Schedule(block, t - 15)), Schedule(block, t - 7),
                Small1(Schedule(block, t - 2)));
  }

  ghost predicate Filled(schedule: seq<word>, block: seq<byte>, n: nat)
    requires |block| == 64 && n <= |schedule|
  {
    forall i :: 0 <= i < n ==> schedule[i] == Schedule(block, i)
  }

  method FillSchedule(block: seq<byte>) returns (schedule: array<word>)
    requires |block| == 64
    ensures fresh(schedule) && schedule.Length == 64 && Filled(schedule[..], block, 64)
  {
    hide Add4, Small0, Small1, Schedule, Word;
    schedule := new word[64];
    for t := 0 to 16
      invariant Filled(schedule[..], block, t)
    {
      ScheduleStarts(block, t);
      schedule[t] := Word(block, 4 * t);
    }
    for t := 16 to 64
      invariant Filled(schedule[..], block, t)
    {
      ExtendIsSchedule(block, t);
      var s0 := Small0(schedule[t - 15]);
      var s1 := Small1(schedule[t - 2]);
      schedule[t] := Add4(schedule[t - 16], s0, schedule[t - 7], s1);
    }
  }

  /** The working variables after all rounds, over a filled schedule. */
  method Mix(start: Vars, schedule: array<word>, ghost block: seq<byte>) returns (v: Vars)
    requires |block| == 64 && schedule.Length == 64 && Filled(schedule[..], block, 64)
    ensures v == Rounds(start, block, |K|)
  {
    hide Add, Add4, Sigma0, Sigma1, Ch, Maj, Schedule;
    var a, b, c, d, e, f, g, h := start.a, start.b, start.c, start.d, start.e, start.f, start.g, start.h;
    for t := 0 to |K|
      invariant Vars(a, b, c, d, e, f, g, h) == Rounds(start, block, t)
    {
      assert schedule[t] == Schedule(block, t);
      var first := Add(Add4(h, Sigma1(e), Ch(e, f, g), K[t]), schedule[t]);
      var second := Add(Sigma0(a), Maj(a, b, c));
      ghost var before := Vars(a, b, c, d, e, f, g, h);
      h := g;
      g := f;
      f := e;
      e := Add(d, first);
      d := c;
      c := b;
      b := a;
      a := Add(first, second);
      assert Vars(a, b, c, d, e, f, g, h) == Round(before, K[t], schedule[t]);
    }
    v := Vars(a, b, c, d, e, f, g, h);
  }

  method Compress(state: array<word>, block: seq<byte>)
    requires state.Length == 8 && |block| == 64
    modifies state
    ensures state[..] == NextHash(old(state[..]), block)
  {
    var schedule := FillSchedule(block);
    var v := Mix(ToVars(state[..]), schedule, block);
    AddInto(state, FromVars(v));
  }

  method AddInto(state: array<word>, values: seq<word>)
    requires state.Length == |values|
    modifies state
    ensures state[..] == Sums(values, old(state[..]))
  {
    for i := 0 to state.Length
      invariant forall j :: 0 <= j < i ==> state[j] == Add(values[j], old(state[j]))
      invariant forall j :: i <= j < state.Length ==> state[j] == old(state[j])
    {
      AddCommutes(state[i], values[i]);
      state[i] := Add(state[i], values[i]);
    }
  }

  /** The last block of the message before its length is known to fit. */
  function TailBlock(m: seq<byte>): (b: seq<byte>)
    ensures |b| == 64
  {
    var tail := m[64 * (|m| / 64)..];
    tail + [0x80] + Zeros(63 - |tail|)
  }

  lemma PadPrefix(m: seq<byte>)
    ensures var q := |m| / 64; |Pad(m)| >= 64 * q && Pad(m)[..64 * q] == m[..64 * q]
  {
  }

  /** A tail that leaves room for the set bit and the length needs one block. */
  lemma ShortTail(m: seq<byte>)
    requires |m| % 64 + 9 <= 64
    ensures var q := |m| / 64;
      && |Pad(m)| == 64 * (q + 1)
      && Pad(m)[64 * q..64 * (q + 1)] == TailBlock(m)[..56] + Be64(8 * |m|)
  {
    var q := |m| / 64;
    var tail := m[64 * q..];
    assert (119 - |m| % 64) % 64 == 55 - |tail|;
    assert Pad(m) == m[..64 * q] + (tail + [0x80] + Zeros(55 - |tail|) + Be64(8 * |m|));
    assert TailBlock(m)[..56] == tail + [0x80] + Zeros(55 - |tail|);
  }

  /** Any other tail needs two. */
  lemma LongTail(m: seq<byte>)
    requires |m| % 64 + 9 > 64
    ensures var q := |m| / 64;
      && |Pad(m)| == 64 * (q + 2)
      && Pad(m)[64 * q..64 * (q + 1)] == TailBlock(m)
      && Pad(m)[64 * (q + 1)..64 * (q + 2)] == Zeros(64)[..56] + Be64(8 * |m|)
  {
    var q := |m| / 64;
    var tail := m[64 * q..];
    assert (119 - |m| % 64) % 64 == 119 - |tail|;
    assert Zeros(119 - |tail|) == Zeros(63 - |tail|) + Zeros(64)[..56];
    assert Pad(m) == m[..64 * q] + TailBlock(m) + (Zeros(64)[..56] + Be64(8 * |m|));
  }

  lemma NoBlocks(p: seq<byte>)
    ensures HashBlocks(p, 0) == INITIAL
  {
  }

  /** The full blocks of the message, then its padded tail. */
  method HashChunks(message: seq<byte>, state: array<word>, ghost p: seq<byte>)
    requires state.Length == 8 && state[..] == HashBlocks(p, 0)
    requires |p| >= 64 * (|message| / 64) && p[..64 * (|message| / 64)] == message[..64 * (|message| / 64)]
    modifies state
    ensures state[..] == HashBlocks(p, |message| / 64)
  {
    hide HashBlocks;
    var q := |message| / 64;
    for n := 0 to q
      invariant state[..] == HashBlocks(p, n)
    {
      var block := message[64 * n..64 * n + 64];
      BlockOfPrefix(message, p, q, n);
      CompressNext(state, block, p, n);
    }
  }

  lemma BlockOfPrefix(message: seq<byte>, p: seq<byte>, q: nat, n: nat)
    requires n < q && 64 * q <= |message| && 64 * q <= |p|
    requires p[..64 * q] == message[..64 * q]
    ensures p[64 * n..64 * (n + 1)] == message[64 * n..64 * n + 64]
  {
    assert p[..64 * q][64 * n..64 * n + 64] == p[64 * n..64 * n + 64];
    assert message[..64 * q][64 * n..64 * n + 64] == message[64 * n..64 * n + 64];
  }

  method CompressNext(state: array<word>, block: seq<byte>, ghost p: seq<byte>, ghost n: nat)
    requires state.Length == 8 && |block| == 64
    requires 64 * (n + 1) <= |p| && block == p[64 * n..64 * (n + 1)] && state[..] == HashBlocks(p, n)
    modifies state
    ensures state[..] == HashBlocks(p, n + 1)
  {
    Compress(state, block);
  }

  method ComputeSha256(message: seq<byte>) returns (digest: seq<byte>)
    ensures digest == Sha256Spec(message)
  {
    hide HashBlocks, Pad, TailBlocks, DigestBytes;
    var state := new word[8](i requires 0 <= i < 8 => INITIAL[i]);
    PadPrefix(message);
    assert state[..] == INITIAL;
    NoBlocks(Pad(message));
    HashChunks(message, state, Pad(message));
    PadIsTailBlocks(message);
    var bits := 8 * |message| % 0x1_0000_0000_0000_0000;
    HashTail(message[64 * (|message| / 64)..], bits, state, Pad(message), |message| / 64);
    digest := DigestOf(state);
  }

  /** What the standard's padding amounts to: one or two blocks after the full ones. */
  ghost predicate TailBlocks(p: seq<byte>, tail: seq<byte>, q: nat, bits: nat)
    requires |tail| < 64
  {
    var last := tail + [0x80] + Zeros(63 - |tail|);
    if |tail| + 9 <= 64 then
      |p| == 64 * (q + 1) && p[64 * q..64 * (q + 1)] == last[..56] + Be64(bits)
    else
      && |p| == 64 * (q + 2) && p[64 * q..64 * (q + 1)] == last
      && p[64 * (q + 1)..64 * (q + 2)] == Zeros(64)[..56] + Be64(bits)
  }

  lemma LengthWraps(bits: nat)
    ensures Be64(bits) == Be64(bits % 0x1_0000_0000_0000_0000)
  {
    hide BigEndian;
    assert bits % 0x1_0000_0000_0000_0000 % 0x1_0000_0000_0000_0000 == bits % 0x1_0000_0000_0000_0000;
  }

  lemma PadIsTailBlocks(m: seq<byte>)
    ensures TailBlocks(Pad(m), m[64 * (|m| / 64)..], |m| / 64, 8 * |m| % 0x1_0000_0000_0000_0000)
  {
    LengthWraps(8 * |m|);
    hide Be64, Pad;
    if |m| % 64 + 9 <= 64 { ShortTail(m); } else { LongTail(m); }
  }

  method HashTail(tail: seq<byte>, bits: nat, state: array<word>, ghost p: seq<byte>, ghost q: nat)
    requires |tail| < 64 && state.Length == 8 && TailBlocks(p, tail, q, bits)
    requires state[..] == HashBlocks(p, q)
    modifies state
    ensures state[..] == HashBlocks(p, |p| / 64)
  {
    hide HashBlocks;
    var block := tail + [0x80] + Zeros(63 - |tail|);
    if |tail| + 1 + 8 > 64 {
      CompressNext(state, block, p, q);
      block := Zeros(64);
      block := block[..56] + Be64(bits);
      CompressNext(state, block, p, q + 1);
    } else {
      block := block[..56] + Be64(bits);
      CompressNext(state, block, p, q);
    }
  }

  method DigestOf(state: array<word>) returns (digest: seq<byte>)
    requires state.Length == 8
    ensures digest == DigestBytes(state[..], |state[..]|)
  {
    digest := [];
    for n := 0 to 8
      invariant digest == DigestBytes(state[..], n)
    {
      digest := digest + WordBytes(state[n]);
    }
  }
}
