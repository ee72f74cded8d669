/**
 The stream of guarded constants, over an arbitrary 32-byte block function in place of SHA-256.
 */
module Cipher {
  import opened Types
  import opened Bytes
  import Sha256

  type digest = d: seq<byte> | |d| == 32 witness seq(32, _ => 0)
  type BlockFunction = seq<byte> -> digest

  /** The block function that Fidelity uses. Everything below holds of any other one as well. */
  const SHA_256: BlockFunction := m => Sha256.Sha256Spec(m)

  const FIRST: byte := 0x20
  const LAST: byte := 0x7E
  const ALPHABET: nat := (LAST - FIRST) as int + 1
  const CAP: nat := 64

  predicate InAlphabet(value: seq<byte>) { forall i :: 0 <= i < |value| ==> 0x20 <= value[i] <= 0x7E }

  /** The counter is 32 bits wide and stays at its maximum. */
  function Counter(n: nat): nat { if n <= U32_MAX then n else U32_MAX }

  function KeyBlock(H: BlockFunction, key: digest, counter: nat): digest { H(key + Le(counter, 4)) }

  // ----- the alphabet stream

  datatype Direction = Forward | Backward

  /** The keystream amount of the character at an index: two bytes of the block that covers it. */
  function Amount(H: BlockFunction, key: digest, index: nat): (r: nat)
    ensures r < ALPHABET
  {
    BlockAmount(KeyBlock(H, key, Counter(index / 16)), index % 16 * 2)
  }

  function BlockAmount(block: digest, position: nat): (r: nat)
    requires position + 1 < 32
    ensures r < ALPHABET
  {
    (block[position] as int + 256 * block[position + 1] as int) % ALPHABET
  }

  function Move(b: byte, amount: nat, direction: Direction): (r: byte)
    requires b >= FIRST && amount < ALPHABET
    ensures FIRST <= r <= LAST
  {
    var current := (b - FIRST) as int;
    var moved := if direction.Forward? then (current + amount) % ALPHABET else (current + ALPHABET - amount) % ALPHABET;
    FIRST as int + moved
  }

  lemma MoveInverts(b: byte, amount: nat)
    requires FIRST <= b <= LAST && amount < ALPHABET
    ensures Move(Move(b, amount, Forward), amount, Backward) == b
    ensures Move(Move(b, amount, Backward), amount, Forward) == b
  {
    var current: int := b - FIRST;
    Wrap(current + amount);
    Wrap(current + ALPHABET - amount);
    Wrap((current + amount) % ALPHABET + ALPHABET - amount);
    Wrap((current + ALPHABET - amount) % ALPHABET + amount);
  }

  lemma Wrap(x: nat)
    requires x < 2 * ALPHABET
    ensures x % ALPHABET == if x < ALPHABET then x else x - ALPHABET
  {
  }

  predicate Readable(value: seq<byte>) { forall i :: 0 <= i < |value| ==> value[i] >= FIRST }

  function Stepped(H: BlockFunction, key: digest, value: seq<byte>, direction: Direction): (r: seq<byte>)
    requires Readable(value)
    ensures |r| == |value| && InAlphabet(r)
  {
    seq(|value|, i requires 0 <= i < |value| => Move(value[i], Amount(H, key, i), direction))
  }

  /** The in-place pass, which computes a block only at the first position it covers. */
  method Step(H: BlockFunction, key: digest, value: array<byte>, direction: Direction)
    requires Readable(value[..])
    modifies value
    ensures value[..] == Stepped(H, key, old(value[..]), direction)
  {
    hide Move, Le;
    var block: digest := seq(32, _ => 0);
    for index := 0 to value.Length
      invariant index % 16 != 0 ==> block == KeyBlock(H, key, Counter(index / 16))
      invariant forall i :: 0 <= i < index ==> value[i] == Move(old(value[i]), Amount(H, key, i), direction)
      invariant forall i :: index <= i < value.Length ==> value[i] == old(value[i])
    {
      var offset := index * 2;
      var position := offset % 32;
      assert value[index] == value[..][index] == old(value[..])[index];
      Positions(index);
      if position == 0 {
        var counter := if offset / 32 <= U32_MAX then offset / 32 else U32_MAX;
        var input := key + Le(counter, 4);
        block := H(input);
      }
      var amount := (block[position] as int + 256 * block[position + 1] as int) % ALPHABET;
      value[index] := Move(value[index], amount, direction);
    }
  }

  lemma Positions(index: nat)
    ensures index * 2 % 32 == index % 16 * 2 && index * 2 / 32 == index / 16
    ensures (index + 1) % 16 != 0 ==> (index + 1) / 16 == index / 16
  {
  }

  lemma DecryptInverts(H: BlockFunction, key: digest, text: seq<byte>)
    requires InAlphabet(text)
    ensures Stepped(H, key, Stepped(H, key, text, Forward), Backward) == text
    ensures Stepped(H, key, Stepped(H, key, text, Backward), Forward) == text
  {
    forall i | 0 <= i < |text|
      ensures Stepped(H, key, Stepped(H, key, text, Forward), Backward)[i] == text[i]
      ensures Stepped(H, key, Stepped(H, key, text, Backward), Forward)[i] == text[i]
    {
      MoveInverts(text[i], Amount(H, key, i));
    }
  }

  /** Under any key, decryption is one-to-one on the texts of the alphabet, and reaches each of them. */
  lemma DecryptIsBijective(H: BlockFunction, key: digest, a: seq<byte>, b: seq<byte>)
    requires InAlphabet(a) && InAlphabet(b)
    ensures Stepped(H, key, a, Backward) == Stepped(H, key, b, Backward) <==> a == b
    ensures exists c :: InAlphabet(c) && |c| == |a| && Stepped(H, key, c, Backward) == a
  {
    DecryptInverts(H, key, a);
    DecryptInverts(H, key, b);
    var c := Stepped(H, key, a, Forward);
    assert InAlphabet(c) && |c| == |a| && Stepped(H, key, c, Backward) == a;
  }

  /** The build-side entry point: refuses a literal that leaves the alphabet. */
  method Encrypt(H: BlockFunction, key: digest, plain: seq<byte>) returns (r: Option<seq<byte>>)
    ensures r == if InAlphabet(plain) then Some(Stepped(H, key, plain, Forward)) else None
  {
    if !InAlphabet(plain) { return None; }
    var output := new byte[|plain|](i requires 0 <= i < |plain| => plain[i]);
    assert output[..] == plain;
    Step(H, key, output, Forward);
    return Some(output[..]);
  }

  // ----- the byte stream

  /** Exclusive or of the low k bits. */
  function XorBits(a: nat, b: nat, k: nat): (r: nat)
  {
    if k == 0 then 0 else (a + b) % 2 + 2 * XorBits(a / 2, b / 2, k - 1)
  }

  lemma {:induction false} XorBitsTwice(a: nat, b: nat, k: nat, span: nat)
    requires a < span && span == Pow2(k)
    ensures XorBits(a, b, k) < span && XorBits(XorBits(a, b, k), b, k) == a
  {
    if k > 0 {
      XorBitsTwice(a / 2, b / 2, k - 1, Pow2(k - 1));
      LowBit(a, b, XorBits(a / 2, b / 2, k - 1));
    }
  }

  lemma LowBit(a: nat, b: nat, high: nat)
    ensures var x := (a + b) % 2 + 2 * high; x / 2 == high && (x + b) % 2 + 2 * (a / 2) == a
  {
    var p, q := a % 2, b % 2;
    assert a == 2 * (a / 2) + p && b == 2 * (b / 2) + q;
    var bit := if p == q then 0 else 1;
    assert (a + b) % 2 == bit by { Parity(a / 2 + b / 2, p + q); }
    assert (bit + 2 * high + b) % 2 == p by { Parity(high + b / 2, bit + q); }
  }

  lemma Parity(half: nat, low: nat)
    ensures (2 * half + low) % 2 == low % 2
  {
  }

  function Pow2(k: nat): nat { if k == 0 then 1 else 2 * Pow2(k - 1) }

  function Xor(a: byte, b: byte): byte {
    XorBitsTwice(a, b, 8, 256);
    XorBits(a, b, 8)
  }

  lemma XorTwice(a: byte, b: byte)
    ensures Xor(Xor(a, b), b) == a
  {
    hide XorBits;
    XorBitsTwice(a, b, 8, 256);
  }

  lemma {:induction false} XorBitsCommute(a: nat, b: nat, k: nat)
    ensures XorBits(a, b, k) == XorBits(b, a, k)
  {
    if k > 0 { XorBitsCommute(a / 2, b / 2, k - 1); }
  }

  lemma XorCommutes(a: byte, b: byte)
    ensures Xor(a, b) == Xor(b, a)
  {
    hide XorBits;
    XorBitsCommute(a, b, 8);
  }

  /** Only the byte that was mixed in takes a byte back. */
  lemma XorBackIff(a: byte, there: byte, back: byte)
    ensures Xor(Xor(a, there), back) == a <==> there == back
  {
    hide Xor;
    XorTwice(a, there);
    XorTwice(Xor(a, there), back);
    XorCommutes(a, there);
    XorCommutes(a, back);
    XorTwice(there, a);
    XorTwice(back, a);
  }

  function StreamByte(H: BlockFunction, key: digest, index: nat): byte {
    KeyBlock(H, key, Counter(index / 32))[index % 32]
  }

  function Streamed(H: BlockFunction, key: digest, value: seq<byte>): (r: seq<byte>)
    ensures |r| == |value|
  {
    seq(|value|, i requires 0 <= i < |value| => Xor(value[i], StreamByte(H, key, i)))
  }

  method ByteStream(H: BlockFunction, key: digest, value: array<byte>)
    modifies value
    ensures value[..] == Streamed(H, key, old(value[..]))
  {
    hide Xor;
    var block: digest := seq(32, _ => 0);
    for index := 0 to value.Length
      invariant index % 32 != 0 ==> block == KeyBlock(H, key, Counter(index / 32))
      invariant forall i :: 0 <= i < index ==> value[i] == Xor(old(value[i]), StreamByte(H, key, i))
      invariant forall i :: index <= i < value.Length ==> value[i] == old(value[i])
    {
      var position := index % 32;
      if position == 0 {
        var counter := if index / 32 <= U32_MAX then index / 32 else U32_MAX;
        var input := key + Le(counter, 4);
        block := H(input);
      }
      value[index] := Xor(value[index], block[position]);
    }
  }

  lemma StreamIsItsOwnInverse(H: BlockFunction, key: digest, value: seq<byte>)
    ensures Streamed(H, key, Streamed(H, key, value)) == value
  {
    hide Xor;
    forall i | 0 <= i < |value| ensures Streamed(H, key, Streamed(H, key, value))[i] == value[i] {
      XorTwice(value[i], StreamByte(H, key, i));
    }
  }

  // ----- the derivations

  /** Every part behind its length. */
  function Framed(parts: seq<seq<byte>>): seq<byte> {
    if parts == [] then [] else Framed(parts[..|parts| - 1]) + Frame(parts[|parts| - 1])
  }

  function Frame(part: seq<byte>): seq<byte> { Le(|part|, 8) + part }

  /** Lengths that fit the eight bytes of a prefix. */
  predicate Lengths(parts: seq<seq<byte>>) { forall i :: 0 <= i < |parts| ==> |parts[i]| < Span(8) }

  lemma {:induction false} FramedFirst(parts: seq<seq<byte>>)
    requires parts != []
    ensures Framed(parts) == Frame(parts[0]) + Framed(parts[1..])
  {
    hide Frame;
    if |parts| > 1 {
      FramedFirst(parts[..|parts| - 1]);
      assert parts[1..][..|parts| - 2] == parts[..|parts| - 1][1..];
    } else {
      assert parts[..0] == [];
    }
  }

  /** No two lists of parts frame to the same bytes. */
  lemma {:induction false} FramedInjective(p: seq<seq<byte>>, q: seq<seq<byte>>)
    requires Lengths(p) && Lengths(q) && Framed(p) == Framed(q)
    ensures p == q
    decreases |p|
  {
    hide Framed, Span, Le;
    if p == [] || q == [] {
      if p != [] { FramedFirst(p); NoFrames(q); }
      if q != [] { FramedFirst(q); NoFrames(p); }
    } else {
      FramedFirst(p);
      FramedFirst(q);
      FrameInjective(p[0], Framed(p[1..]), q[0], Framed(q[1..]));
      FramedInjective(p[1..], q[1..]);
      assert p == [p[0]] + p[1..] && q == [q[0]] + q[1..];
    }
  }

  lemma NoFrames(p: seq<seq<byte>>)
    requires p == []
    ensures Framed(p) == []
  {
  }

  lemma FrameInjective(a: seq<byte>, x: seq<byte>, b: seq<byte>, y: seq<byte>)
    requires |a| < Span(8) && |b| < Span(8) && Frame(a) + x == Frame(b) + y
    ensures a == b && x == y
  {
    hide Span, Le;
    var l, r := Frame(a) + x, Frame(b) + y;
    assert l[..8] == Le(|a|, 8) && r[..8] == Le(|b|, 8);
    LeInjective(|a|, |b|, 8);
    assert l[8..][..|a|] == a && r[8..][..|a|] == b;
    assert l[8 + |a|..] == x && r[8 + |a|..] == y;
  }

  /** What the derivation frames of a part: the part, or its digest beyond the cap. */
  function Reduce(H: BlockFunction, part: seq<byte>): (r: seq<byte>)
    ensures |r| <= CAP
  {
    if |part| > CAP then H(part) else part
  }

  function DeriveSalt(H: BlockFunction, seed: seq<byte>, literal: seq<byte>): (r: seq<byte>)
    ensures |r| == 16
  {
    H(Framed([seed, literal]))[..16]
  }

  function KeyInput(H: BlockFunction, salt: seq<byte>, identity: seq<byte>): seq<byte> {
    Framed([Reduce(H, salt), Reduce(H, identity)])
  }

  function Key(H: BlockFunction, salt: seq<byte>, identity: seq<byte>): digest { H(KeyInput(H, salt, identity)) }

  method ComputeSalt(H: BlockFunction, seed: seq<byte>, literal: seq<byte>) returns (salt: seq<byte>)
    ensures salt == DeriveSalt(H, seed, literal)
  {
    hide Frame;
    var parts := [seed, literal];
    var input := [];
    for i := 0 to |parts|
      invariant input == Framed(parts[..i])
    {
      assert parts[..i + 1][..i] == parts[..i];
      input := input + Frame(parts[i]);
    }
    assert parts[..|parts|] == parts;
    return H(input)[..16];
  }

  /** The derivation fills a fixed buffer, which always has room. */
  method DeriveKey(H: BlockFunction, salt: seq<byte>, identity: seq<byte>) returns (key: digest)
    ensures key == Key(H, salt, identity)
  {
    hide Framed, Le;
    var parts := [salt, identity];
    ghost var reduced := [Reduce(H, salt), Reduce(H, identity)];
    var input := new byte[CAP * 2 + 16](_ => 0);
    var filled: nat := 0;
    NoFrames(reduced[..0]);
    for i := 0 to |parts|
      invariant filled <= i * (CAP + 8) && input[..filled] == Framed(reduced[..i])
    {
      var part := if |parts[i]| > CAP then H(parts[i]) else parts[i];
      assert part == reduced[i];
      FramedLast(reduced, i);
      Write(input, filled, Le(|part|, 8));
      filled := filled + 8;
      Write(input, filled, part);
      filled := filled + |part|;
    }
    assert reduced[..|parts|] == reduced;
    key := H(input[..filled]);
  }

  lemma FramedLast(parts: seq<seq<byte>>, i: nat)
    requires i < |parts|
    ensures Framed(parts[..i + 1]) == Framed(parts[..i]) + Le(|parts[i]|, 8) + parts[i]
  {
    hide Le;
    assert parts[..i + 1][..i] == parts[..i];
  }

  method Write(a: array<byte>, at: nat, s: seq<byte>)
    requires at + |s| <= a.Length
    modifies a
    ensures a[..at + |s|] == old(a[..at]) + s
  {
    for i := 0 to |s|
      invariant forall j :: 0 <= j < at ==> a[j] == old(a[j])
      invariant forall j :: 0 <= j < i ==> a[at + j] == s[j]
    {
      a[at + i] := s[i];
    }
  }

  lemma SaltInputIsInjective(seed: seq<byte>, literal: seq<byte>, seed': seq<byte>, literal': seq<byte>)
    requires Lengths([seed, literal, seed', literal'])
    requires Framed([seed, literal]) == Framed([seed', literal'])
    ensures seed == seed' && literal == literal'
  {
    hide Framed, Span;
    ghost var all := [seed, literal, seed', literal'];
    assert |all[0]| < Span(8) && |all[1]| < Span(8) && |all[2]| < Span(8) && |all[3]| < Span(8);
    FramedInjective([seed, literal], [seed', literal']);
    assert [seed, literal][0] == [seed', literal'][0] && [seed, literal][1] == [seed', literal'][1];
  }

  /** Two key inputs agree exactly when both parts reduce to the same bytes. */
  lemma KeyInputAgreesIff(H: BlockFunction, salt: seq<byte>, identity: seq<byte>, salt': seq<byte>,
                          identity': seq<byte>)
    ensures KeyInput(H, salt, identity) == KeyInput(H, salt', identity')
       <==> Reduce(H, salt) == Reduce(H, salt') && Reduce(H, identity) == Reduce(H, identity')
  {
    Spans();
    hide Framed, Span;
    if KeyInput(H, salt, identity) == KeyInput(H, salt', identity') {
      SaltInputIsInjective(Reduce(H, salt), Reduce(H, identity), Reduce(H, salt'), Reduce(H, identity'));
    }
  }

  /** Identities within the cap are told apart. */
  lemma KeyInputIsInjective(H: BlockFunction, salt: seq<byte>, identity: seq<byte>, salt': seq<byte>,
                            identity': seq<byte>)
    requires |salt| == |salt'| == 16 && |identity| <= 64 && |identity'| <= 64
    requires KeyInput(H, salt, identity) == KeyInput(H, salt', identity')
    ensures salt == salt' && identity == identity'
  {
    KeyInputAgreesIff(H, salt, identity, salt', identity');
  }

  /** A longer identity derives the same key as the digest it collapses to, which is another identity. */
  lemma LongIdentityCollides(H: BlockFunction, salt: seq<byte>, identity: seq<byte>)
    requires |identity| > 64
    ensures identity != H(identity) && Key(H, salt, identity) == Key(H, salt, H(identity))
  {
    KeyInputAgreesIff(H, salt, identity, salt, H(identity));
  }

  // ----- what the digests are taken of

  /** Two parts, each behind its eight-byte length. */
  function Two(a: seq<byte>, b: seq<byte>): (r: seq<byte>)
    ensures |r| == 16 + |a| + |b|
  {
    Le(|a|, 8) + a + Le(|b|, 8) + b
  }

  lemma FramedIsTwo(a: seq<byte>, b: seq<byte>)
    ensures Framed([a, b]) == Two(a, b)
  {
    hide Framed, Le;
    FramedFirst([a, b]);
    FramedFirst([b]);
    assert [a, b][1..] == [b] && [b][1..] == [];
    NoFrames([]);
  }

  /**
   The key is the digest of the salt and of the identity, and the salt the front of that of the seed and the literal.
   */
  lemma DerivationsDigestBothParts(H: BlockFunction, first: seq<byte>, second: seq<byte>)
    ensures Key(H, first, second)
         == H(Two(if |first| > 64 then H(first) else first, if |second| > 64 then H(second) else second))
    ensures DeriveSalt(H, first, second) == H(Two(first, second))[..16]
  {
    hide Framed, Le;
    FramedIsTwo(Reduce(H, first), Reduce(H, second));
    FramedIsTwo(first, second);
  }

  /** A block function that tells the two key inputs apart gives equal keys exactly for equal reduced parts. */
  lemma KeysAgreeIff(H: BlockFunction, salt: seq<byte>, identity: seq<byte>, salt': seq<byte>, identity': seq<byte>)
    requires var x, y := Two(Reduce(H, salt), Reduce(H, identity)), Two(Reduce(H, salt'), Reduce(H, identity'));
      H(x) == H(y) ==> x == y
    ensures Key(H, salt, identity) == Key(H, salt', identity')
       <==> Reduce(H, salt) == Reduce(H, salt') && Reduce(H, identity) == Reduce(H, identity')
  {
    hide Framed, Le, Reduce;
    FramedIsTwo(Reduce(H, salt), Reduce(H, identity));
    FramedIsTwo(Reduce(H, salt'), Reduce(H, identity'));
    KeyInputAgreesIff(H, salt, identity, salt', identity');
  }

  /** For every two identities within the cap there is a block function that gives them different keys. */
  lemma IdentitiesGetDifferentKeys(salt: seq<byte>, identity: seq<byte>, identity': seq<byte>)
    returns (H: BlockFunction)
    requires |salt| == 16 && |identity| <= 64 && |identity'| <= 64 && identity != identity'
    ensures Key(H, salt, identity) != Key(H, salt, identity')
  {
    var x := Two(salt, identity);
    H := m => if m == x then seq(32, _ => 0) else seq(32, _ => 1);
    hide Framed, Le;
    FramedIsTwo(salt, identity);
    FramedIsTwo(salt, identity');
    KeyInputAgreesIff(H, salt, identity, salt, identity');
    assert H(x)[0] == 0;
    assert H(Two(salt, identity'))[0] == 1;
  }

  /** A block function whose front half tells the two inputs apart gives two literals under one seed two salts. */
  lemma LiteralsGetDifferentSalts(H: BlockFunction, seed: seq<byte>, literal: seq<byte>, literal': seq<byte>)
    requires Lengths([seed, literal, literal']) && literal != literal'
    requires var x, y := Two(seed, literal), Two(seed, literal'); H(x)[..16] == H(y)[..16] ==> x == y
    ensures DeriveSalt(H, seed, literal) != DeriveSalt(H, seed, literal')
  {
    hide Framed, Le, Span;
    FramedIsTwo(seed, literal);
    FramedIsTwo(seed, literal');
    var all := [seed, literal, literal'];
    assert |all[0]| < Span(8) && |all[1]| < Span(8) && |all[2]| < Span(8);
    if Framed([seed, literal]) == Framed([seed, literal']) { SaltInputIsInjective(seed, literal, seed, literal'); }
  }

  // ----- what the two streams are, without the functions that compute them

  /** The block that covers a position: the digest of the key and the four bytes of its number. */
  function BlockOf(H: BlockFunction, key: digest, n: nat): digest {
    H(key + [n % 256, n / 0x100 % 256, n / 0x1_0000 % 256, n / 0x100_0000 % 256])
  }

  lemma BlockIsOf(H: BlockFunction, key: digest, n: nat)
    requires n <= 0xFFFF_FFFF
    ensures KeyBlock(H, key, Counter(n)) == BlockOf(H, key, n)
  {
    var a, b, c := n / 256, n / 256 / 256, n / 256 / 256 / 256;
    assert Le(n, 4) == [n % 256] + Le(a, 3) && Le(a, 3) == [a % 256] + Le(b, 2) && Le(b, 2) == [b % 256] + Le(c, 1);
    assert Le(c, 1) == [c % 256] + Le(c / 256, 0);
    assert b == n / 0x1_0000 && c == n / 0x100_0000;
    assert Le(n, 4) == [n % 256, n / 0x100 % 256, n / 0x1_0000 % 256, n / 0x100_0000 % 256];
  }

  /** Each character moves around the 95 of the alphabet, by the two bytes of the block that are its own. */
  lemma CharacterMeans(H: BlockFunction, key: digest, value: seq<byte>, i: nat)
    requires Readable(value) && i < |value| && i / 16 <= 0xFFFF_FFFF
    ensures var b, at := BlockOf(H, key, i / 16), i % 16 * 2;
      Stepped(H, key, value, Forward)[i] as int
      == 0x20 + (value[i] as int - 0x20 + b[at] as int + 0x100 * b[at + 1] as int) % 95
  {
    hide KeyBlock, Le, BlockOf;
    BlockIsOf(H, key, i / 16);
    var b, at := BlockOf(H, key, i / 16), i % 16 * 2;
    ModuloAdds(value[i] as int - 0x20, b[at] as int + 0x100 * b[at + 1] as int);
  }

  lemma ModuloAdds(x: nat, y: nat)
    ensures (x + y % 95) % 95 == (x + y) % 95
  {
    assert y == 95 * (y / 95) + y % 95;
  }

  lemma ByteMeans(H: BlockFunction, key: digest, value: seq<byte>, i: nat)
    requires i < |value| && i / 32 <= 0xFFFF_FFFF
    ensures Streamed(H, key, value)[i] == Xor(value[i], BlockOf(H, key, i / 32)[i % 32])
  {
    hide KeyBlock, Le, BlockOf, Xor;
    BlockIsOf(H, key, i / 32);
  }

  /** A bit of the exclusive or is set exactly where the two bytes differ. */
  lemma XorByBit(a: byte, b: byte, k: nat)
    requires k < 8
    ensures Bit(Xor(a, b), k) != 0 <==> Bit(a, k) != Bit(b, k)
  {
    XorBitsByBit(a, b, 8, k);
  }

  function Bit(n: nat, k: nat): nat { if k == 0 then n % 2 else Bit(n / 2, k - 1) }

  lemma {:induction false} XorBitsByBit(a: nat, b: nat, n: nat, k: nat)
    requires k < n
    ensures Bit(XorBits(a, b, n), k) != 0 <==> Bit(a, k) != Bit(b, k)
  {
    var rest := XorBits(a / 2, b / 2, n - 1);
    LowBit(a, b, rest);
    if k == 0 {
      SumParity(a, b);
      assert ((a + b) % 2 + 2 * rest) % 2 == (a + b) % 2;
    } else {
      XorBitsByBit(a / 2, b / 2, n - 1, k - 1);
    }
  }

  lemma SumParity(a: nat, b: nat)
    ensures (a + b) % 2 != 0 <==> a % 2 != b % 2
  {
  }
}
