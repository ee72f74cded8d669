/** The extractor: a fast path that stands in for decryption, and an indexed search that stands in for a full one. */
module Extract {
  import opened Types
  import opened Cipher
  import opened Text
  import Bytes
  import Guarded

  const MIN: nat := 8
  const MAX: nat := 64

  // ----- the fast path

  /** What one key adds at each offset, read off the decryption of the zero of the alphabet. */
  method Keystream(H: BlockFunction, key: digest) returns (stream: seq<byte>)
    ensures |stream| == 64
    ensures forall i :: 0 <= i < 64 ==> stream[i] == Added(H, key, i)
  {
    hide Move, Amount;
    var probe := new byte[MAX](_ => FIRST);
    Step(H, key, probe, Backward);
    stream := [];
    for i := 0 to MAX
      invariant |stream| == i
      invariant forall j :: 0 <= j < i ==> stream[j] == Added(H, key, j)
    {
      assert probe[i] == probe[..][i];
      stream := stream + [probe[i] - FIRST];
    }
  }

  function Added(H: BlockFunction, key: digest, i: nat): (r: byte)
    ensures r < ALPHABET
  {
    Move(FIRST, Amount(H, key, i), Backward) - FIRST
  }

  /** One decrypted byte. The sum fits a byte, because both terms are below the alphabet size. */
  function Clear(cipher: byte, added: byte): (r: byte)
    requires FIRST <= cipher <= LAST && added < ALPHABET
  {
    var sum: byte := (cipher - FIRST) as int + added as int;
    (sum as int % ALPHABET) + FIRST as int
  }

  lemma ClearMoves(cipher: byte, amount: nat)
    requires FIRST <= cipher <= LAST && amount < ALPHABET
    ensures Clear(cipher, Move(FIRST, amount, Backward) - FIRST) == Move(cipher, amount, Backward)
  {
    var current: int := cipher - FIRST;
    Wrap(ALPHABET - amount);
    Wrap(current + (ALPHABET - amount) % ALPHABET);
    Wrap(current + ALPHABET - amount);
  }

  /** The fast path over the keystream is decryption, at every position that it covers. */
  lemma ClearIsDecrypt(H: BlockFunction, key: digest, value: seq<byte>)
    requires InAlphabet(value) && |value| <= 64
    ensures seq(|value|, i requires 0 <= i < |value| => Clear(value[i], Added(H, key, i)))
         == Stepped(H, key, value, Backward)
  {
    forall i | 0 <= i < |value|
      ensures Clear(value[i], Added(H, key, i)) == Stepped(H, key, value, Backward)[i]
    {
      ClearMoves(value[i], Amount(H, key, i));
    }
  }

  // ----- the indexed search

  /** One value that the search looks for. A text must stay in the alphabet, as the cipher demands. */
  datatype Expected = Expected(plain: seq<byte>, kind: Guarded.LiteralKind) {
    ghost predicate Valid() { kind.TextLiteral? ==> InAlphabet(plain) }
  }

  function CipherOf(H: BlockFunction, salt: seq<byte>, identity: seq<byte>, e: Expected): (r: seq<byte>)
    requires e.Valid()
    ensures |r| == |e.plain|
  {
    var key := Key(H, salt, identity);
    if e.kind.TextLiteral? then Stepped(H, key, e.plain, Forward) else Streamed(H, key, e.plain)
  }

  ghost predicate MatchesAt(image: seq<byte>, cipher: seq<byte>, start: nat) {
    start + |cipher| <= |image| && image[start..start + |cipher|] == cipher
  }

  /** The rule that the indexed search answers: a match of at least eight bytes that starts before the last eight. */
  ghost predicate Placed(image: seq<byte>, cipher: seq<byte>) {
    |cipher| >= 8 && exists start: nat :: start < |image| - 8 && MatchesAt(image, cipher, start)
  }

  ghost predicate Occurs(image: seq<byte>, cipher: seq<byte>) {
    exists start: nat :: MatchesAt(image, cipher, start)
  }

  ghost predicate FoundFrom(H: BlockFunction, image: seq<byte>, identity: seq<byte>, e: Expected, at: nat)
    requires e.Valid() && at + 16 <= |image|
  {
    Placed(image, CipherOf(H, image[at..at + 16], identity, e))
  }

  ghost predicate FoundBefore(H: BlockFunction, image: seq<byte>, identity: seq<byte>, e: Expected, n: nat)
    requires e.Valid() && (n == 0 || n + 15 <= |image|)
  {
    exists at: nat :: at < n && FoundFrom(H, image, identity, e, at)
  }

  type Index = map<seq<byte>, seq<nat>>

  function Head(image: seq<byte>, at: nat): seq<byte>
    requires at + MIN <= |image|
  {
    image[at..at + MIN]
  }

  /** The index holds, for every eight bytes, exactly the starts below a bound where they sit. */
  ghost predicate Indexes(index: Index, image: seq<byte>, n: nat)
    requires n == 0 || n + MIN <= |image|
  {
    && (forall at: nat :: at < n ==> Head(image, at) in index && at in index[Head(image, at)])
    && (forall head, k :: head in index && 0 <= k < |index[head]| ==>
          index[head][k] < n && Head(image, index[head][k]) == head)
  }

  method BuildIndex(image: seq<byte>) returns (index: Index)
    ensures Indexes(index, image, if |image| > MIN then |image| - MIN else 0)
  {
    index := map[];
    var n := if |image| > MIN then |image| - MIN else 0;
    for at := 0 to n
      invariant Indexes(index, image, at)
    {
      var head := Head(image, at);
      var places := if head in index then index[head] else [];
      assert forall a: nat :: a in places + [at] <==> a in places || a == at;
      index := index[head := places + [at]];
    }
  }

  /** Whether the index leads to a match of the whole ciphertext. */
  method LookUp(image: seq<byte>, index: Index, cipher: seq<byte>) returns (found: bool)
    requires Indexes(index, image, if |image| > MIN then |image| - MIN else 0)
    ensures found <==> Placed(image, cipher)
  {
    if |cipher| < MIN { return false; }
    var head := cipher[..MIN];
    if head !in index {
      forall start: nat | start < |image| - MIN && MatchesAt(image, cipher, start) ensures false {
        HeadMatches(image, cipher, start);
      }
      return false;
    }
    var places := index[head];
    found := exists i ::
      0 <= i < |places| && places[i] + |cipher| <= |image| && image[places[i]..places[i] + |cipher|] == cipher;
    forall start: nat | start < |image| - MIN && MatchesAt(image, cipher, start) ensures found {
      HeadMatches(image, cipher, start);
      assert start in places;
    }
    if found {
      var i :| 0 <= i < |places| && places[i] + |cipher| <= |image| && image[places[i]..places[i] + |cipher|] == cipher;
      assert MatchesAt(image, cipher, places[i]);
    }
  }

  lemma HeadMatches(image: seq<byte>, cipher: seq<byte>, start: nat)
    requires |cipher| >= MIN && MatchesAt(image, cipher, start)
    ensures start + MIN <= |image| && Head(image, start) == cipher[..MIN]
  {
    assert image[start..start + |cipher|][..MIN] == image[start..start + MIN];
  }

  /** Each value is recovered exactly when some salt offset gives a ciphertext that the rule places. */
  method Recover(H: BlockFunction, image: seq<byte>, identity: seq<byte>, expected: seq<Expected>)
    returns (recovered: seq<bool>)
    requires forall w :: 0 <= w < |expected| ==> expected[w].Valid()
    ensures |recovered| == |expected|
    ensures forall w :: 0 <= w < |expected| ==>
      (recovered[w] <==> FoundBefore(H, image, identity, expected[w], if |image| > 16 then |image| - 16 else 0))
  {
    var index := BuildIndex(image);
    recovered := seq(|expected|, _ => false);
    var n := if |image| > 16 then |image| - 16 else 0;
    for at := 0 to n
      invariant |recovered| == |expected|
      invariant forall w :: 0 <= w < |expected| ==> (recovered[w] <==> FoundBefore(H, image, identity, expected[w], at))
    {
      if forall w :: 0 <= w < |recovered| ==> recovered[w] {
        forall w | 0 <= w < |expected| ensures FoundBefore(H, image, identity, expected[w], n) {
          FoundStays(H, image, identity, expected[w], at, n);
        }
        break;
      }
      recovered := TrySalt(H, image, index, identity, expected, at, recovered);
    }
  }

  lemma FoundStays(H: BlockFunction, image: seq<byte>, identity: seq<byte>, e: Expected, at: nat, n: nat)
    requires e.Valid() && at <= n && n + 16 <= |image| && FoundBefore(H, image, identity, e, at)
    ensures FoundBefore(H, image, identity, e, n)
  {
  }

  method TrySalt(H: BlockFunction, image: seq<byte>, index: Index, identity: seq<byte>, expected: seq<Expected>,
                 at: nat, before: seq<bool>) returns (recovered: seq<bool>)
    requires forall w :: 0 <= w < |expected| ==> expected[w].Valid()
    requires Indexes(index, image, if |image| > MIN then |image| - MIN else 0)
    requires at + 16 < |image| && |before| == |expected|
    requires forall w :: 0 <= w < |expected| ==> (before[w] <==> FoundBefore(H, image, identity, expected[w], at))
    ensures |recovered| == |expected|
    ensures forall w :: 0 <= w < |expected| ==> (recovered[w] <==> FoundBefore(H, image, identity, expected[w], at + 1))
  {
    hide Key, Indexes, Placed;
    var salt := image[at..at + 16];
    var key := DeriveKey(H, salt, identity);
    recovered := before;
    for which := 0 to |expected|
      invariant |recovered| == |expected|
      invariant forall w :: 0 <= w < which ==>
        (recovered[w] <==> FoundBefore(H, image, identity, expected[w], at + 1))
      invariant forall w :: which <= w < |expected| ==> recovered[w] == before[w]
    {
      NextSalt(H, image, identity, expected[which], at);
      if !recovered[which] {
        var e := expected[which];
        var cipher := if e.kind.TextLiteral? then Stepped(H, key, e.plain, Forward) else Streamed(H, key, e.plain);
        var found := LookUp(image, index, cipher);
        recovered := recovered[which := found];
      }
    }
  }

  lemma NextSalt(H: BlockFunction, image: seq<byte>, identity: seq<byte>, e: Expected, at: nat)
    requires e.Valid() && at + 16 <= |image|
    ensures FoundBefore(H, image, identity, e, at + 1)
       <==> FoundBefore(H, image, identity, e, at) || FoundFrom(H, image, identity, e, at)
  {
  }

  // ----- what the rule amounts to

  /** For a ciphertext of more than eight bytes the rule is plain substring search. */
  lemma LongerIsFullSearch(image: seq<byte>, cipher: seq<byte>)
    requires |cipher| > MIN
    ensures Placed(image, cipher) <==> Occurs(image, cipher)
  {
  }

  /** For exactly eight bytes the rule misses one place: the last eight bytes of the file. */
  lemma EightBytesMissTheEnd(image: seq<byte>, cipher: seq<byte>)
    requires |cipher| == MIN
    ensures Occurs(image, cipher) <==> Placed(image, cipher) || MatchesAtEnd(image, cipher)
  {
    if MatchesAtEnd(image, cipher) { assert MatchesAt(image, cipher, |image| - MIN); }
  }

  ghost predicate MatchesAtEnd(image: seq<byte>, cipher: seq<byte>) {
    |image| >= |cipher| && image[|image| - |cipher|..] == cipher
  }

  /** The search that the extractor stands in for: every salt offset, and every place of the ciphertext. */
  ghost predicate FoundAnywhere(H: BlockFunction, image: seq<byte>, identity: seq<byte>, e: Expected)
    requires e.Valid()
  {
    exists at: nat :: FullMatch(H, image, identity, e, at)
  }

  ghost predicate FullMatch(H: BlockFunction, image: seq<byte>, identity: seq<byte>, e: Expected, at: nat)
    requires e.Valid()
  {
    at + 16 <= |image| && Occurs(image, CipherOf(H, image[at..at + 16], identity, e))
  }

  /** Some salt offset gives a ciphertext that fills the last eight bytes. */
  ghost predicate OnlyTheEndIsLeft(H: BlockFunction, image: seq<byte>, identity: seq<byte>, e: Expected)
    requires e.Valid()
  {
    exists at: nat :: EndMatch(H, image, identity, e, at)
  }

  ghost predicate EndMatch(H: BlockFunction, image: seq<byte>, identity: seq<byte>, e: Expected, at: nat)
    requires e.Valid()
  {
    at + 16 <= |image| && MatchesAtEnd(image, CipherOf(H, image[at..at + 16], identity, e))
  }

  /**
   What the extractor misses of the full search, for values of eight bytes or more: a salt that is the last sixteen
   bytes of the file, and an eight-byte ciphertext that is its last eight.
   */
  lemma RecoveryMissesExactly(H: BlockFunction, image: seq<byte>, identity: seq<byte>, e: Expected)
    requires e.Valid()
    ensures |e.plain| >= MIN && FoundAnywhere(H, image, identity, e)
       <==> || FoundBefore(H, image, identity, e, if |image| > 16 then |image| - 16 else 0)
            || (|image| >= 16 && FoundFrom(H, image, identity, e, |image| - 16))
            || (|e.plain| == MIN && OnlyTheEndIsLeft(H, image, identity, e))
  {
    hide CipherOf, Occurs, MatchesAtEnd;
    if |image| < 16 || |e.plain| < MIN { return; }
    NextSalt(H, image, identity, e, |image| - 16);
    forall at: nat | at + 16 <= |image|
      ensures FullMatch(H, image, identity, e, at)
         <==> FoundFrom(H, image, identity, e, at) || (|e.plain| == MIN && EndMatch(H, image, identity, e, at))
    {
      var cipher := CipherOf(H, image[at..at + 16], identity, e);
      if |cipher| == MIN { EightBytesMissTheEnd(image, cipher); } else { LongerIsFullSearch(image, cipher); }
    }
    if FoundBefore(H, image, identity, e, |image| - 15) {
      var at: nat :| at < |image| - 15 && FoundFrom(H, image, identity, e, at);
      assert FullMatch(H, image, identity, e, at);
    }
    if |e.plain| == MIN && OnlyTheEndIsLeft(H, image, identity, e) {
      var at: nat :| EndMatch(H, image, identity, e, at);
      assert FullMatch(H, image, identity, e, at);
    }
  }

  /**
   A constant that the macro emitted is recovered from any file that holds its salt and its value, unless that salt is
   the last sixteen bytes of the file or the value is eight bytes long and the last eight.
   */
  lemma EmittedIsRecovered(H: BlockFunction, kind: Guarded.LiteralKind, plain: seq<byte>, seed: Option<string>,
                           stated: string, image: seq<byte>, at: nat)
    requires Guarded.Expand(H, kind, plain, seed, stated).Ok? && at + 16 <= |image|
    requires image[at..at + 16] == Guarded.Expand(H, kind, plain, seed, stated).value.salt
    requires Occurs(image, Guarded.Expand(H, kind, plain, seed, stated).value.value)
    ensures var identity := Guarded.StatedMaterial(Guarded.Parse(stated).value);
      || FoundBefore(H, image, identity, Expected(plain, kind), |image| - 16)
      || at == |image| - 16
      || (|plain| == MIN && MatchesAtEnd(image, Guarded.Expand(H, kind, plain, seed, stated).value.value))
    ensures FoundAnywhere(H, image, Guarded.StatedMaterial(Guarded.Parse(stated).value), Expected(plain, kind))
  {
    hide Guarded.Parse, Key, DeriveSalt, Stepped, Streamed, Placed, MatchesAtEnd;
    var identity := Guarded.StatedMaterial(Guarded.Parse(stated).value);
    var e := Expected(plain, kind);
    var cipher := CipherOf(H, image[at..at + 16], identity, e);
    assert cipher == Guarded.Expand(H, kind, plain, seed, stated).value.value;
    if |cipher| == MIN { EightBytesMissTheEnd(image, cipher); } else { LongerIsFullSearch(image, cipher); }
    assert FullMatch(H, image, identity, e, at);
    if at < |image| - 16 && Placed(image, cipher) { assert FoundFrom(H, image, identity, e, at); }
  }

  // ----- a file that ends with its eight-byte value

  function Fill(n: nat, b: byte): (s: seq<byte>)
    ensures |s| == n
  {
    seq(n, _ => b)
  }

  function AllZeros(m: seq<byte>): digest { Fill(32, 0) }

  /** A block function of zeros moves nothing. */
  lemma ZerosMoveNothing(H: BlockFunction, key: digest, plain: seq<byte>)
    requires InAlphabet(plain) && |plain| <= 16 && KeyBlock(H, key, 0) == Fill(32, 0)
    ensures Stepped(H, key, plain, Forward) == plain
  {
    hide KeyBlock;
    forall i | 0 <= i < |plain| ensures Stepped(H, key, plain, Forward)[i] == plain[i] {
      assert Amount(H, key, i) == BlockAmount(Fill(32, 0), i % 16 * 2) == 0;
      Wrap((plain[i] - FIRST) as int);
    }
  }

  /**
   The file is a salt and the eight-byte value that the macro emitted with it: the salt is tried, the value is there,
   and nothing is recovered.
   */
  lemma EightBytesAtTheEndAreMissed()
    ensures var plain := Fill(8, 0x41);
      var emitted := Guarded.Expand(AllZeros, Guarded.TextLiteral, plain, Some(""), "none");
      var image := Fill(16, 0) + plain;
      && emitted.Ok? && emitted.value.salt == image[0..16] && 0 < |image| - 16
      && emitted.value.value == plain && Occurs(image, plain)
      && !FoundBefore(AllZeros, image, [], Expected(plain, Guarded.TextLiteral), |image| - 16)
  {
    var plain := Fill(8, 0x41);
    var image := Fill(16, 0) + plain;
    var e := Expected(plain, Guarded.TextLiteral);
    hide Guarded.Parse, Stepped;
    Guarded.ParseAcceptsExactly("none", Guarded.AppleTeam, "");
    forall key: digest ensures Stepped(AllZeros, key, plain, Forward) == plain {
      ZerosMoveNothing(AllZeros, key, plain);
    }
    assert MatchesAt(image, plain, 16);
    assert image[0..16] == Fill(16, 0);
    forall at: nat | at < |image| - 16 ensures !FoundFrom(AllZeros, image, [], e, at) {
      assert CipherOf(AllZeros, image[at..at + 16], [], e) == plain;
      forall start: nat | start < 16 ensures !MatchesAt(image, plain, start) {
        assert image[start..start + 8][0] == image[start] == 0;
      }
    }
  }

  // ----- a file that ends with its salt

  /** Zeros for one derivation and for the block of the key it gives; ones for everything else. */
  function TwoFaced(m: seq<byte>): digest {
    if m == Framed([Fill(16, 1), []]) || (|m| == 36 && m[..32] == Fill(32, 0)) then Fill(32, 0) else Fill(32, 1)
  }

  lemma FramedTwo(a: seq<byte>, b: seq<byte>)
    ensures |Framed([a, b])| == 16 + |a| + |b|
  {
    hide Framed;
    FramedFirst([a, b]);
    FramedFirst([b]);
    assert [a, b][1..] == [b] && [b][1..] == [];
    NoFrames([]);
  }

  lemma OtherSaltsDeriveOnes(salt: seq<byte>)
    requires |salt| == 16 && salt[0] == 0x41
    ensures Key(TwoFaced, salt, []) == Fill(32, 1)
  {
    hide Framed;
    var ones := Fill(16, 1);
    FramedTwo(salt, []);
    KeyInputAgreesIff(TwoFaced, salt, [], ones, []);
    assert ones[0] == 1;
  }

  lemma OnesGiveOnes()
    ensures KeyBlock(TwoFaced, Fill(32, 1), 0) == Fill(32, 1)
  {
    hide Framed, Bytes.Le;
    FramedTwo(Fill(16, 1), []);
    var input := Fill(32, 1) + Bytes.Le(0, 4);
    assert input[..32][0] == 1;
  }

  /** Every other salt derives a key whose stream moves each letter of the value to another. */
  lemma OtherSaltsMove(salt: seq<byte>, plain: seq<byte>)
    requires |salt| == 16 && salt[0] == 0x41 && plain == Fill(9, 0x41)
    ensures var c := CipherOf(TwoFaced, salt, [], Expected(plain, Guarded.TextLiteral)); |c| == 9 && c[0] == 0x25
  {
    hide Key, KeyBlock, TwoFaced;
    OtherSaltsDeriveOnes(salt);
    OnesGiveOnes();
    assert Amount(TwoFaced, Fill(32, 1), 0) == BlockAmount(Fill(32, 1), 0) == 67;
  }

  lemma OwnSaltMovesNothing(plain: seq<byte>)
    requires plain == Fill(9, 0x41)
    ensures CipherOf(TwoFaced, Fill(16, 1), [], Expected(plain, Guarded.TextLiteral)) == plain
  {
    var ones := Fill(16, 1);
    assert Key(TwoFaced, ones, []) == Fill(32, 0);
    hide Key, Framed;
    var key := Key(TwoFaced, ones, []);
    assert KeyBlock(TwoFaced, key, 0) == Fill(32, 0) by {
      var input := key + Bytes.Le(0, 4);
      assert input[..32] == key;
    }
    ZerosMoveNothing(TwoFaced, key, plain);
  }

  /**
   The file is the nine-byte value that the macro emitted and its salt: both are there, a search that also tried the
   last sixteen bytes would recover the value, and the extractor does not.
   */
  lemma SaltAtTheEndIsMissed()
    ensures var plain := Fill(9, 0x41);
      var emitted := Guarded.Expand(TwoFaced, Guarded.TextLiteral, plain, Some(""), "none");
      var image := plain + Fill(16, 1);
      && emitted.Ok? && emitted.value.salt == image[9..] && emitted.value.value == plain && Occurs(image, plain)
      && FoundFrom(TwoFaced, image, [], Expected(plain, Guarded.TextLiteral), |image| - 16)
      && !FoundBefore(TwoFaced, image, [], Expected(plain, Guarded.TextLiteral), |image| - 16)
  {
    var plain := Fill(9, 0x41);
    var image := plain + Fill(16, 1);
    var e := Expected(plain, Guarded.TextLiteral);
    hide Guarded.Parse, CipherOf, TwoFaced;
    Guarded.ParseAcceptsExactly("none", Guarded.AppleTeam, "");
    SampleSalt(plain);
    OwnSaltMovesNothing(plain);
    assert image[9..25] == Fill(16, 1) && image[9..] == Fill(16, 1);
    assert MatchesAt(image, plain, 0);
    assert CipherOf(TwoFaced, image[9..25], [], e)
      == Stepped(TwoFaced, Key(TwoFaced, Fill(16, 1), []), plain, Forward) by {
      SampleCipher(plain);
    }
    forall at: nat | at < |image| - 16 ensures !FoundFrom(TwoFaced, image, [], e, at) {
      var salt := image[at..at + 16];
      assert salt[0] == image[at] == 0x41;
      OtherSaltsMove(salt, plain);
      var cipher := CipherOf(TwoFaced, salt, [], e);
      forall start: nat ensures !MatchesAt(image, cipher, start) {
        if start + 9 <= |image| { assert image[start..start + 9][0] == image[start] != 0x25; }
      }
    }
  }

  lemma SampleSalt(plain: seq<byte>)
    requires |plain| == 9
    ensures DeriveSalt(TwoFaced, [], plain) == Fill(16, 1) && Utf8("") == []
  {
    hide Framed;
    FramedTwo([], plain);
    FramedTwo(Fill(16, 1), []);
    assert Fill(32, 1)[..16] == Fill(16, 1);
  }

  lemma SampleCipher(plain: seq<byte>)
    requires InAlphabet(plain)
    ensures CipherOf(TwoFaced, Fill(16, 1), [], Expected(plain, Guarded.TextLiteral))
         == Stepped(TwoFaced, Key(TwoFaced, Fill(16, 1), []), plain, Forward)
  {
  }
}
