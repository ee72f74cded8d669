/** Little-endian numbers in byte sequences: the encoding, the bounds-checked reading, and the round trips. */
module Bytes {
  import opened Types

  /** The number of values that k bytes hold. */
  function Span(k: nat): (n: nat)
    ensures n >= 1
  {
    if k == 0 then 1 else 256 * Span(k - 1)
  }

  lemma Spans()
    ensures Span(2) == 0x1_0000 && Span(4) == 0x1_0000_0000 && Span(8) == 0x1_0000_0000_0000_0000
  {
  }

  /** The low k bytes of a number, least significant first. */
  function Le(n: nat, k: nat): (b: seq<byte>)
    ensures |b| == k
  {
    if k == 0 then [] else [n % 256] + Le(n / 256, k - 1)
  }

  /** The number that some little-endian bytes denote. */
  function Num(b: seq<byte>): nat {
    if b == [] then 0 else b[0] as int + 256 * Num(b[1..])
  }

  lemma {:induction false} NumBound(b: seq<byte>)
    ensures Num(b) < Span(|b|)
  {
    if b != [] { NumBound(b[1..]); }
  }

  lemma {:induction false} NumOfLe(n: nat, k: nat)
    requires n < Span(k)
    ensures Num(Le(n, k)) == n
  {
    if k > 0 {
      NumOfLe(n / 256, k - 1);
      assert Le(n, k)[1..] == Le(n / 256, k - 1);
    }
  }

  lemma {:induction false} LeOfNum(b: seq<byte>)
    ensures Le(Num(b), |b|) == b
  {
    if b != [] {
      LeOfNum(b[1..]);
      assert Num(b) / 256 == Num(b[1..]);
    }
  }

  /** The least significant byte comes first. */
  lemma FourBytes(a: byte, b: byte, c: byte, d: byte)
    ensures Num([a, b, c, d]) == a as int + 0x100 * b as int + 0x1_0000 * c as int + 0x100_0000 * d as int
  {
    assert [a, b, c, d][1..] == [b, c, d] && [b, c, d][1..] == [c, d] && [c, d][1..] == [d] && [d][1..] == [];
    assert Num([d]) == d as int + 256 * Num([]);
    assert Num([c, d]) == c as int + 256 * Num([d]);
    assert Num([b, c, d]) == b as int + 256 * Num([c, d]);
  }

  /** Equal encodings in k bytes come from equal numbers. */
  lemma LeInjective(m: nat, n: nat, k: nat)
    requires m < Span(k) && n < Span(k) && Le(m, k) == Le(n, k)
    ensures m == n
  {
    NumOfLe(m, k);
    NumOfLe(n, k);
  }

  /** The k-byte number at an offset, when all of its bytes are there. */
  function Read(b: seq<byte>, at: nat, k: nat): (r: Option<nat>)
    ensures r.Some? <==> at + k <= |b|
  {
    if at + k <= |b| then Some(Num(b[at..at + k])) else None
  }

  /** Some bytes sit at an offset. */
  ghost predicate At(b: seq<byte>, at: nat, part: seq<byte>) {
    at + |part| <= |b| && b[at..at + |part|] == part
  }

  /** A concatenation sits where its two halves sit, one behind the other. */
  lemma AtConcat(b: seq<byte>, at: nat, left: seq<byte>, right: seq<byte>)
    ensures At(b, at, left + right) <==> At(b, at, left) && At(b, at + |left|, right)
  {
    if At(b, at, left + right) {
      SliceOfSlice(b, at, at + |left + right|, 0, |left|);
      SliceOfSlice(b, at, at + |left + right|, |left|, |left| + |right|);
      assert (left + right)[0..|left|] == left && (left + right)[|left|..|left| + |right|] == right;
    }
    if At(b, at, left) && At(b, at + |left|, right) {
      assert b[at..at + |left + right|] == b[at..at + |left|] + b[at + |left|..at + |left| + |right|];
    }
  }

  lemma AtBetween(before: seq<byte>, part: seq<byte>, after: seq<byte>)
    ensures At(before + part + after, |before|, part)
  {
  }

  /** The number that was written is the number that is read, and no other bytes read as it. */
  lemma ReadsIff(b: seq<byte>, at: nat, n: nat, k: nat)
    ensures Read(b, at, k) == Some(n) <==> n < Span(k) && At(b, at, Le(n, k))
  {
    hide Span, Le, Num;
    if n < Span(k) { NumOfLe(n, k); }
    if at + k <= |b| {
      NumBound(b[at..at + k]);
      LeOfNum(b[at..at + k]);
    }
  }

  /** A slice of a slice is a slice of the whole. */
  lemma SliceOfSlice(b: seq<byte>, start: nat, end: nat, i: nat, j: nat)
    requires start <= end <= |b| && i <= j <= end - start
    ensures b[start..end][i..j] == b[start + i..start + j]
  {
    var inner, outer := b[start..end][i..j], b[start + i..start + j];
    assert |inner| == |outer|;
    forall k | 0 <= k < j - i ensures inner[k] == outer[k] {
      assert inner[k] == b[start..end][i + k];
    }
  }

  /** A field of a slice is the same field of the whole. */
  lemma ReadInside(b: seq<byte>, start: nat, size: nat, at: nat, k: nat)
    requires start + size <= |b|
    ensures at + k <= size ==> Read(b[start..start + size], at, k) == Read(b, start + at, k)
  {
    if at + k <= size {
      SliceOfSlice(b, start, start + size, at, at + k);
    }
  }

  /** The pieces, one behind the other. */
  function Joined(pieces: seq<seq<byte>>): seq<byte> {
    if pieces == [] then [] else pieces[0] + Joined(pieces[1..])
  }

  /** How many bytes the first pieces take. */
  function Offset(pieces: seq<seq<byte>>, i: nat): nat
    requires i <= |pieces|
  {
    if i == 0 then 0 else |pieces[0]| + Offset(pieces[1..], i - 1)
  }

  /** Every piece of a joined list sits at its offset. */
  lemma {:induction false} PieceAt(pieces: seq<seq<byte>>, i: nat)
    requires i < |pieces|
    ensures At(Joined(pieces), Offset(pieces, i), pieces[i])
    ensures |Joined(pieces)| == Offset(pieces, |pieces|)
  {
    hide At;
    var rest := pieces[1..];
    AtBetween([], pieces[0], Joined(rest));
    assert [] + pieces[0] + Joined(rest) == Joined(pieces);
    if rest != [] { PieceAt(rest, if i > 0 then i - 1 else 0); }
    if i > 0 { AtShift(pieces[0], Joined(rest), Offset(rest, i - 1), rest[i - 1]); }
  }

  lemma {:induction false} OffsetStep(pieces: seq<seq<byte>>, i: nat)
    requires i < |pieces|
    ensures Offset(pieces, i + 1) == Offset(pieces, i) + |pieces[i]|
  {
    if i > 0 { OffsetStep(pieces[1..], i - 1); }
  }

  lemma AtInside(b: seq<byte>, at: nat, whole: seq<byte>, inner: nat, part: seq<byte>)
    requires At(b, at, whole) && At(whole, inner, part)
    ensures At(b, at + inner, part)
  {
    SliceOfSlice(b, at, at + |whole|, inner, inner + |part|);
  }

  lemma AtShift(front: seq<byte>, b: seq<byte>, at: nat, part: seq<byte>)
    requires At(b, at, part)
    ensures At(front + b, |front| + at, part)
  {
    assert (front + b)[|front| + at..|front| + at + |part|] == b[at..at + |part|];
  }

  /** Records of one size sit at the multiples of that size. */
  lemma {:induction false} RecordAt(records: seq<seq<byte>>, size: nat, i: nat)
    requires i < |records| && forall j :: 0 <= j < |records| ==> |records[j]| == size
    ensures At(Joined(records), i * size, records[i])
    ensures |Joined(records)| == |records| * size
  {
    hide At;
    PieceAt(records, i);
    OffsetOfRecords(records, size, i);
    OffsetOfRecords(records, size, |records|);
  }

  lemma {:induction false} OffsetOfRecords(records: seq<seq<byte>>, size: nat, i: nat)
    requires i <= |records| && forall j :: 0 <= j < |records| ==> |records[j]| == size
    ensures Offset(records, i) == i * size
  {
    if i > 0 { OffsetOfRecords(records[1..], size, i - 1); }
  }

  /** A number among the pieces reads back at its offset. */
  lemma PieceReads(pieces: seq<seq<byte>>, i: nat, n: nat, k: nat)
    requires i < |pieces| && pieces[i] == Le(n, k) && n < Span(k)
    ensures Read(Joined(pieces), Offset(pieces, i), k) == Some(n)
  {
    hide At, Joined, Offset, Le, Span, Read;
    PieceAt(pieces, i);
    ReadsIff(Joined(pieces), Offset(pieces, i), n, k);
  }

  lemma OffsetOfNone(p: seq<seq<byte>>)
    ensures Offset(p, 0) == 0
  {
  }

  // ----- walks that read one record after another

  /** The records already read, in front of those still to come. */
  function Behind<T>(seen: seq<T>, rest: Option<seq<T>>): Option<seq<T>> {
    if rest.Some? then Some(seen + rest.value) else None
  }

  lemma NothingSeen<T>(rest: Option<seq<T>>)
    ensures Behind([], rest) == rest
  {
    if rest.Some? { assert [] + rest.value == rest.value; }
  }
}
