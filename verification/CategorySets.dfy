/** A set of categories in the bits of one word, and the iterator over it. */
module CategorySets {
  import opened Types

  const ALL: seq<Category> := [Integrity, Debugging, Instrumentation, DeviceCompromise, Virtualization, UiAbuse]

  function Index(c: Category): (i: nat)
    ensures i < |ALL| && ALL[i] == c
  {
    match c
    case Integrity => 0
    case Debugging => 1
    case Instrumentation => 2
    case DeviceCompromise => 3
    case Virtualization => 4
    case UiAbuse => 5
  }

  function Mask(c: Category): bv32 {
    match c
    case Integrity => 1
    case Debugging => 2
    case Instrumentation => 4
    case DeviceCompromise => 8
    case Virtualization => 16
    case UiAbuse => 32
  }

  lemma MaskIsShift(c: Category)
    ensures Mask(c) == 1 << Index(c)
  {
    match c
    case Integrity =>
    case Debugging =>
    case Instrumentation =>
    case DeviceCompromise =>
    case Virtualization =>
    case UiAbuse =>
  }

  function Or(a: bv32, b: bv32): bv32 { a | b }

  predicate Meets(a: bv32, b: bv32) { a & b != 0 }

  function With(bits: bv32, c: Category): bv32 { Or(bits, Mask(c)) }

  predicate Has(bits: bv32, c: Category) { Meets(bits, Mask(c)) }

  /** The categories that some bits hold. */
  function Abs(bits: bv32): set<Category> { set c | c in ALL && Has(bits, c) }

  lemma HasIsMember(bits: bv32, c: Category)
    ensures c in Abs(bits) <==> Has(bits, c)
  {
    assert ALL[Index(c)] == c;
  }

  /** No bit above those of the categories. */
  predicate NoStrays(bits: bv32) { bits & 0xFFFF_FFC0 == 0 }

  /** The number of set bits, whatever they mean. */
  function CountOnes(bits: bv32): nat
    decreases bits
  {
    if bits == 0 then 0 else (if bits & 1 != 0 then 1 else 0) + CountOnes(bits >> 1)
  }

  /** Setting one bit adds one category and leaves the others. */
  lemma InsertAdds(bits: bv32, c: Category)
    ensures Abs(With(bits, c)) == Abs(bits) + {c}
    ensures NoStrays(bits) ==> NoStrays(With(bits, c))
    ensures Has(bits, c) <==> With(bits, c) == bits
  {
    hide With, Has, Mask, NoStrays;
    forall d: Category ensures Has(With(bits, c), d) <==> Has(bits, d) || c == d { OtherBits(bits, c, d); }
    forall d: Category ensures d in ALL { assert ALL[Index(d)] == d; }
    Strays(bits, c);
  }

  lemma OtherBits(bits: bv32, c: Category, d: Category)
    ensures Has(With(bits, c), d) <==> Has(bits, d) || c == d
  {
    hide Mask, Or, Meets;
    OrMeets(bits, Mask(c), Mask(d));
    MasksMeet(c, d);
  }

  lemma OrMeets(a: bv32, m: bv32, n: bv32)
    ensures Meets(Or(a, m), n) <==> Meets(a, n) || Meets(m, n)
  {
    assert (a | m) & n == (a & n) | (m & n);
  }

  lemma MasksMeet(c: Category, d: Category)
    ensures Meets(Mask(c), Mask(d)) <==> c == d
  {
  }

  lemma Strays(bits: bv32, c: Category)
    ensures KeepsOthers(bits, c)
  {
    hide KeepsOthers;
    match c
    case Integrity => StraysIntegrity(bits);
    case Debugging => StraysDebugging(bits);
    case Instrumentation => StraysInstrumentation(bits);
    case DeviceCompromise => StraysDeviceCompromise(bits);
    case Virtualization => StraysVirtualization(bits);
    case UiAbuse => StraysUiAbuse(bits);
  }

  /** Setting the bit of a category makes no stray bit, and changes nothing exactly when it was set. */
  predicate KeepsOthers(bits: bv32, c: Category) {
    (NoStrays(bits) ==> NoStrays(With(bits, c))) && (Has(bits, c) <==> With(bits, c) == bits)
  }

  lemma StraysIntegrity(bits: bv32)
    ensures KeepsOthers(bits, Integrity)
  {
  }

  lemma StraysDebugging(bits: bv32)
    ensures KeepsOthers(bits, Debugging)
  {
  }

  lemma StraysInstrumentation(bits: bv32)
    ensures KeepsOthers(bits, Instrumentation)
  {
  }

  lemma StraysDeviceCompromise(bits: bv32)
    ensures KeepsOthers(bits, DeviceCompromise)
  {
  }

  lemma StraysVirtualization(bits: bv32)
    ensures KeepsOthers(bits, Virtualization)
  {
  }

  lemma StraysUiAbuse(bits: bv32)
    ensures KeepsOthers(bits, UiAbuse)
  {
  }

  /** The set that some bits hold is empty exactly when they are zero, unless stray bits are set. */
  lemma EmptyIff(bits: bv32)
    requires NoStrays(bits)
    ensures Abs(bits) == {} <==> bits == 0
  {
    ZeroIff(bits);
    forall c: Category ensures c in ALL { assert ALL[Index(c)] == c; }
    if Abs(bits) == {} {
      forall c: Category ensures !Has(bits, c) { assert c !in Abs(bits); }
    }
  }

  lemma ZeroIff(bits: bv32)
    requires NoStrays(bits)
    ensures bits == 0 <==> forall c: Category :: !Has(bits, c)
  {
    if bits != 0 {
      if !Has(bits, Integrity) && !Has(bits, Debugging) && !Has(bits, Instrumentation)
         && !Has(bits, DeviceCompromise) && !Has(bits, Virtualization) {
        assert Has(bits, UiAbuse);
      }
    }
  }

  /** Words without stray bits are equal exactly when they hold the same categories. */
  lemma {:induction false} AbsInjective(a: bv32, b: bv32)
    requires NoStrays(a) && NoStrays(b) && Abs(a) == Abs(b)
    ensures a == b
  {
    forall c: Category ensures Has(a, c) <==> Has(b, c) {
      assert ALL[Index(c)] == c;
      assert Has(a, c) <==> c in Abs(a);
    }
    SameBits(a, b);
  }

  lemma SameBits(a: bv32, b: bv32)
    requires NoStrays(a) && NoStrays(b) && forall c: Category :: Has(a, c) <==> Has(b, c)
    ensures a == b
  {
    assert Has(a, Integrity) <==> Has(b, Integrity);
    assert Has(a, Debugging) <==> Has(b, Debugging);
    assert Has(a, Instrumentation) <==> Has(b, Instrumentation);
    assert Has(a, DeviceCompromise) <==> Has(b, DeviceCompromise);
    assert Has(a, Virtualization) <==> Has(b, Virtualization);
    assert Has(a, UiAbuse) <==> Has(b, UiAbuse);
  }

  /** The members from a position on, in declaration order. */
  function Members(bits: bv32, from: nat): (m: seq<Category>)
    decreases |ALL| - from
  {
    if from >= |ALL| then []
    else if Has(bits, ALL[from]) then [ALL[from]] + Members(bits, from + 1)
    else Members(bits, from + 1)
  }

  /** Each member once, in declaration order, and nothing else. */
  lemma {:induction false} MembersAreTheSet(bits: bv32, from: nat)
    ensures forall c :: c in Members(bits, from) <==> Has(bits, c) && Index(c) >= from
    ensures forall i, j :: 0 <= i < j < |Members(bits, from)| ==>
      Index(Members(bits, from)[i]) < Index(Members(bits, from)[j])
    decreases |ALL| - from
  {
    hide Has;
    if from < |ALL| {
      MembersAreTheSet(bits, from + 1);
      forall c: Category | Index(c) >= from
        ensures c == ALL[from] || Index(c) >= from + 1 { assert ALL[Index(c)] == c; }
      IndexOf(from);
      assert forall c :: c in Members(bits, from + 1) ==> Index(c) >= from + 1;
    }
  }

  lemma IndexOf(i: nat)
    requires i < |ALL|
    ensures Index(ALL[i]) == i
  {
  }

  /** The count of ones is the number of members exactly when there are no stray bits. */
  lemma LenIsCardinalityIff(bits: bv32)
    ensures CountOnes(bits) == |Abs(bits)| <==> NoStrays(bits)
    ensures |Abs(bits)| == |Members(bits, 0)|
  {
    hide CountOnes, Abs, Members, NoStrays;
    CountSplits(bits);
    HighPart(bits);
    OnesOfZero(bits >> 6);
    DistinctCount(Members(bits, 0), Abs(bits), bits);
  }

  lemma HighPart(bits: bv32)
    ensures NoStrays(bits) <==> bits >> 6 == 0
  {
  }

  lemma {:induction false} OnesOfZero(bits: bv32)
    ensures CountOnes(bits) == 0 <==> bits == 0
    decreases bits
  {
    if bits != 0 && bits & 1 == 0 {
      ShiftShrinks(bits);
      OnesOfZero(bits >> 1);
    }
  }

  lemma ShiftShrinks(bits: bv32)
    requires bits != 0
    ensures bits >> 1 < bits && (bits & 1 == 0 ==> bits >> 1 != 0)
  {
  }

  /** The count is that of the members and of the bits above them. */
  lemma CountSplits(bits: bv32)
    ensures CountOnes(bits) == |Members(bits, 0)| + CountOnes(bits >> 6)
  {
    hide CountOnes, Has;
    PeelIntegrity(bits);
    PeelDebugging(bits);
    PeelInstrumentation(bits);
    PeelDeviceCompromise(bits);
    PeelVirtualization(bits);
    PeelUiAbuse(bits);
    MembersOfSix(bits);
  }

  function Bit(bits: bv32, c: Category): nat { if Has(bits, c) then 1 else 0 }

  lemma MembersOfSix(bits: bv32)
    ensures |Members(bits, 0)| == Bit(bits, Integrity) + Bit(bits, Debugging) + Bit(bits, Instrumentation)
                                + Bit(bits, DeviceCompromise) + Bit(bits, Virtualization) + Bit(bits, UiAbuse)
  {
    hide Has;
    assert |Members(bits, 4)| == Bit(bits, Virtualization) + Bit(bits, UiAbuse);
    assert |Members(bits, 2)| == Bit(bits, Instrumentation) + Bit(bits, DeviceCompromise) + |Members(bits, 4)|;
  }

  lemma PeelIntegrity(bits: bv32)
    ensures CountOnes(bits) == Bit(bits, Integrity) + CountOnes(bits >> 1)
  {
    assert bits & 1 != 0 <==> Has(bits, Integrity);
    if bits == 0 { assert bits >> 1 == 0; }
  }

  lemma PeelDebugging(bits: bv32)
    ensures CountOnes(bits >> 1) == Bit(bits, Debugging) + CountOnes(bits >> 2)
  {
    assert (bits >> 1) & 1 != 0 <==> bits & 2 != 0;
    assert (bits >> 1) >> 1 == bits >> 2;
    if bits >> 1 == 0 { assert bits >> 2 == 0; }
  }

  lemma PeelInstrumentation(bits: bv32)
    ensures CountOnes(bits >> 2) == Bit(bits, Instrumentation) + CountOnes(bits >> 3)
  {
    assert (bits >> 2) & 1 != 0 <==> bits & 4 != 0;
    assert (bits >> 2) >> 1 == bits >> 3;
    if bits >> 2 == 0 { assert bits >> 3 == 0; }
  }

  lemma PeelDeviceCompromise(bits: bv32)
    ensures CountOnes(bits >> 3) == Bit(bits, DeviceCompromise) + CountOnes(bits >> 4)
  {
    assert (bits >> 3) & 1 != 0 <==> bits & 8 != 0;
    assert (bits >> 3) >> 1 == bits >> 4;
    if bits >> 3 == 0 { assert bits >> 4 == 0; }
  }

  lemma PeelVirtualization(bits: bv32)
    ensures CountOnes(bits >> 4) == Bit(bits, Virtualization) + CountOnes(bits >> 5)
  {
    assert (bits >> 4) & 1 != 0 <==> bits & 16 != 0;
    assert (bits >> 4) >> 1 == bits >> 5;
    if bits >> 4 == 0 { assert bits >> 5 == 0; }
  }

  lemma PeelUiAbuse(bits: bv32)
    ensures CountOnes(bits >> 5) == Bit(bits, UiAbuse) + CountOnes(bits >> 6)
  {
    assert (bits >> 5) & 1 != 0 <==> bits & 32 != 0;
    assert (bits >> 5) >> 1 == bits >> 6;
    if bits >> 5 == 0 { assert bits >> 6 == 0; }
  }

  lemma {:induction false} DistinctCount(m: seq<Category>, s: set<Category>, bits: bv32)
    requires m == Members(bits, 0) && s == Abs(bits)
    ensures |m| == |s|
  {
    hide Has;
    MembersAreTheSet(bits, 0);
    forall c: Category ensures c in ALL { assert ALL[Index(c)] == c; }
    var t := set c | c in m;
    assert t == s;
    CountOfDistinct(m);
  }

  lemma {:induction false} CountOfDistinct(m: seq<Category>)
    requires forall i, j :: 0 <= i < j < |m| ==> Index(m[i]) < Index(m[j])
    ensures |(set c | c in m)| == |m|
  {
    hide Index;
    if m != [] {
      var n := |m| - 1;
      var front := m[..n];
      CountOfDistinct(front);
      assert (set c | c in m) == (set c | c in front) + {m[n]};
      assert m[n] !in front;
    }
  }

  // ----- the operations of the set and of its iterator

  class CategorySet {
    var bits: bv32

    constructor ()
      ensures bits == 0
    {
      bits := 0;
    }

    constructor FromBits(raw: bv32)
      ensures bits == raw
    {
      bits := raw;
    }

    /** Adds a category, and says whether the set changed. */
    method Insert(c: Category) returns (changed: bool)
      modifies this
      ensures Abs(bits) == Abs(old(bits)) + {c} && (changed <==> c !in Abs(old(bits)))
      ensures NoStrays(old(bits)) ==> NoStrays(bits)
      ensures !changed ==> bits == old(bits)
    {
      hide Mask, With, Abs, NoStrays, Has;
      InsertAdds(bits, c);
      HasIsMember(bits, c);
      changed := !Has(bits, c);
      bits := With(bits, c);
    }

    method Len() returns (n: nat)
      ensures n == |Abs(bits)| <==> NoStrays(bits)
    {
      LenIsCardinalityIff(bits);
      n := CountOnes(bits);
    }
  }

  class CategorySetIter {
    const bits: bv32
    var next: nat

    constructor (bits: bv32)
      ensures this.bits == bits && next == 0
    {
      this.bits := bits;
      next := 0;
    }

    /** The next member in declaration order, or none when all of them were given. */
    method Next() returns (r: Option<Category>)
      modifies this
      ensures Members(bits, old(next)) == (if r.Some? then [r.value] else []) + Members(bits, next)
      ensures r.None? ==> Members(bits, next) == []
    {
      hide Has;
      ghost var all := Members(bits, next);
      while next < |ALL|
        invariant Members(bits, next) == all
        decreases |ALL| - next
      {
        var c := ALL[next];
        next := next + 1;
        if Has(bits, c) { return Some(c); }
      }
      return None;
    }
  }

  /** Draining an iterator gives every member once, in declaration order. */
  method Collect(bits: bv32) returns (m: seq<Category>)
    ensures m == Members(bits, 0)
  {
    hide Members;
    var iter := new CategorySetIter(bits);
    m := [];
    var item := iter.Next();
    while item.Some?
      invariant iter.bits == bits
      invariant m + (if item.Some? then [item.value] else []) + Members(bits, iter.next) == Members(bits, 0)
      invariant item.None? ==> Members(bits, iter.next) == []
      decreases |Members(bits, iter.next)| + (if item.Some? then 1 else 0)
    {
      m := m + [item.value];
      item := iter.Next();
    }
  }
}
