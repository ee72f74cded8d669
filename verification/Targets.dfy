/**
 How the platform readers bound the dispatch targets they collect, and what the truncation flag of the snapshot
 then says about the image.
 */
module Targets {
  import opened Types
  import opened Snapshots
  import Elf
  import Pe
  import MachoDispatch


  // ----- Apple: the counting loop over the pointer sections

  /** Process memory, as the kernel lets a reader see it: which ranges are mapped, and the words in them. */
  datatype Memory = Memory(mapped: (int, nat) -> bool, word: int -> nat)

  type Section = MachoDispatch.PointerSection

  function Count(s: Section): nat { s.bytes / 8 }

  function Total(sections: seq<Section>): nat {
    if sections == [] then 0 else Total(sections[..|sections| - 1]) + Count(sections[|sections| - 1])
  }

  /** The slid address; a reader refuses a section whose address falls below zero. */
  function Place(s: Section, slide: int): nat { if s.address + slide >= 0 then s.address + slide else 0 }

  /** The targets of one section, or of its first few. */
  function TargetsOf(s: Section, slide: int, m: Memory, n: nat): seq<Target> {
    seq(n, j requires 0 <= j < n => Target(Place(s, slide) + 8 * j, m.word(Place(s, slide) + 8 * j)))
  }

  function AllTargets(sections: seq<Section>, slide: int, m: Memory): seq<Target> {
    if sections == [] then []
    else
      var last := sections[|sections| - 1];
      AllTargets(sections[..|sections| - 1], slide, m) + TargetsOf(last, slide, m, Count(last))
  }

  lemma {:induction false} TotalCountsAll(sections: seq<Section>, slide: int, m: Memory)
    ensures |AllTargets(sections, slide, m)| == Total(sections)
  {
    if sections != [] { TotalCountsAll(sections[..|sections| - 1], slide, m); }
  }

  function Min(a: nat, b: nat): nat { if a <= b then a else b }

  /** A section that the loop refuses, when it still has room for some targets. */
  predicate Refused(s: Section, slide: int, m: Memory, room: nat) {
    var address, take := s.address + slide, Min(Count(s), room);
    || address < 0 || address >= U64_SPAN || s.bytes % 8 != 0
    || (take > 0 && (address % 8 != 0 || !m.mapped(address, 8 * take) || address + 8 * (take - 1) >= U64_SPAN))
  }

  /** Some section that the loop reaches is refused. */
  ghost predicate ReachesRefused(sections: seq<Section>, slide: int, m: Memory) {
    exists i :: RefusedAt(sections, slide, m, i)
  }

  ghost predicate RefusedAt(sections: seq<Section>, slide: int, m: Memory, i: int) {
    && 0 <= i < |sections| && Total(sections[..i]) <= MAX_TARGETS
    && Refused(sections[i], slide, m, MAX_TARGETS + 1 - Total(sections[..i]))
  }

  method ReadAppleTargets(sections: seq<Section>, slide: int, m: Memory) returns (r: Option<seq<Target>>)
    ensures r.None? <==> Total(sections) == 0 || ReachesRefused(sections, slide, m)
    ensures r.Some? ==>
      var all := AllTargets(sections, slide, m);
      r.value == all[..Min(|all|, MAX_TARGETS + 1)] && r.value != []
  {
    hide Refused;
    var targets: seq<Target> := [];
    var i := 0;
    while i < |sections|
      invariant 0 <= i <= |sections|
      invariant targets == AllTargets(sections[..i], slide, m) && |targets| == Total(sections[..i]) <= MAX_TARGETS
      invariant forall k :: 0 <= k < i ==> !RefusedAt(sections, slide, m, k)
    {
      var s := sections[i];
      var room := MAX_TARGETS + 1 - |targets|;
      Prefixes(sections, slide, m, i);
      var own := ReadSection(s, slide, m, room);
      if own.None? {
        assert RefusedAt(sections, slide, m, i);
        return None;
      }
      targets := targets + own.value;
      i := i + 1;
      if |own.value| < Count(s) || |targets| > MAX_TARGETS {
        Stopped(sections, slide, m, i, targets);
        return Some(targets);
      }
    }
    assert sections[..|sections|] == sections;
    if targets == [] { return None; }
    return Some(targets);
  }

  /** One section of the loop: at most as many targets as there is room for. */
  method ReadSection(s: Section, slide: int, m: Memory, room: nat) returns (r: Option<seq<Target>>)
    requires room > 0
    ensures r == if Refused(s, slide, m, room) then None else Some(TargetsOf(s, slide, m, Min(Count(s), room)))
  {
    var address := s.address + slide;
    if address < 0 || address >= U64_SPAN { return None; }
    if s.bytes % 8 != 0 { return None; }
    var count := s.bytes / 8;
    var take := Min(count, room);
    var targets: seq<Target> := [];
    if take == 0 {
      assert TargetsOf(s, slide, m, 0) == [];
      return Some(targets);
    }
    if address % 8 != 0 || !m.mapped(address, take * 8) { return None; }
    for index := 0 to take
      invariant targets == TargetsOf(s, slide, m, index)
      invariant index > 0 ==> address + 8 * (index - 1) < U64_SPAN
    {
      var slot := address + index * 8;
      if slot >= U64_SPAN { return None; }
      targets := targets + [Target(slot, m.word(slot))];
    }
    return Some(targets);
  }

  lemma Prefixes(sections: seq<Section>, slide: int, m: Memory, i: nat)
    requires i < |sections|
    ensures AllTargets(sections[..i + 1], slide, m)
         == AllTargets(sections[..i], slide, m) + TargetsOf(sections[i], slide, m, Count(sections[i]))
    ensures Total(sections[..i + 1]) == Total(sections[..i]) + Count(sections[i])
  {
    assert sections[..i + 1][..i] == sections[..i];
  }

  lemma {:induction false} PrefixOfAll(sections: seq<Section>, slide: int, m: Memory, i: nat)
    requires i <= |sections|
    ensures AllTargets(sections[..i], slide, m) <= AllTargets(sections, slide, m)
    ensures Total(sections[..i]) <= Total(sections)
    decreases |sections|
  {
    hide TargetsOf;
    if i < |sections| {
      var n := |sections| - 1;
      PrefixOfAll(sections[..n], slide, m, i);
      assert sections[..n][..i] == sections[..i];
    } else {
      assert sections[..i] == sections;
    }
  }

  lemma PrefixIsSlice(a: seq<Target>, b: seq<Target>, c: seq<Target>)
    requires a <= b && b <= c
    ensures |a| <= |c| && a == c[..|a|]
  {
  }

  lemma Stopped(sections: seq<Section>, slide: int, m: Memory, i: nat, targets: seq<Target>)
    requires 0 < i <= |sections| && |targets| == MAX_TARGETS + 1 && targets <= AllTargets(sections[..i], slide, m)
    requires Total(sections[..i]) > MAX_TARGETS && forall k :: 0 <= k < i ==> !RefusedAt(sections, slide, m, k)
    ensures |AllTargets(sections, slide, m)| > MAX_TARGETS
      && targets == AllTargets(sections, slide, m)[..MAX_TARGETS + 1]
    ensures Total(sections) > 0 && !ReachesRefused(sections, slide, m)
  {
    hide AllTargets, Total;
    PrefixOfAll(sections, slide, m, i);
    PrefixIsSlice(targets, AllTargets(sections[..i], slide, m), AllTargets(sections, slide, m));
    forall k | i <= k < |sections| ensures !RefusedAt(sections, slide, m, k) {
      PrefixOfAll(sections[..k], slide, m, i);
      assert sections[..k][..i] == sections[..i];
    }
  }

  /** The flag of an Apple snapshot is exact: it says whether the sections hold more targets than a snapshot keeps. */
  lemma AppleTruncationIsExact(sections: seq<Section>, slide: int, m: Memory, targets: seq<Target>, bound: bool)
    requires var all := AllTargets(sections, slide, m); targets == all[..Min(|all|, MAX_TARGETS + 1)]
    ensures NewTargets(targets, bound).truncated <==> Total(sections) > MAX_TARGETS
  {
    TotalCountsAll(sections, slide, m);
    NewTargetsIgnoresOrder(targets, targets, bound);
  }

  // ----- ELF: one target for each offset that the reader kept

  /** So is the flag of an ELF snapshot, whose reader asks for one more than a snapshot keeps. */
  lemma ElfTruncationIsExact(relocations: seq<byte>, jumpSlot: nat, targets: seq<Target>, bound: bool)
    requires Elf.Slots(relocations, jumpSlot, MAX_TARGETS + 1).Some?
    requires |targets| == |Elf.Slots(relocations, jumpSlot, MAX_TARGETS + 1).value.offsets|
    ensures NewTargets(targets, bound).truncated
       <==> |Elf.SlotsIn(relocations, jumpSlot, |relocations| / Elf.RELA_ENTRY_BYTES)| > MAX_TARGETS
  {
    hide Elf.SlotsIn;
    NewTargetsIgnoresOrder(targets, targets, bound);
  }

  // ----- Windows: the reader asks for no more than a snapshot keeps

  function TargetsOfPairs(pairs: seq<Pe.Pair>): seq<Target> {
    seq(|pairs|, i requires 0 <= i < |pairs| => Target(pairs[i].0, pairs[i].1))
  }

  /** The flag of a Windows snapshot is never set, however many slots the image holds. */
  lemma WindowsNeverStatesTruncation(image: seq<byte>, base: nat, bound: bool)
    requires Pe.ImportSlots(image, base, MAX_TARGETS).Some?
    ensures !NewTargets(TargetsOfPairs(Pe.ImportSlots(image, base, MAX_TARGETS).value), bound).truncated
  {
    hide Pe.ImportSlots;
    Pe.SlotsAreSound(image, base, MAX_TARGETS);
    var targets := TargetsOfPairs(Pe.ImportSlots(image, base, MAX_TARGETS).value);
    NewTargetsIgnoresOrder(targets, targets, bound);
  }

  /** The flag is right exactly when the image holds no more slots than a snapshot keeps. */
  lemma WindowsFlagIsRightIff(image: seq<byte>, base: nat, bound: bool)
    requires Pe.ImportSlots(image, base, MAX_TARGETS).Some?
    ensures var (start, end) := Pe.ImportRange(image).value;
      var total := |Pe.Walk(image, base, start, end).slots|;
      (NewTargets(TargetsOfPairs(Pe.ImportSlots(image, base, MAX_TARGETS).value), bound).truncated
       <==> total > MAX_TARGETS)
      <==> total <= MAX_TARGETS
  {
    hide Pe.Walk, Pe.ImportRange;
    WindowsNeverStatesTruncation(image, base, bound);
  }

  /** An image with one slot too many: the snapshot keeps them all but one, and says that it is complete. */
  lemma WindowsMissesTheExtraSlot(bound: bool)
    ensures var image := Pe.Sample(MAX_TARGETS + 1);
      && Pe.ImportRange(image) == Some((216, 256))
      && |Pe.Walk(image, 0, 216, 256).slots| > MAX_TARGETS
      && Pe.ImportSlots(image, 0, MAX_TARGETS).Some?
      && |Pe.ImportSlots(image, 0, MAX_TARGETS).value| == MAX_TARGETS
      && !NewTargets(TargetsOfPairs(Pe.ImportSlots(image, 0, MAX_TARGETS).value), bound).truncated
  {
    hide Pe.Sample, Pe.Walk, Pe.ImportRange, Pe.ImportSlots;
    var image := Pe.Sample(MAX_TARGETS + 1);
    Pe.SampleReadsBack(MAX_TARGETS + 1, MAX_TARGETS);
    WindowsNeverStatesTruncation(image, 0, bound);
  }

  /** With one more, as the other readers ask, the flag would be exact on every image that answers. */
  lemma OneMoreWouldBeExact(image: seq<byte>, base: nat, bound: bool)
    requires Pe.ImportSlots(image, base, MAX_TARGETS + 1).Some?
    ensures var (start, end) := Pe.ImportRange(image).value;
      NewTargets(TargetsOfPairs(Pe.ImportSlots(image, base, MAX_TARGETS + 1).value), bound).truncated
      <==> |Pe.Walk(image, base, start, end).slots| > MAX_TARGETS
  {
    hide Pe.Walk, Pe.ImportRange;
    var targets := TargetsOfPairs(Pe.ImportSlots(image, base, MAX_TARGETS + 1).value);
    NewTargetsIgnoresOrder(targets, targets, bound);
  }
}
