/**
 The two start-time snapshots and their linear comparisons, against the quadratic rules that
 state what they mean.
 */
module Snapshots {
  import opened Types
  import opened Sorting

  const MAX_REGIONS: nat := 1024
  const MAX_TARGETS: nat := 4096

  // ----- executable regions

  datatype Region = Region(start: nat, end: nat, writable: bool) {
    function Bytes(): nat { if end > start then end - start else 0 }
    predicate Holds(address: nat) { start <= address < end }
  }

  predicate RegionLe(a: Region, b: Region) {
    a.start < b.start
    || (a.start == b.start && (a.end < b.end || (a.end == b.end && (!a.writable || b.writable))))
  }

  lemma RegionOrder()
    ensures TotalOrder(RegionLe)
  {
  }

  /** A snapshot: regions in address order, and whether some were dropped. */
  datatype CodeRegions = CodeRegions(regions: seq<Region>, truncated: bool)

  ghost predicate InOrder(c: CodeRegions) { SortedBy(RegionLe, c.regions) }

  function NewRegions(regions: seq<Region>): CodeRegions {
    var sorted := Sort(RegionLe, regions);
    CodeRegions(if |sorted| > MAX_REGIONS then sorted[..MAX_REGIONS] else sorted, |sorted| > MAX_REGIONS)
  }

  /**
   A snapshot depends on the multiset of regions and not on their enumeration, is in order, and is
   truncated exactly when there are more regions than it keeps.
   */
  lemma NewRegionsIgnoresOrder(a: seq<Region>, b: seq<Region>)
    ensures InOrder(NewRegions(a))
    ensures NewRegions(a).truncated <==> |a| > 1024
    ensures !NewRegions(a).truncated ==> multiset(NewRegions(a).regions) == multiset(a)
    ensures multiset(a) == multiset(b) ==> NewRegions(a) == NewRegions(b)
  {
    RegionOrder();
    SortSorts(RegionLe, a);
    if multiset(a) == multiset(b) { SortIgnoresOrder(RegionLe, a, b); }
  }

  /** Some earlier region holds this address. */
  ghost predicate Held(earlier: seq<Region>, address: nat) {
    exists k :: 0 <= k < |earlier| && earlier[k].Holds(address)
  }

  /** The quadratic rule: the regions whose first address no earlier region holds. */
  ghost function AddedRule(now: seq<Region>, earlier: seq<Region>): seq<Region> {
    if now == [] then []
    else
      var n := |now| - 1;
      AddedRule(now[..n], earlier) + (if Held(earlier, now[n].start) then [] else [now[n]])
  }

  /** The linear merge reports exactly what the quadratic rule reports, overlaps and duplicates included. */
  method AddedSince(now: CodeRegions, earlier: CodeRegions) returns (added: seq<Region>)
    requires InOrder(now) && InOrder(earlier)
    ensures added == AddedRule(now.regions, earlier.regions)
  {
    added := [];
    var known := 0;
    for n := 0 to |now.regions|
      invariant known <= |earlier.regions|
      invariant added == AddedRule(now.regions[..n], earlier.regions)
      invariant n > 0 ==> forall k :: 0 <= k < known ==> earlier.regions[k].end <= now.regions[n - 1].start
      invariant n == 0 ==> known == 0
    {
      var region := now.regions[n];
      if n > 0 { assert RegionLe(now.regions[n - 1], region); }
      while known < |earlier.regions| && earlier.regions[known].end <= region.start
        invariant known <= |earlier.regions|
        invariant forall k :: 0 <= k < known ==> earlier.regions[k].end <= region.start
      {
        known := known + 1;
      }
      assert forall k :: known < k < |earlier.regions| ==> RegionLe(earlier.regions[known], earlier.regions[k]);
      if !(known < |earlier.regions| && earlier.regions[known].Holds(region.start)) {
        added := added + [region];
      }
      assert now.regions[..n + 1][..n] == now.regions[..n];
    }
    assert now.regions[..|now.regions|] == now.regions;
  }

  /** The quadratic rule: the writable regions that some earlier region with the same start held closed. */
  ghost predicate HeldClosed(earlier: seq<Region>, start: nat) {
    exists k :: 0 <= k < |earlier| && earlier[k].start == start && !earlier[k].writable
  }

  /** The first earlier region with this start is not writable. */
  ghost predicate FirstClosed(earlier: seq<Region>, start: nat) {
    exists k :: 0 <= k < |earlier| && earlier[k].start == start && !earlier[k].writable
                && forall j :: 0 <= j < k ==> earlier[j].start != start
  }

  ghost function OpenedRule(now: seq<Region>, earlier: seq<Region>): seq<Region> {
    if now == [] then []
    else
      var n := |now| - 1;
      OpenedRule(now[..n], earlier) + (if now[n].writable && HeldClosed(earlier, now[n].start) then [now[n]] else [])
  }

  /** What the linear merge reports: it looks at the first earlier region with the same start only. */
  ghost function OpenedFirst(now: seq<Region>, earlier: seq<Region>): seq<Region> {
    if now == [] then []
    else
      var n := |now| - 1;
      OpenedFirst(now[..n], earlier) + (if now[n].writable && FirstClosed(earlier, now[n].start) then [now[n]] else [])
  }

  method NowWritableSince(now: CodeRegions, earlier: CodeRegions) returns (unsealed: seq<Region>)
    requires InOrder(now) && InOrder(earlier)
    ensures unsealed == OpenedFirst(now.regions, earlier.regions)
  {
    unsealed := [];
    var known := 0;
    for n := 0 to |now.regions|
      invariant known <= |earlier.regions|
      invariant unsealed == OpenedFirst(now.regions[..n], earlier.regions)
      invariant n > 0 ==> forall k :: 0 <= k < known ==> earlier.regions[k].start < now.regions[n - 1].start
      invariant n == 0 ==> known == 0
    {
      var region := now.regions[n];
      assert now.regions[..n + 1][..n] == now.regions[..n];
      if n > 0 { assert RegionLe(now.regions[n - 1], region); }
      if region.writable {
        while known < |earlier.regions| && earlier.regions[known].start < region.start
          invariant known <= |earlier.regions|
          invariant forall k :: 0 <= k < known ==> earlier.regions[k].start < region.start
        {
          known := known + 1;
        }
        assert forall k :: known < k < |earlier.regions| ==> RegionLe(earlier.regions[known], earlier.regions[k]);
        if known < |earlier.regions| && earlier.regions[known].start == region.start
          && !earlier.regions[known].writable {
          unsealed := unsealed + [region];
        }
      }
    }
    assert now.regions[..|now.regions|] == now.regions;
  }

  /** Where one start address occurs twice, an open first region never hides a closed later one. */
  ghost predicate FirstDecides(earlier: seq<Region>) {
    forall k :: 0 <= k < |earlier| && !earlier[k].writable ==> FirstClosed(earlier, earlier[k].start)
  }

  ghost predicate DistinctStarts(earlier: seq<Region>) {
    forall i, j :: 0 <= i < j < |earlier| ==> earlier[i].start != earlier[j].start
  }

  lemma DistinctStartsDecide(earlier: seq<Region>)
    requires DistinctStarts(earlier)
    ensures FirstDecides(earlier)
  {
  }

  /** The merge never reports what the rule does not. */
  lemma {:induction false} OpenedFirstIsSound(now: seq<Region>, earlier: seq<Region>)
    ensures multiset(OpenedFirst(now, earlier)) <= multiset(OpenedRule(now, earlier))
  {
    if now != [] { OpenedFirstIsSound(now[..|now| - 1], earlier); }
  }

  lemma {:induction false} OpenedAgrees(now: seq<Region>, earlier: seq<Region>)
    requires FirstDecides(earlier)
    ensures OpenedFirst(now, earlier) == OpenedRule(now, earlier)
  {
    if now != [] { OpenedAgrees(now[..|now| - 1], earlier); }
  }

  /** What each of the rules says of a later snapshot of one region. */
  lemma OneRegion(r: Region, earlier: seq<Region>)
    ensures AddedRule([r], earlier) == if Held(earlier, r.start) then [] else [r]
    ensures OpenedRule([r], earlier) == if r.writable && HeldClosed(earlier, r.start) then [r] else []
    ensures OpenedFirst([r], earlier) == if r.writable && FirstClosed(earlier, r.start) then [r] else []
  {
    hide Held, HeldClosed, FirstClosed;
    var now := [r];
    assert now[..0] == [] && now[0] == r && now != [];
    assert AddedRule(now[..0], earlier) == [] && OpenedRule(now[..0], earlier) == []
      && OpenedFirst(now[..0], earlier) == [];
  }

  /**
   The merge agrees with the quadratic rule on every later snapshot iff the earlier one lets the first region decide.
   */
  lemma OpenedAgreesIff(earlier: seq<Region>)
    ensures (forall now :: OpenedFirst(now, earlier) == OpenedRule(now, earlier)) <==> FirstDecides(earlier)
  {
    if FirstDecides(earlier) {
      forall now ensures OpenedFirst(now, earlier) == OpenedRule(now, earlier) { OpenedAgrees(now, earlier); }
    } else {
      var k :| 0 <= k < |earlier| && !earlier[k].writable && !FirstClosed(earlier, earlier[k].start);
      var r := Region(earlier[k].start, earlier[k].end, true);
      OneRegion(r, earlier);
      assert HeldClosed(earlier, r.start);
      assert OpenedRule([r], earlier) != OpenedFirst([r], earlier);
    }
  }

  /** A concrete pair of snapshots, both in order, on which the merge misses a region that turned writable. */
  lemma DuplicateStartHidesAChange()
    ensures var earlier := [Region(0, 1, true), Region(0, 2, false)];
      var now := [Region(0, 2, true)];
      && SortedBy(RegionLe, earlier) && SortedBy(RegionLe, now)
      && OpenedRule(now, earlier) == now && OpenedFirst(now, earlier) == []
  {
    var earlier := [Region(0, 1, true), Region(0, 2, false)];
    OneRegion(Region(0, 2, true), earlier);
    assert earlier[1].start == 0 && !earlier[1].writable;
    assert earlier[0].start == 0;
  }

  // ----- byte totals

  function TotalBytes(regions: seq<Region>): nat {
    if regions == [] then 0 else TotalBytes(regions[..|regions| - 1]) + regions[|regions| - 1].Bytes()
  }

  ghost predicate Disjoint(regions: seq<Region>) {
    && (forall i :: 0 <= i < |regions| ==> regions[i].start <= regions[i].end < U64_SPAN)
    && (forall i, j :: 0 <= i < j < |regions| ==> regions[i].end <= regions[j].start)
  }

  lemma {:induction false} DisjointTotal(regions: seq<Region>)
    requires Disjoint(regions)
    ensures regions != [] ==> TotalBytes(regions) <= regions[|regions| - 1].end - regions[0].start
    ensures TotalBytes(regions) < U64_SPAN
  {
    if |regions| > 1 { DisjointTotal(regions[..|regions| - 1]); }
  }

  lemma {:induction false} ReportedTotals(now: seq<Region>, earlier: seq<Region>)
    ensures TotalBytes(AddedRule(now, earlier)) <= TotalBytes(now)
    ensures TotalBytes(OpenedFirst(now, earlier)) <= TotalBytes(now)
  {
    if now != [] {
      var n := |now| - 1;
      ReportedTotals(now[..n], earlier);
      var added, unsealed := AddedRule(now[..n], earlier), OpenedFirst(now[..n], earlier);
      assert (added + [now[n]])[..|added|] == added && added + [] == added;
      assert (unsealed + [now[n]])[..|unsealed|] == unsealed && unsealed + [] == unsealed;
    }
  }

  /** The totals that the baseline detector reports fit in 64 bits when the mapped regions are disjoint. */
  lemma ReportedBytesFit(now: seq<Region>, earlier: seq<Region>)
    requires Disjoint(now)
    ensures TotalBytes(AddedRule(now, earlier)) < U64_SPAN
    ensures TotalBytes(OpenedFirst(now, earlier)) < U64_SPAN
  {
    DisjointTotal(now);
    ReportedTotals(now, earlier);
  }

  // ----- dispatch targets

  datatype Target = Target(slot: nat, value: nat)

  predicate TargetLe(a: Target, b: Target) { a.slot < b.slot || (a.slot == b.slot && a.value <= b.value) }

  lemma TargetOrder()
    ensures TotalOrder(TargetLe)
  {
  }

  datatype DispatchTargets = DispatchTargets(targets: seq<Target>, bound: bool, truncated: bool)

  ghost predicate TargetsInOrder(d: DispatchTargets) { SortedBy(TargetLe, d.targets) }

  function NewTargets(targets: seq<Target>, bound: bool): DispatchTargets {
    var sorted := Sort(TargetLe, targets);
    DispatchTargets(if |sorted| > MAX_TARGETS then sorted[..MAX_TARGETS] else sorted, bound, |sorted| > MAX_TARGETS)
  }

  lemma NewTargetsIgnoresOrder(a: seq<Target>, b: seq<Target>, bound: bool)
    ensures TargetsInOrder(NewTargets(a, bound))
    ensures NewTargets(a, bound).truncated <==> |a| > 4096
    ensures !NewTargets(a, bound).truncated ==> multiset(NewTargets(a, bound).targets) == multiset(a)
    ensures multiset(a) == multiset(b) ==> NewTargets(a, bound) == NewTargets(b, bound)
  {
    TargetOrder();
    SortSorts(TargetLe, a);
    if multiset(a) == multiset(b) { SortIgnoresOrder(TargetLe, a, b); }
  }

  /** The quadratic rule: some start target holds this slot with another value. */
  ghost predicate HeldOther(start: seq<Target>, t: Target) {
    exists k :: 0 <= k < |start| && start[k].slot == t.slot && start[k].value != t.value
  }

  /** The first start target of this slot holds another value. */
  ghost predicate FirstOther(start: seq<Target>, t: Target) {
    exists k :: 0 <= k < |start| && start[k].slot == t.slot && start[k].value != t.value
                && forall j :: 0 <= j < k ==> start[j].slot != t.slot
  }

  ghost function RedirectedRule(now: seq<Target>, start: seq<Target>): seq<Target> {
    if now == [] then []
    else
      var n := |now| - 1;
      RedirectedRule(now[..n], start) + (if HeldOther(start, now[n]) then [now[n]] else [])
  }

  ghost function RedirectedFirst(now: seq<Target>, start: seq<Target>): seq<Target> {
    if now == [] then []
    else
      var n := |now| - 1;
      RedirectedFirst(now[..n], start) + (if FirstOther(start, now[n]) then [now[n]] else [])
  }

  method RedirectedSince(now: DispatchTargets, start: DispatchTargets) returns (redirected: seq<Target>)
    requires TargetsInOrder(now) && TargetsInOrder(start)
    ensures redirected == RedirectedFirst(now.targets, start.targets)
  {
    redirected := [];
    var before := 0;
    for n := 0 to |now.targets|
      invariant before <= |start.targets|
      invariant redirected == RedirectedFirst(now.targets[..n], start.targets)
      invariant n > 0 ==> forall k :: 0 <= k < before ==> start.targets[k].slot < now.targets[n - 1].slot
      invariant n == 0 ==> before == 0
    {
      var target := now.targets[n];
      if n > 0 { assert TargetLe(now.targets[n - 1], target); }
      while before < |start.targets| && start.targets[before].slot < target.slot
        invariant before <= |start.targets|
        invariant forall k :: 0 <= k < before ==> start.targets[k].slot < target.slot
      {
        before := before + 1;
      }
      assert forall k :: before < k < |start.targets| ==> TargetLe(start.targets[before], start.targets[k]);
      if before < |start.targets| && start.targets[before].slot == target.slot
         && start.targets[before].value != target.value {
        redirected := redirected + [target];
      }
      assert now.targets[..n + 1][..n] == now.targets[..n];
    }
    assert now.targets[..|now.targets|] == now.targets;
  }

  /** Equal start slots hold equal values. */
  ghost predicate OneValuePerSlot(start: seq<Target>) {
    forall i, j :: 0 <= i < |start| && 0 <= j < |start| && start[i].slot == start[j].slot
      ==> start[i].value == start[j].value
  }

  lemma {:induction false} RedirectedFirstIsSound(now: seq<Target>, start: seq<Target>)
    ensures multiset(RedirectedFirst(now, start)) <= multiset(RedirectedRule(now, start))
  {
    if now != [] { RedirectedFirstIsSound(now[..|now| - 1], start); }
  }

  lemma {:induction false} FirstOfSlot(start: seq<Target>, slot: nat, k: nat) returns (first: nat)
    requires k < |start| && start[k].slot == slot
    ensures first <= k && start[first].slot == slot && forall j :: 0 <= j < first ==> start[j].slot != slot
    decreases k
  {
    if j :| 0 <= j < k && start[j].slot == slot { first := FirstOfSlot(start, slot, j); } else { first := k; }
  }

  lemma OtherMeansFirstOther(start: seq<Target>, t: Target)
    requires OneValuePerSlot(start) && HeldOther(start, t)
    ensures FirstOther(start, t)
  {
    var k :| 0 <= k < |start| && start[k].slot == t.slot && start[k].value != t.value;
    var first := FirstOfSlot(start, t.slot, k);
    assert start[first].value == start[k].value;
  }

  lemma {:induction false} RedirectedAgrees(now: seq<Target>, start: seq<Target>)
    requires OneValuePerSlot(start)
    ensures RedirectedFirst(now, start) == RedirectedRule(now, start)
  {
    if now != [] {
      var n := |now| - 1;
      RedirectedAgrees(now[..n], start);
      if HeldOther(start, now[n]) { OtherMeansFirstOther(start, now[n]); }
    }
  }

  lemma OneTarget(target: Target, start: seq<Target>)
    ensures RedirectedRule([target], start) == if HeldOther(start, target) then [target] else []
    ensures RedirectedFirst([target], start) == if FirstOther(start, target) then [target] else []
  {
    hide HeldOther, FirstOther;
    var now := [target];
    assert now[..0] == [] && now[0] == target && now != [];
    assert RedirectedRule(now[..0], start) == [] && RedirectedFirst(now[..0], start) == [];
  }

  /** The merge agrees with the quadratic rule on every later table iff equal start slots hold equal values. */
  lemma RedirectedAgreesIff(start: seq<Target>)
    ensures (forall now :: RedirectedFirst(now, start) == RedirectedRule(now, start)) <==> OneValuePerSlot(start)
  {
    hide HeldOther, FirstOther, RedirectedRule, RedirectedFirst;
    if OneValuePerSlot(start) {
      forall now ensures RedirectedFirst(now, start) == RedirectedRule(now, start) { RedirectedAgrees(now, start); }
    } else {
      var i, j :| 0 <= i < |start| && 0 <= j < |start| && start[i].slot == start[j].slot
        && start[i].value != start[j].value;
      var t := OtherOnly(start, i, j);
      OneTarget(t, start);
      assert RedirectedRule([t], start) != RedirectedFirst([t], start);
    }
  }

  /** The first target of a slot with two values: another one holds a different value, and it is the first itself. */
  lemma OtherOnly(start: seq<Target>, i: nat, j: nat) returns (t: Target)
    requires i < |start| && j < |start| && start[i].slot == start[j].slot && start[i].value != start[j].value
    ensures HeldOther(start, t) && !FirstOther(start, t)
  {
    var first := FirstOfSlot(start, start[i].slot, i);
    t := start[first];
    if start[i].value != t.value {
      assert start[i].slot == t.slot;
    } else {
      assert start[j].slot == t.slot && start[j].value != t.value;
    }
    forall k | 0 <= k < |start| && start[k].slot == t.slot && start[k].value != t.value
      ensures exists m :: 0 <= m < k && start[m].slot == t.slot
    {
      assert k > first;
    }
  }

  /** A concrete table that an unchanged later table reads as quiet although the rule reports it. */
  lemma DuplicateSlotHidesAChange()
    ensures var start := [Target(0, 1), Target(0, 2)];
      var now := [Target(0, 1)];
      && SortedBy(TargetLe, start) && RedirectedRule(now, start) == now && RedirectedFirst(now, start) == []
  {
    var start := [Target(0, 1), Target(0, 2)];
    OneTarget(Target(0, 1), start);
    assert HeldOther(start, Target(0, 1)) by { assert start[1].slot == 0 && start[1].value == 2; }
    assert !FirstOther(start, Target(0, 1)) by {
      assert start[0] == Target(0, 1);
    }
  }

  /** An unchanged part of a table with one value for each slot reports nothing, under either form. */
  lemma {:induction false} UnchangedTableIsQuiet(now: seq<Target>, start: seq<Target>)
    requires OneValuePerSlot(start) && forall k :: 0 <= k < |now| ==> now[k] in start
    ensures RedirectedFirst(now, start) == []
  {
    if now != [] {
      var n := |now| - 1;
      UnchangedTableIsQuiet(now[..n], start);
      assert now[n] in start;
    }
  }
}
