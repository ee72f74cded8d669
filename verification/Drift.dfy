/** The two detectors that compare a start-time snapshot with a later one. */
module Drift {
  import opened Sorting
  import opened Snapshots

  /** What `start()` captured. */
  datatype Captured<T> = Snapshot(value: T) | NotSupported | NotRead

  /** What the probe answers now. */
  datatype Observed<T> = Fact(value: T) | Unavailable | Failed

  /** What a detector concludes. A change carries its count, and its bytes where regions are concerned. */
  datatype Verdict =
    | Quiet
    | Gap
    | Unhealthy
    | CodeAdded(bytes: nat, count: nat)
    | CodeOpened(bytes: nat, count: nat)
    | Redirected(count: nat, first: nat)

  // ----- executable code that was not mapped, or not writable, at start

  ghost function RegionVerdict(start: Captured<CodeRegions>, now: Observed<CodeRegions>): Verdict {
    match start
    case NotSupported => Gap
    case NotRead => Unhealthy
    case Snapshot(earlier) =>
      if earlier.truncated then Gap
      else match now
        case Unavailable => Gap
        case Failed => Unhealthy
        case Fact(current) =>
          if current.truncated then Gap
          else
            Judge(AddedRule(current.regions, earlier.regions), OpenedFirst(current.regions, earlier.regions))
  }

  /** Added code outranks opened code. */
  function Judge(added: seq<Region>, unsealed: seq<Region>): Verdict {
    if added != [] then CodeAdded(TotalBytes(added), |added|)
    else if unsealed != [] then CodeOpened(TotalBytes(unsealed), |unsealed|)
    else Quiet
  }

  method RuntimeBaseline(start: Captured<CodeRegions>, now: Observed<CodeRegions>) returns (v: Verdict)
    requires (start.Snapshot? ==> InOrder(start.value)) && (now.Fact? ==> InOrder(now.value))
    ensures v == RegionVerdict(start, now)
  {
    if start.NotSupported? { return Gap; }
    if start.NotRead? { return Unhealthy; }
    if start.value.truncated { return Gap; }
    if now.Unavailable? { return Gap; }
    if now.Failed? { return Unhealthy; }
    if now.value.truncated { return Gap; }
    var added := AddedSince(now.value, start.value);
    if added != [] { return CodeAdded(TotalBytes(added), |added|); }
    var unsealed := NowWritableSince(now.value, start.value);
    if unsealed == [] { return Quiet; }
    return CodeOpened(TotalBytes(unsealed), |unsealed|);
  }

  /** The verdict does not depend on how either platform call enumerates its regions. */
  lemma RegionVerdictIgnoresOrder(start: seq<Region>, start': seq<Region>, now: seq<Region>, now': seq<Region>)
    requires multiset(start) == multiset(start') && multiset(now) == multiset(now')
    ensures RegionVerdict(Snapshot(NewRegions(start)), Fact(NewRegions(now)))
         == RegionVerdict(Snapshot(NewRegions(start')), Fact(NewRegions(now')))
  {
    NewRegionsIgnoresOrder(start, start');
    NewRegionsIgnoresOrder(now, now');
  }

  lemma {:induction false} AddedNonempty(now: seq<Region>, earlier: seq<Region>)
    ensures AddedRule(now, earlier) != [] <==> exists k :: 0 <= k < |now| && !Held(earlier, now[k].start)
  {
    if now != [] {
      var n := |now| - 1;
      AddedNonempty(now[..n], earlier);
      assert forall k :: 0 <= k < n ==> now[..n][k] == now[k];
    }
  }

  lemma {:induction false} OpenedRuleNonempty(now: seq<Region>, earlier: seq<Region>)
    ensures OpenedRule(now, earlier) != []
       <==> exists k :: 0 <= k < |now| && now[k].writable && HeldClosed(earlier, now[k].start)
  {
    if now != [] {
      var n := |now| - 1;
      OpenedRuleNonempty(now[..n], earlier);
      assert forall k :: 0 <= k < n ==> now[..n][k] == now[k];
    }
  }

  /** The same elements, wherever they stand. */
  lemma SameElements<T>(a: seq<T>, b: seq<T>)
    requires multiset(a) == multiset(b)
    ensures forall x :: x in a <==> x in b
  {
    forall x ensures x in a <==> x in b {
      assert x in a <==> x in multiset(a);
      assert x in b <==> x in multiset(b);
    }
  }

  ghost predicate IsHeld(earlier: seq<Region>, address: nat) { exists e :: e in earlier && e.Holds(address) }

  ghost predicate WasClosed(earlier: seq<Region>, address: nat) {
    exists e :: e in earlier && e.start == address && !e.writable
  }

  /** What the quadratic rules say of two lists, as the platform gave them. */
  ghost function RuleVerdict(start: seq<Region>, now: seq<Region>): Verdict {
    var e, c := NewRegions(start).regions, NewRegions(now).regions;
    Judge(AddedRule(c, e), OpenedRule(c, e))
  }

  /**
   Over complete snapshots the rules report added code exactly when some region now starts where no region was, and
   otherwise opened code exactly when some region is writable now and was not at start.
   */
  lemma RuleVerdictMeans(start: seq<Region>, now: seq<Region>)
    requires |start| <= MAX_REGIONS && |now| <= MAX_REGIONS
    ensures var v := RuleVerdict(start, now);
      && (v.CodeAdded? <==> exists r :: r in now && !IsHeld(start, r.start))
      && (v.CodeOpened? <==> !v.CodeAdded? && exists r :: r in now && r.writable && WasClosed(start, r.start))
      && (v.Quiet? <==> !v.CodeAdded? && !v.CodeOpened?)
  {
    NewRegionsIgnoresOrder(start, start);
    NewRegionsIgnoresOrder(now, now);
    var e, c := NewRegions(start).regions, NewRegions(now).regions;
    SameElements(e, start);
    SameElements(c, now);
    AddedMeans(c, e, now, start);
    OpenedMeans(c, e, now, start);
  }

  lemma AddedMeans(c: seq<Region>, e: seq<Region>, now: seq<Region>, start: seq<Region>)
    requires (forall r :: r in c <==> r in now) && (forall r :: r in e <==> r in start)
    ensures AddedRule(c, e) != [] <==> exists r :: r in now && !IsHeld(start, r.start)
  {
    hide AddedRule;
    AddedNonempty(c, e);
    forall address ensures Held(e, address) <==> IsHeld(start, address) { HeldIff(e, start, address); }
    hide Held, IsHeld;
    assert forall r :: r in now ==> r in c;
    assert forall k :: 0 <= k < |c| ==> c[k] in now;
  }

  lemma OpenedMeans(c: seq<Region>, e: seq<Region>, now: seq<Region>, start: seq<Region>)
    requires (forall r :: r in c <==> r in now) && (forall r :: r in e <==> r in start)
    ensures OpenedRule(c, e) != [] <==> exists r :: r in now && r.writable && WasClosed(start, r.start)
  {
    hide OpenedRule;
    OpenedRuleNonempty(c, e);
    forall address ensures HeldClosed(e, address) <==> WasClosed(start, address) { ClosedIff(e, start, address); }
    hide HeldClosed, WasClosed;
    assert forall r :: r in now ==> r in c;
    assert forall k :: 0 <= k < |c| ==> c[k] in now;
  }

  /**
   Among the regions with one start, the first in address order speaks for every closed one, wherever that start was
   held at all.
   */
  ghost predicate FirstSpeaks(e: seq<Region>) {
    forall k :: 0 <= k < |e| && !e[k].writable && Held(e, e[k].start) ==> FirstClosed(e, e[k].start)
  }

  lemma {:induction false} HeldOpenedAgrees(c: seq<Region>, e: seq<Region>)
    requires FirstSpeaks(e) && forall k :: 0 <= k < |c| ==> Held(e, c[k].start)
    ensures OpenedFirst(c, e) == OpenedRule(c, e)
  {
    if c != [] {
      var n := |c| - 1;
      HeldOpenedAgrees(c[..n], e);
      assert HeldClosed(e, c[n].start) ==> FirstClosed(e, c[n].start) by {
        if HeldClosed(e, c[n].start) {
          var k :| 0 <= k < |e| && e[k].start == c[n].start && !e[k].writable;
          assert Held(e, e[k].start);
        }
      }
    }
  }

  lemma VerdictFollowsRule(start: seq<Region>, now: seq<Region>)
    requires |start| <= MAX_REGIONS && |now| <= MAX_REGIONS && FirstSpeaks(NewRegions(start).regions)
    ensures RegionVerdict(Snapshot(NewRegions(start)), Fact(NewRegions(now))) == RuleVerdict(start, now)
  {
    NewRegionsIgnoresOrder(start, start);
    NewRegionsIgnoresOrder(now, now);
    hide NewRegions, FirstSpeaks, AddedRule, OpenedFirst, OpenedRule;
    var e, c := NewRegions(start).regions, NewRegions(now).regions;
    AddedNonempty(c, e);
    if AddedRule(c, e) == [] { HeldOpenedAgrees(c, e); }
  }

  /** The detector follows the rules on every later list exactly when the first region speaks for its start. */
  lemma RegionVerdictFollowsRuleIff(start: seq<Region>)
    requires |start| <= MAX_REGIONS
    ensures (forall now: seq<Region> :: |now| <= MAX_REGIONS ==>
               RegionVerdict(Snapshot(NewRegions(start)), Fact(NewRegions(now))) == RuleVerdict(start, now))
       <==> FirstSpeaks(NewRegions(start).regions)
  {
    var e := NewRegions(start).regions;
    if FirstSpeaks(e) {
      forall now: seq<Region> | |now| <= MAX_REGIONS
        ensures RegionVerdict(Snapshot(NewRegions(start)), Fact(NewRegions(now))) == RuleVerdict(start, now)
      {
        VerdictFollowsRule(start, now);
      }
    } else {
      var k :| 0 <= k < |e| && !e[k].writable && Held(e, e[k].start) && !FirstClosed(e, e[k].start);
      UnsealedIsMissed(start, k);
    }
  }

  /** Where another region comes first, a later list of one opened region is missed. */
  lemma UnsealedIsMissed(start: seq<Region>, k: nat)
    requires |start| <= MAX_REGIONS && k < |NewRegions(start).regions|
    requires var e := NewRegions(start).regions;
      !e[k].writable && Held(e, e[k].start) && !FirstClosed(e, e[k].start)
    ensures var now := [NewRegions(start).regions[k].(writable := true)];
      && RegionVerdict(Snapshot(NewRegions(start)), Fact(NewRegions(now))) == Quiet
      && RuleVerdict(start, now).CodeOpened?
  {
    NewRegionsIgnoresOrder(start, start);
    var e := NewRegions(start).regions;
    var now := [e[k].(writable := true)];
    SingleSnapshot(now[0]);
    hide NewRegions, FirstClosed;
    OneRegion(now[0], e);
    assert HeldClosed(e, now[0].start);
    assert AddedRule(now, e) == [] && OpenedFirst(now, e) == [] && OpenedRule(now, e) == now;
  }

  lemma SingleSnapshot(r: Region)
    ensures NewRegions([r]) == CodeRegions([r], false)
  {
    assert [r][1..] == [] && Sort(RegionLe, []) == [] && Insert(RegionLe, r, []) == [r] + [] == [r];
  }

  /**
   So, for every pair of complete snapshots, what the detector reports: added code without a condition, and opened code
   under the condition above, which distinct starts meet.
   */
  lemma RegionVerdictMeans(start: seq<Region>, now: seq<Region>)
    requires |start| <= MAX_REGIONS && |now| <= MAX_REGIONS
    ensures var v := RegionVerdict(Snapshot(NewRegions(start)), Fact(NewRegions(now)));
      && (v.CodeAdded? <==> exists r :: r in now && !IsHeld(start, r.start))
      && (v.CodeOpened? ==> !v.CodeAdded? && exists r :: r in now && r.writable && WasClosed(start, r.start))
      && (FirstSpeaks(NewRegions(start).regions) ==>
            (v.CodeOpened? <==> !v.CodeAdded? && exists r :: r in now && r.writable && WasClosed(start, r.start)))
      && (v.Quiet? <==> !v.CodeAdded? && !v.CodeOpened?)
    ensures DistinctStarts(NewRegions(start).regions) ==> FirstSpeaks(NewRegions(start).regions)
  {
    var e, c := NewRegions(start).regions, NewRegions(now).regions;
    NewRegionsIgnoresOrder(start, start);
    NewRegionsIgnoresOrder(now, now);
    RuleVerdictMeans(start, now);
    OpenedFirstIsSound(c, e);
    if DistinctStarts(e) { DistinctStartsDecide(e); }
    if FirstSpeaks(e) { VerdictFollowsRule(start, now); }
    if OpenedFirst(c, e) != [] { assert OpenedFirst(c, e)[0] in multiset(OpenedFirst(c, e)); }
  }

  lemma HeldIff(e: seq<Region>, start: seq<Region>, address: nat)
    requires forall x :: x in e <==> x in start
    ensures Held(e, address) <==> IsHeld(start, address)
  {
    if Held(e, address) {
      var k :| 0 <= k < |e| && e[k].Holds(address);
      assert e[k] in e;
      assert e[k] in start;
    }
    if IsHeld(start, address) {
      var r :| r in start && r.Holds(address);
      assert r in e;
      var k :| 0 <= k < |e| && e[k] == r;
    }
  }

  lemma ClosedIff(e: seq<Region>, start: seq<Region>, address: nat)
    requires forall x :: x in e <==> x in start
    ensures HeldClosed(e, address) <==> WasClosed(start, address)
  {
    if HeldClosed(e, address) {
      var k :| 0 <= k < |e| && e[k].start == address && !e[k].writable;
      assert e[k] in e;
      assert e[k] in start;
    }
    if WasClosed(start, address) {
      var r :| r in start && r.start == address && !r.writable;
      assert r in e;
      var k :| 0 <= k < |e| && e[k] == r;
    }
  }

  // ----- call targets that moved after start

  ghost function TargetVerdict(start: Captured<DispatchTargets>, now: Observed<DispatchTargets>): Verdict {
    match start
    case NotSupported => Gap
    case NotRead => Unhealthy
    case Snapshot(before) =>
      if !before.bound || before.truncated then Gap
      else match now
        case Unavailable => Gap
        case Failed => Unhealthy
        case Fact(current) =>
          if current.truncated then Gap
          else
            Report(RedirectedFirst(current.targets, before.targets))
  }

  function Report(moved: seq<Target>): Verdict {
    if moved == [] then Quiet else Redirected(|moved|, moved[0].slot)
  }

  method CompareTargets(start: Captured<DispatchTargets>, now: Observed<DispatchTargets>) returns (v: Verdict)
    requires (start.Snapshot? ==> TargetsInOrder(start.value)) && (now.Fact? ==> TargetsInOrder(now.value))
    ensures v == TargetVerdict(start, now)
  {
    if start.NotSupported? { return Gap; }
    if start.NotRead? { return Unhealthy; }
    if !start.value.bound { return Gap; }
    if start.value.truncated { return Gap; }
    if now.Unavailable? { return Gap; }
    if now.Failed? { return Unhealthy; }
    if now.value.truncated { return Gap; }
    var moved := RedirectedSince(now.value, start.value);
    if moved == [] { return Quiet; }
    return Redirected(|moved|, moved[0].slot);
  }

  lemma TargetVerdictIgnoresOrder(start: seq<Target>, start': seq<Target>, now: seq<Target>, now': seq<Target>,
                                  bound: bool, nowBound: bool)
    requires multiset(start) == multiset(start') && multiset(now) == multiset(now')
    ensures TargetVerdict(Snapshot(NewTargets(start, bound)), Fact(NewTargets(now, nowBound)))
         == TargetVerdict(Snapshot(NewTargets(start', bound)), Fact(NewTargets(now', nowBound)))
  {
    NewTargetsIgnoresOrder(start, start', bound);
    NewTargetsIgnoresOrder(now, now', nowBound);
  }

  ghost predicate Moved(start: seq<Target>, t: Target) {
    exists b :: b in start && b.slot == t.slot && b.value != t.value
  }

  lemma {:induction false} MovedNonempty(now: seq<Target>, start: seq<Target>)
    ensures RedirectedFirst(now, start) != [] <==> exists k :: 0 <= k < |now| && FirstOther(start, now[k])
  {
    if now != [] {
      var n := |now| - 1;
      MovedNonempty(now[..n], start);
      assert forall k :: 0 <= k < n ==> now[..n][k] == now[k];
    }
  }

  /** The table as the platform listed it: one value for each slot. */
  ghost predicate OneValue(targets: seq<Target>) {
    forall a, b :: a in targets && b in targets && a.slot == b.slot ==> a.value == b.value
  }

  /**
   Over complete snapshots of a bound table, the detector reports only when some slot holds another value now, and
   with one value for each start slot exactly then.
   */
  lemma TargetVerdictMeans(start: seq<Target>, now: seq<Target>, nowBound: bool)
    requires |start| <= MAX_TARGETS && |now| <= MAX_TARGETS
    ensures var v := TargetVerdict(Snapshot(NewTargets(start, true)), Fact(NewTargets(now, nowBound)));
      && (v.Redirected? ==> exists t :: t in now && Moved(start, t))
      && (OneValue(start) ==> (v.Redirected? <==> exists t :: t in now && Moved(start, t)))
      && (v.Quiet? <==> !v.Redirected?)
  {
    NewTargetsIgnoresOrder(start, start, true);
    NewTargetsIgnoresOrder(now, now, nowBound);
    var before, current := NewTargets(start, true), NewTargets(now, nowBound);
    SameElements(before.targets, start);
    SameElements(current.targets, now);
    assert before.bound;
    hide NewTargets, RedirectedFirst, FirstOther, HeldOther, OneValue, Moved;
    MovedNonempty(current.targets, before.targets);
    forall t ensures FirstOther(before.targets, t) ==> Moved(start, t) { FirstOtherMoved(before.targets, start, t); }
    if OneValue(start) {
      forall t ensures FirstOther(before.targets, t) <==> Moved(start, t) { OtherIff(before.targets, start, t); }
    }
    assert forall t :: t in now ==> t in current.targets;
    assert forall k :: 0 <= k < |current.targets| ==> current.targets[k] in now;
  }

  lemma FirstOtherMoved(before: seq<Target>, start: seq<Target>, t: Target)
    requires forall x :: x in before <==> x in start
    ensures FirstOther(before, t) ==> Moved(start, t)
  {
    if FirstOther(before, t) {
      var k :| 0 <= k < |before| && before[k].slot == t.slot && before[k].value != t.value;
      assert before[k] in before;
      assert before[k] in start;
    }
  }

  /** The detector follows the quadratic rule on every later table exactly when start slots hold one value each. */
  lemma TargetVerdictFollowsRuleIff(start: seq<Target>)
    requires |start| <= MAX_TARGETS
    ensures (forall now: seq<Target> :: |now| <= MAX_TARGETS ==>
               TargetVerdict(Snapshot(NewTargets(start, true)), Fact(NewTargets(now, true)))
               == Report(RedirectedRule(NewTargets(now, true).targets, NewTargets(start, true).targets)))
       <==> OneValue(start)
  {
    var before := NewTargets(start, true).targets;
    NewTargetsIgnoresOrder(start, start, true);
    SameElements(before, start);
    if OneValue(start) {
      ValuesKeep(before, start);
      forall now: seq<Target> | |now| <= MAX_TARGETS
        ensures TargetVerdict(Snapshot(NewTargets(start, true)), Fact(NewTargets(now, true)))
             == Report(RedirectedRule(NewTargets(now, true).targets, before))
      {
        NewTargetsIgnoresOrder(now, now, true);
        RedirectedAgrees(NewTargets(now, true).targets, before);
      }
    } else {
      MovedIsMissed(start);
    }
  }

  /** Where a start slot holds two values, a later table of the first of them is reported by the rule and missed. */
  lemma MovedIsMissed(start: seq<Target>)
    requires |start| <= MAX_TARGETS && !OneValue(start)
    ensures exists now: seq<Target> ::
      && |now| <= MAX_TARGETS
      && TargetVerdict(Snapshot(NewTargets(start, true)), Fact(NewTargets(now, true)))
         != Report(RedirectedRule(NewTargets(now, true).targets, NewTargets(start, true).targets))
  {
    var before := NewTargets(start, true);
    NewTargetsIgnoresOrder(start, start, true);
    SameElements(before.targets, start);
    var a, b :| a in start && b in start && a.slot == b.slot && a.value != b.value;
    var i :| 0 <= i < |before.targets| && before.targets[i] == a;
    var j :| 0 <= j < |before.targets| && before.targets[j] == b;
    var first := FirstOfSlot(before.targets, a.slot, i);
    var now := [before.targets[first]];
    SingleTable(now[0]);
    OneTarget(before.targets, now[0], first, i, j);
    assert TargetVerdict(Snapshot(NewTargets(start, true)), Fact(NewTargets(now, true))) == Quiet;
  }

  lemma OneTarget(before: seq<Target>, t: Target, first: nat, i: nat, j: nat)
    requires first < |before| && t == before[first] && forall k :: 0 <= k < first ==> before[k].slot != t.slot
    requires i < |before| && j < |before| && before[i].slot == before[j].slot == t.slot
    requires before[i].value != before[j].value
    ensures RedirectedRule([t], before) == [t] && RedirectedFirst([t], before) == []
  {
    assert [t][..0] == [];
    assert HeldOther(before, t) by { assert before[i].value != t.value || before[j].value != t.value; }
    assert !FirstOther(before, t);
  }

  lemma SingleTable(t: Target)
    ensures NewTargets([t], true) == DispatchTargets([t], true, false)
  {
    assert [t][1..] == [] && Sort(TargetLe, []) == [] && Insert(TargetLe, t, []) == [t] + [] == [t];
  }

  lemma OtherIff(before: seq<Target>, start: seq<Target>, t: Target)
    requires (forall x :: x in before <==> x in start) && OneValue(start)
    ensures FirstOther(before, t) <==> Moved(start, t)
  {
    hide FirstOther, OneValue;
    ValuesKeep(before, start);
    OtherIsHeld(before, t);
    if HeldOther(before, t) {
      var k :| 0 <= k < |before| && before[k].slot == t.slot && before[k].value != t.value;
      assert before[k] in before;
      assert before[k] in start;
      OtherMeansFirstOther(before, t);
    }
    if Moved(start, t) {
      var b :| b in start && b.slot == t.slot && b.value != t.value;
      assert b in before;
      var k :| 0 <= k < |before| && before[k] == b;
      assert HeldOther(before, t);
    }
  }

  lemma OtherIsHeld(before: seq<Target>, t: Target)
    ensures FirstOther(before, t) ==> HeldOther(before, t)
  {
  }

  lemma ValuesKeep(before: seq<Target>, start: seq<Target>)
    requires (forall x :: x in before <==> x in start) && OneValue(start)
    ensures OneValuePerSlot(before)
  {
    forall i, j | 0 <= i < |before| && 0 <= j < |before| && before[i].slot == before[j].slot
      ensures before[i].value == before[j].value
    {
      assert before[i] in before && before[j] in before;
      assert before[i] in start && before[j] in start;
    }
  }
}
