/**
 The retained state of one runtime: one slot for each detector, the two latch
 sets, and the policy that selects an action for a finding.
 */
module Engine {
  import opened Types
  import opened CategorySets
  import opened ProcessWords

  // ----- one detector slot

  datatype Slot = Slot(detector: Detector, outcome: Outcome, strongest: Option<Finding>,
                       first: Option<nat>, latest: Option<nat>, occurrences: nat)

  function NewSlot(detector: Detector): Slot {
    Slot(detector, NotRun, None, None, None, 0)
  }

  function SlotRecord(slot: Slot, outcome: Outcome): Slot {
    match outcome
    case Found(f) =>
      var stronger := slot.strongest.None? || f.strength.Rank() > slot.strongest.value.strength.Rank();
      Slot(slot.detector, outcome,
           if stronger then Some(f) else slot.strongest,
           if slot.first.None? then Some(f.observedAt) else slot.first,
           Some(f.observedAt),
           if slot.occurrences < U32_MAX then slot.occurrences + 1 else U32_MAX)
    case _ => slot.(outcome := outcome)
  }

  // ----- the policy

  datatype Entry = Entry(action: Action, threshold: Strength)

  /** The action and the threshold of each category. */
  datatype Policy = Policy(integrity: Entry, debugging: Entry, instrumentation: Entry,
                           deviceCompromise: Entry, virtualization: Entry, uiAbuse: Entry) {
    function Of(category: Category): Entry {
      match category
      case Integrity => integrity
      case Debugging => debugging
      case Instrumentation => instrumentation
      case DeviceCompromise => deviceCompromise
      case Virtualization => virtualization
      case UiAbuse => uiAbuse
    }

    /** The action that this finding qualifies for. `Crash` never fires on detector health. */
    function QualifyingAction(f: Finding): Option<Action> {
      var entry := Of(f.category);
      if !f.strength.Reaches(entry.threshold) then None
      else if entry.action == Crash && f.evidence.Health? then Some(Report)
      else Some(entry.action)
    }
  }

  // ----- the state value

  datatype EngineState = EngineState(latched: set<Category>, hostLatched: set<Category>, slots: seq<Slot>)

  function NewState(detectors: seq<Detector>): EngineState {
    EngineState({}, {}, seq(|detectors|, i requires 0 <= i < |detectors| => NewSlot(detectors[i])))
  }

  /** The first slot of this detector, or the number of slots when there is none. */
  function FindSlot(slots: seq<Slot>, id: nat): (k: nat)
    ensures k <= |slots|
    ensures k < |slots| ==> slots[k].detector.id == id
    ensures forall i :: 0 <= i < k ==> slots[i].detector.id != id
  {
    if slots == [] then 0
    else if slots[0].detector.id == id then 0
    else
      var k := 1 + FindSlot(slots[1..], id);
      assert forall i :: 1 <= i < |slots| ==> slots[i] == slots[1..][i - 1];
      k
  }

  predicate Known(slots: seq<Slot>, id: nat) { FindSlot(slots, id) < |slots| }

  function RecordOutcome(st: EngineState, detector: Detector, outcome: Outcome): EngineState {
    var k := FindSlot(st.slots, detector.id);
    if k == |st.slots| then st
    else st.(slots := st.slots[k := SlotRecord(st.slots[k], outcome)])
  }

  function LatchDetector(st: EngineState, c: Category): EngineState { st.(latched := st.latched + {c}) }

  function LatchHost(st: EngineState, c: Category): EngineState {
    st.(latched := st.latched + {c}, hostLatched := st.hostLatched + {c})
  }

  /** The action that one recorded outcome selects, when its detector has a slot. */
  function Selected(st: EngineState, policy: Policy, detector: Detector, outcome: Outcome): Option<Action> {
    if outcome.Found? && Known(st.slots, detector.id) then policy.QualifyingAction(outcome.finding) else None
  }

  predicate SelectsDeny(st: EngineState, policy: Policy, detector: Detector, outcome: Outcome) {
    Selected(st, policy, detector, outcome) == Some(Deny)
  }

  /** What one pass of the `record` loop does to the state. */
  function RecordOne(st: EngineState, policy: Policy, detector: Detector, outcome: Outcome): EngineState {
    var recorded := RecordOutcome(st, detector, outcome);
    if SelectsDeny(st, policy, detector, outcome)
    then LatchDetector(recorded, outcome.finding.category) else recorded
  }

  function RecordAll(st: EngineState, policy: Policy, outcomes: seq<(Detector, Outcome)>): EngineState {
    if outcomes == [] then st
    else
      var n := |outcomes| - 1;
      RecordOne(RecordAll(st, policy, outcomes[..n]), policy, outcomes[n].0, outcomes[n].1)
  }

  /** The findings that select an action, in order, with that action. */
  function QualifiedOf(st: EngineState, policy: Policy, outcomes: seq<(Detector, Outcome)>): seq<Qualified> {
    if outcomes == [] then []
    else
      var n := |outcomes| - 1;
      var before := QualifiedOf(st, policy, outcomes[..n]);
      var selected := Selected(st, policy, outcomes[n].0, outcomes[n].1);
      if selected.Some? then before + [(outcomes[n].1.finding, selected.value)] else before
  }

  /** The order of strengths, from the weakest to the strongest: Low, Medium, High. */
  predicate AtLeast(a: Strength, b: Strength) { a == b || a.High? || b.Low? }

  lemma ReachesIff(a: Strength, b: Strength)
    ensures a.Reaches(b) <==> AtLeast(a, b)
    ensures a.Rank() < b.Rank() <==> !AtLeast(a, b)
  {
  }

  /** A finding with stronger evidence and nothing else changed selects the action that the weaker one selected. */
  lemma RaisingKeepsTheAction(policy: Policy, f: Finding, stronger: Strength)
    requires AtLeast(stronger, f.strength) && policy.QualifyingAction(f).Some?
    ensures policy.QualifyingAction(f.(strength := stronger)) == policy.QualifyingAction(f)
  {
    ReachesIff(f.strength, policy.Of(f.category).threshold);
    ReachesIff(stronger, policy.Of(f.category).threshold);
  }

  /** The finding of one outcome qualifies for this action. */
  ghost predicate Qualifies(st: EngineState, policy: Policy, outcome: (Detector, Outcome), q: Qualified) {
    && outcome.1.Found? && outcome.1.finding == q.0 && Known(st.slots, outcome.0.id)
    && AtLeast(q.0.strength, policy.Of(q.0.category).threshold)
    && var action := policy.Of(q.0.category).action;
       q.1 == if action == Crash && q.0.evidence.Health? then Report else action
  }

  /**
   What `record` returns is exactly the findings of known detectors that reach the threshold of their category, with
   its action; a finding about a detector's own health never carries `Crash`.
   */
  lemma {:induction false} QualifiedExactly(st: EngineState, policy: Policy, outcomes: seq<(Detector, Outcome)>,
                                            q: Qualified)
    ensures q in QualifiedOf(st, policy, outcomes)
      <==> exists k :: 0 <= k < |outcomes| && Qualifies(st, policy, outcomes[k], q)
    ensures q in QualifiedOf(st, policy, outcomes) && q.1 == Crash ==> !q.0.evidence.Health?
  {
    hide Known;
    if outcomes != [] {
      var n := |outcomes| - 1;
      QualifiedExactly(st, policy, outcomes[..n], q);
      assert forall k :: 0 <= k < n ==> outcomes[..n][k] == outcomes[k];
    }
  }

  // ----- slots keep their number, their order and their detector

  predicate SameDetectors(before: seq<Slot>, after: seq<Slot>) {
    |before| == |after| && forall i :: 0 <= i < |before| ==> before[i].detector == after[i].detector
  }

  lemma FindSlotUnique(slots: seq<Slot>, id: nat, k: nat)
    requires k <= |slots|
    requires k < |slots| ==> slots[k].detector.id == id
    requires forall i :: 0 <= i < k ==> slots[i].detector.id != id
    ensures FindSlot(slots, id) == k
  {
  }

  lemma SameDetectorsFind(before: seq<Slot>, after: seq<Slot>, id: nat)
    requires SameDetectors(before, after)
    ensures FindSlot(before, id) == FindSlot(after, id)
  {
    FindSlotUnique(after, id, FindSlot(before, id));
  }

  lemma {:induction false} RecordAllKeepsDetectors(st: EngineState, policy: Policy, outcomes: seq<(Detector, Outcome)>)
    ensures SameDetectors(st.slots, RecordAll(st, policy, outcomes).slots)
    ensures RecordAll(st, policy, outcomes).hostLatched == st.hostLatched
  {
    if outcomes != [] {
      RecordAllKeepsDetectors(st, policy, outcomes[..|outcomes| - 1]);
    }
  }

  // ----- the retained state over a whole history

  /** Everything that changes the state of a runtime. */
  datatype Event =
    | Scanned(detector: Detector, outcome: Outcome)   // through `record`
    | CallbackPanicked(finding: Finding, now: nat)    // through `invoke`, after a callback panic
    | HostDenied(category: Category)                  // through `deny`

  function HealthOutcome(f: Finding, now: nat): Outcome {
    Found(Finding(f.detector, f.detector.category, Low, Health("the host callback panicked"), now))
  }

  function ApplyEvent(st: EngineState, policy: Policy, e: Event): EngineState {
    match e
    case Scanned(d, o) => RecordOne(st, policy, d, o)
    case CallbackPanicked(f, now) => RecordOutcome(st, f.detector, HealthOutcome(f, now))
    case HostDenied(c) => LatchHost(st, c)
  }

  function Replay(detectors: seq<Detector>, policy: Policy, events: seq<Event>): EngineState {
    if events == [] then NewState(detectors)
    else ApplyEvent(Replay(detectors, policy, events[..|events| - 1]), policy, events[|events| - 1])
  }

  /** The outcomes that the slot at `i` received, in order. */
  function History(detectors: seq<Detector>, i: nat, events: seq<Event>): seq<Outcome>
    requires i < |detectors|
  {
    if events == [] then []
    else
      var before := History(detectors, i, events[..|events| - 1]);
      match events[|events| - 1]
      case Scanned(d, o) => if Receives(detectors, i, d.id) then before + [o] else before
      case CallbackPanicked(f, now) =>
        if Receives(detectors, i, f.detector.id) then before + [HealthOutcome(f, now)] else before
      case HostDenied(_) => before
  }

  /** The slot at `i` is the first slot of this detector, so it is the one that records. */
  predicate Receives(detectors: seq<Detector>, i: nat, id: nat)
    requires i < |detectors|
  {
    detectors[i].id == id && forall j :: 0 <= j < i ==> detectors[j].id != id
  }

  function Findings(history: seq<Outcome>): seq<Finding> {
    if history == [] then []
    else
      var before := Findings(history[..|history| - 1]);
      match history[|history| - 1]
      case Found(f) => before + [f]
      case _ => before
  }

  /** `fs[k]` is the earliest of the strongest findings. */
  predicate EarliestStrongest(fs: seq<Finding>, k: nat)
    requires k < |fs|
  {
    && (forall j :: 0 <= j < k ==> !AtLeast(fs[j].strength, fs[k].strength))
    && (forall j :: 0 <= j < |fs| ==> AtLeast(fs[k].strength, fs[j].strength))
  }

  /** What a slot must hold after its history, stated without the recording code. */
  ghost predicate Summarises(slot: Slot, detector: Detector, history: seq<Outcome>) {
    var fs := Findings(history);
    && slot.detector == detector
    && slot.outcome == (if history == [] then NotRun else history[|history| - 1])
    && slot.occurrences == (if |fs| < 0xFFFF_FFFF then |fs| else 0xFFFF_FFFF)
    && slot.first == (if fs == [] then None else Some(fs[0].observedAt))
    && slot.latest == (if fs == [] then None else Some(fs[|fs| - 1].observedAt))
    && (fs == [] ==> slot.strongest == None)
    && (fs != [] ==> exists k: nat :: k < |fs| && EarliestStrongest(fs, k) && slot.strongest == Some(fs[k]))
  }

  /** The strongest finding of a slot is High exactly when one of its findings is, and Low exactly when all are. */
  lemma StrongestMeans(slot: Slot, detector: Detector, history: seq<Outcome>)
    requires Summarises(slot, detector, history) && Findings(history) != []
    ensures slot.strongest.Some?
    ensures var fs, s := Findings(history), slot.strongest.value.strength;
      && (s.High? <==> exists k :: 0 <= k < |fs| && fs[k].strength.High?)
      && (s.Low? <==> forall k :: 0 <= k < |fs| ==> fs[k].strength.Low?)
  {
  }

  /**
   The health record of a callback panic is the latest finding of its detector and never displaces a strongest one. It
   never crashes the process, and selects nothing unless the threshold is the lowest.
   */
  lemma HealthRecordIsWeak(slot: Slot, policy: Policy, f: Finding, now: nat)
    ensures var health := HealthOutcome(f, now);
      && health.Found?
      && (slot.strongest.Some? ==> SlotRecord(slot, health).strongest == slot.strongest)
      && SlotRecord(slot, health).latest == Some(now)
      && policy.QualifyingAction(health.finding) != Some(Crash)
      && (policy.Of(f.detector.category).threshold != Low ==> policy.QualifyingAction(health.finding) == None)
  {
  }

  lemma SlotRecordSummarises(slot: Slot, detector: Detector, history: seq<Outcome>, o: Outcome)
    requires Summarises(slot, detector, history)
    ensures Summarises(SlotRecord(slot, o), detector, history + [o])
  {
    var longer := history + [o];
    assert longer[..|longer| - 1] == history;
    if o.Found? {
      var fs := Findings(history);
      assert Findings(longer) == fs + [o.finding];
      var all := fs + [o.finding];
      if fs == [] {
        assert EarliestStrongest(all, 0);
      } else {
        var k: nat :| k < |fs| && EarliestStrongest(fs, k) && slot.strongest == Some(fs[k]);
        if o.finding.strength.Rank() > fs[k].strength.Rank() {
          assert EarliestStrongest(all, |fs|);
        } else {
          assert all[k] == fs[k];
          assert EarliestStrongest(all, k);
        }
      }
    }
  }

  lemma {:induction false} ReplayKeepsDetectors(detectors: seq<Detector>, policy: Policy, events: seq<Event>)
    ensures |Replay(detectors, policy, events).slots| == |detectors|
    ensures forall i :: 0 <= i < |detectors| ==> Replay(detectors, policy, events).slots[i].detector == detectors[i]
  {
    if events != [] {
      ReplayKeepsDetectors(detectors, policy, events[..|events| - 1]);
    }
  }

  lemma ReceivesIffFound(st: EngineState, detectors: seq<Detector>, i: nat, id: nat)
    requires i < |detectors| == |st.slots|
    requires forall j :: 0 <= j < |detectors| ==> st.slots[j].detector == detectors[j]
    ensures Receives(detectors, i, id) <==> FindSlot(st.slots, id) == i
  {
    if Receives(detectors, i, id) { FindSlotUnique(st.slots, id, i); }
  }

  /** Each slot is exactly the summary of the outcomes that it received, over any history. */
  lemma {:induction false} SlotIsTheSummaryOfItsHistory(detectors: seq<Detector>, policy: Policy, events: seq<Event>,
                                                        i: nat)
    requires i < |detectors|
    ensures |Replay(detectors, policy, events).slots| == |detectors|
    ensures Summarises(Replay(detectors, policy, events).slots[i], detectors[i], History(detectors, i, events))
  {
    hide SlotRecord, HealthOutcome;
    ReplayKeepsDetectors(detectors, policy, events);
    if events != [] {
      var n := |events| - 1;
      SlotIsTheSummaryOfItsHistory(detectors, policy, events[..n], i);
      ReplayKeepsDetectors(detectors, policy, events[..n]);
      var before := Replay(detectors, policy, events[..n]);
      match events[n] {
        case Scanned(d, o) =>
          ReceivesIffFound(before, detectors, i, d.id);
          SlotRecordSummarises(before.slots[i], detectors[i], History(detectors, i, events[..n]), o);
        case CallbackPanicked(f, now) =>
          ReceivesIffFound(before, detectors, i, f.detector.id);
          SlotRecordSummarises(before.slots[i], detectors[i], History(detectors, i, events[..n]),
                               HealthOutcome(f, now));
        case HostDenied(_) =>
      }
    }
  }

  /** This event, on its own, is a reason for the category to be latched. */
  ghost predicate Justifies(detectors: seq<Detector>, policy: Policy, e: Event, c: Category) {
    match e
    case Scanned(d, o) =>
      && o.Found? && o.finding.category == c
      && policy.Of(c).action == Deny && AtLeast(o.finding.strength, policy.Of(c).threshold)
      && exists i :: 0 <= i < |detectors| && detectors[i].id == d.id
    case CallbackPanicked(_, _) => false
    case HostDenied(h) => h == c
  }

  lemma OneEventLatches(detectors: seq<Detector>, policy: Policy, events: seq<Event>, c: Category)
    requires events != []
    ensures var n := |events| - 1;
      (c in Replay(detectors, policy, events).latched
       <==> c in Replay(detectors, policy, events[..n]).latched || Justifies(detectors, policy, events[n], c))
  {
    var n := |events| - 1;
    ReplayKeepsDetectors(detectors, policy, events[..n]);
    var before := Replay(detectors, policy, events[..n]);
    if events[n].Scanned? {
      var id := events[n].detector.id;
      var k := FindSlot(before.slots, id);
      assert k < |detectors| ==> detectors[k].id == id;
      assert forall i :: 0 <= i < |detectors| && detectors[i].id == id ==> before.slots[i].detector.id == id;
    }
  }

  /**
   The latched set is exactly the host denials and the categories of recorded findings of known
   detectors that qualify for `Deny`. A callback-panic health finding never reaches the latch.
   */
  lemma {:induction false} LatchedExactly(detectors: seq<Detector>, policy: Policy, events: seq<Event>, c: Category)
    ensures c in Replay(detectors, policy, events).latched
       <==> exists k :: 0 <= k < |events| && Justifies(detectors, policy, events[k], c)
  {
    if events != [] {
      var n := |events| - 1;
      var prefix := events[..n];
      LatchedExactly(detectors, policy, prefix, c);
      OneEventLatches(detectors, policy, events, c);
      assert forall k :: 0 <= k < n ==> prefix[k] == events[k];
    }
  }

  /** The host-latched set is exactly the host denials. */
  lemma {:induction false} HostLatchedExactly(detectors: seq<Detector>, policy: Policy, events: seq<Event>, c: Category)
    ensures c in Replay(detectors, policy, events).hostLatched
       <==> exists k :: 0 <= k < |events| && events[k] == HostDenied(c)
  {
    if events != [] {
      var n := |events| - 1;
      var prefix := events[..n];
      HostLatchedExactly(detectors, policy, prefix, c);
      assert forall k :: 0 <= k < n ==> prefix[k] == events[k];
      assert c in Replay(detectors, policy, events).hostLatched
        <==> c in Replay(detectors, policy, prefix).hostLatched || events[n] == HostDenied(c);
    }
  }

  // ----- the state object, updated in place

  class State {
    var latched: set<Category>
    var hostLatched: set<Category>
    const slots: array<Slot>

    ghost function Value(): EngineState reads this, slots { EngineState(latched, hostLatched, slots[..]) }

    constructor (detectors: seq<Detector>)
      ensures Value() == NewState(detectors)
      ensures fresh(slots)
    {
      latched, hostLatched := {}, {};
      slots := new Slot[|detectors|](i requires 0 <= i < |detectors| => NewSlot(detectors[i]));
    }

    method Record(detector: Detector, outcome: Outcome) returns (finding: Option<Finding>)
      modifies slots
      ensures Value() == RecordOutcome(old(Value()), detector, outcome)
      ensures finding ==
              if outcome.Found? && Known(old(Value()).slots, detector.id) then Some(outcome.finding) else None
    {
      var k := 0;
      while k < slots.Length && slots[k].detector.id != detector.id
        invariant 0 <= k <= slots.Length
        invariant forall i :: 0 <= i < k ==> slots[i].detector.id != detector.id
        invariant slots[..] == old(slots[..])
      {
        k := k + 1;
      }
      FindSlotUnique(slots[..], detector.id, k);
      if k == slots.Length { return None; }
      finding := if outcome.Found? then Some(outcome.finding) else None;
      slots[k] := SlotRecord(slots[k], outcome);
    }

    method Latch(category: Category)
      modifies `latched
      ensures Value() == LatchDetector(old(Value()), category)
    {
      latched := latched + {category};
    }

    method LatchByHost(category: Category)
      modifies `latched, `hostLatched
      ensures Value() == LatchHost(old(Value()), category)
    {
      latched := latched + {category};
      hostLatched := hostLatched + {category};
    }
  }

  /**
   One locked pass over the outcomes of a scan. A denial goes to the process word first and to the state second, so a
   word that agreed with the state agrees with it again at the end, and one that led it still leads it.
   */
  method Record(state: State, policy: Policy, words: Statics, outcomes: seq<(Detector, Outcome)>)
    returns (qualified: seq<Qualified>)
    requires words.Valid()
    modifies state, state.slots, words`latched
    ensures words.Valid() && words.View() == old(words.View()).(latched := words.View().latched)
    ensures state.Value() == RecordAll(old(state.Value()), policy, outcomes)
    ensures qualified == QualifiedOf(old(state.Value()), policy, outcomes)
    ensures old(words.View().latched) == old(state.latched) ==> words.View().latched == state.latched
    ensures old(state.latched) <= old(words.View().latched) ==> state.latched <= words.View().latched
  {
    hide Abs, NoStrays;
    qualified := [];
    ghost var start := state.Value();
    for n := 0 to |outcomes|
      invariant state.Value() == RecordAll(start, policy, outcomes[..n])
      invariant qualified == QualifiedOf(start, policy, outcomes[..n])
      invariant words.Valid()
      invariant old(words.View().latched) == old(state.latched) ==> words.View().latched == state.latched
      invariant old(state.latched) <= old(words.View().latched) ==> state.latched <= words.View().latched
    {
      ghost var before := state.Value();
      RecordAllKeepsDetectors(start, policy, outcomes[..n]);
      SameDetectorsFind(start.slots, before.slots, outcomes[n].0.id);
      assert outcomes[..n + 1][..n] == outcomes[..n];
      var finding := state.Record(outcomes[n].0, outcomes[n].1);
      if finding.Some? {
        var action := policy.QualifyingAction(finding.value);
        if action.Some? {
          if action.value == Deny {
            words.Latch(finding.value.category);
            state.Latch(finding.value.category);
          }
          qualified := qualified + [(finding.value, action.value)];
        }
      }
    }
    assert outcomes[..|outcomes|] == outcomes;
  }

  /** A host denial: the word first and the state second, under the state lock. */
  method DenyByHost(state: State, words: Statics, category: Category)
    requires words.Valid()
    modifies state`latched, state`hostLatched, words`latched
    ensures words.Valid() && words.View() == old(words.View()).(latched := old(words.View().latched) + {category})
    ensures state.Value() == LatchHost(old(state.Value()), category)
    ensures old(words.View().latched) == old(state.latched) ==> words.View().latched == state.latched
  {
    hide Abs, NoStrays;
    words.Latch(category);
    state.LatchByHost(category);
  }
}
