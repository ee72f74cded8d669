/**
 What the two host calls that change a runtime leave behind, over every run of the process: a denial reaches the word,
 the engine and every later check, a report reaches its slot and the queue, and no other call denies for the host.
 */
module ProtocolDeny {
  import opened Types
  import opened Engine
  import opened Detect
  import opened Protocol
  import opened ProtocolInvariant
  import opened ProtocolSteps
  import opened ProtocolTheorems
  import opened ProtocolCalls
  import opened ProtocolHistory
  import ProtocolQueue

  // ----- what a call owes

  /** The finding is what the host reported: that strength, at that time, about the user interface. */
  predicate Reports(f: Finding, strength: Strength, now: nat) {
    f.detector == HOST_REPORT && f.category == UiAbuse && f.strength == strength && f.evidence.Observed?
    && f.observedAt == now
  }

  /** The category that a finished call must have latched. */
  function Due(kind: OpKind, policy: Policy): set<Category> {
    match kind
    case DenyOp(c) => {c}
    case ReportOp(strength, _) =>
      if policy.uiAbuse.action == Deny && AtLeast(strength, policy.uiAbuse.threshold) then {UiAbuse} else {}
    case _ => {}
  }

  /** A report goes to the queue exactly when it reaches the threshold, with the action of its category. */
  predicate Queues(qualified: seq<Qualified>, strength: Strength, now: nat, policy: Policy) {
    if AtLeast(strength, policy.uiAbuse.threshold)
    then |qualified| == 1 && Reports(qualified[0].0, strength, now) && qualified[0].1 == policy.uiAbuse.action
    else qualified == []
  }

  /** The section of a call has its one instruction still to do, or is on the way from it to its end. */
  predicate Serves(kind: OpKind, policy: Policy, engine: EngineState, sec: Section) {
    match kind
    case DenyOp(c) =>
      || (sec.todo == [HostDeny(c)] && (sec.phase.Wanting? || sec.phase.Ready?))
      || (sec.todo == [] && (sec.phase == Hooking(c, true) || sec.phase == Latching(c, true)))
      || (sec.todo == [] && sec.phase.Ready? && c in engine.latched && c in engine.hostLatched)
    case ReportOp(strength, now) =>
      if sec.todo == [] then
        && Queues(sec.qualified, strength, now, policy)
        && (sec.phase == Hooking(UiAbuse, false) || sec.phase == Latching(UiAbuse, false)
            || (sec.phase.Ready? && Due(kind, policy) <= engine.latched))
      else
        && |sec.todo| == 1 && sec.todo[0].Rec? && sec.todo[0].detector == HOST_REPORT && sec.todo[0].outcome.Found?
        && Reports(sec.todo[0].outcome.finding, strength, now)
        && sec.qualified == [] && (sec.phase.Wanting? || sec.phase.Ready?)
    case SnapshotOp => (sec.todo == [Copy] || sec.todo == []) && (sec.phase.Wanting? || sec.phase.Ready?)
    case _ => false
  }

  /** What holds of a call at every point of it. */
  predicate Keeps(op: Op, st: Start) {
    && Stage(st.pc) >= 3
    && match op.pc
       case Critical(sec) => Serves(op.kind, st.policy, st.engine, sec)
       case Queueing(qualified) =>
         op.kind.ReportOp? && Queues(qualified, op.kind.strength, op.kind.now, st.policy)
         && Due(op.kind, st.policy) <= st.engine.latched
       case Finished(Done) =>
         Due(op.kind, st.policy) <= st.engine.latched && (op.kind.DenyOp? ==> op.kind.category in st.engine.hostLatched)
       case _ => true
  }

  // ----- the engine of a runtime loses nothing

  predicate Gains(e: EngineState, e': EngineState) { e.latched <= e'.latched && e.hostLatched <= e'.hostLatched }

  lemma StayGains(st: Start, sec: Section, word: set<Category>, step: SectionStep)
    requires step.RunInstr? ==> sec.todo != []
    requires step.CallHook? ==> sec.phase.Hooking?
    requires step.Insert? ==> sec.phase.Latching?
    ensures Gains(st.engine, StayStep(st, sec, word, step).0)
  {
    hide FindSlot;
    if step.RunInstr? && sec.todo[0].Rec? { RecordKeepsLatch(st.engine, sec.todo[0].detector, sec.todo[0].outcome); }
  }

  lemma SectionGains(s: Process, sid: Sid, locus: Locus, step: SectionStep)
    requires SectionEnabled(s, sid, locus, step)
    ensures sid in s.starts && sid in ApplySection(s, sid, locus, step).starts
    ensures Gains(s.starts[sid].engine, ApplySection(s, sid, locus, step).starts[sid].engine)
  {
    hide StayStep;
    if !step.PanicHook? && !step.Release? {
      StayGains(s.starts[sid], SectionAt(s, sid, locus).value, s.words.latched, step);
    }
  }

  lemma MarkKeepsEngine(s: Process, sid: Sid)
    requires sid in s.starts && MarkEnabled(s, sid)
    ensures sid in ApplyMark(s, sid).starts && ApplyMark(s, sid).starts[sid].engine == s.starts[sid].engine
  {
  }

  lemma ClearKeepsEngine(s: Process, sid: Sid)
    requires sid in s.starts && ClearEnabled(s, sid)
    ensures sid in ApplyClear(s, sid).starts && ApplyClear(s, sid).starts[sid].engine == s.starts[sid].engine
  {
  }

  /** Once its engine exists, no step takes a category out of either latch of a runtime. */
  lemma StepGains(s: Process, a: Label, t: Sid)
    requires Inv(s) && Enabled(s, a) && t in s.starts && Stage(s.starts[t].pc) >= 3
    ensures t in Apply(s, a).starts && Stage(Apply(s, a).starts[t].pc) >= 3
    ensures Gains(s.starts[t].engine, Apply(s, a).starts[t].engine)
    ensures Apply(s, a).starts[t].policy == s.starts[t].policy
  {
    hide Inv, ApplySection, SectionEnabled, ApplyClear, ClearEnabled, ApplyMark, MarkEnabled, EngineGrows;
    StepEvolves(s, a, t);
    if TouchedStart(s, a) != Some(t) {
      OtherStartsStay(s, a, t);
    } else if a.InSection? {
      SectionGains(s, t, a.locus, a.step);
    } else if a.Mark? {
      MarkKeepsEngine(s, t);
    } else if a.Clear? {
      ClearKeepsEngine(s, t);
    }
  }

  // ----- one step of a call

  lemma KeepsMore(op: Op, st: Start, st': Start)
    requires Keeps(op, st) && Stage(st'.pc) >= 3 && st'.policy == st.policy && Gains(st.engine, st'.engine)
    ensures Keeps(op, st')
  {
  }

  lemma ReportRuns(st: Start, sec: Section, strength: Strength, now: nat)
    requires Serves(ReportOp(strength, now), st.policy, st.engine, sec) && sec.todo != [] && sec.phase.Ready?
    requires InventorySlots(st.engine)
    ensures Serves(ReportOp(strength, now), st.policy, RunOne(st, sec).0, RunOne(st, sec).1)
  {
    hide RecordOutcome;
    var f := sec.todo[0].outcome.finding;
    assert st.engine.slots[11].detector.id == HOST_REPORT.id;
    assert Known(st.engine.slots, HOST_REPORT.id);
    ReachesIff(f.strength, st.policy.Of(f.category).threshold);
    assert sec.todo[1..] == [];
  }

  lemma StayServes(st: Start, kind: OpKind, sec: Section, word: set<Category>, step: SectionStep)
    requires Serves(kind, st.policy, st.engine, sec) && InventorySlots(st.engine)
    requires step.Acquire? ==> sec.phase.Wanting?
    requires step.RunInstr? ==> sec.todo != [] && sec.phase.Ready?
    requires step.CallHook? ==> sec.phase.Hooking?
    requires step.Insert? ==> sec.phase.Latching?
    requires !step.PanicHook? && !step.Release?
    ensures var (e', sec', _) := StayStep(st, sec, word, step); Serves(kind, st.policy, e', sec')
  {
    hide FindSlot, SlotRecord, InventorySlots;
    if step.RunInstr? {
      if kind.ReportOp? { ReportRuns(st, sec, kind.strength, kind.now); } else { assert sec.todo[1..] == []; }
    }
  }

  lemma CallSectionKeeps(s: Process, t: Sid, h: Hid, step: SectionStep)
    requires Inv(s) && SectionEnabled(s, t, AtOp(h), step) && t in s.starts && Keeps(s.ops[h], s.starts[t])
    ensures CallKeeps(ApplySection(s, t, AtOp(h), step), h)
  {
    hide Inv, StayStep, Serves, OwnerWords, LinkInv, OpInv;
    SectionFacts(s, t, AtOp(h));
    var st, op := s.starts[t], s.ops[h];
    if step.PanicHook? {
      // an unwound call promises nothing
    } else if step.Release? {
      ReleaseSettles(op, st);
    } else {
      StayServes(st, op.kind, op.pc.sec, s.words.latched, step);
    }
  }

  /** A section that is done owes nothing more. */
  lemma ReleaseSettles(op: Op, st: Start)
    requires Keeps(op, st) && op.pc.Critical? && op.pc.sec.todo == [] && op.pc.sec.phase.Ready?
    ensures op.kind.DenyOp? ==> Keeps(op.(pc := Finished(Done)), st)
    ensures op.kind.ReportOp? ==> Keeps(op.(pc := Queueing(op.pc.sec.qualified)), st)
    ensures op.kind.DenyOp? || op.kind.ReportOp? || op.kind.SnapshotOp?
  {
  }

  lemma BeginKeeps(s: Process, a: Label)
    requires Inv(s) && Enabled(s, a) && a.BeginOp?
    ensures CallKeeps(Apply(s, a), a.h)
  {
    hide Inv, CoverageInv, LockInv;
    StartHolds(s, a.opSid);
  }

  /** A call that the step does not involve keeps what it had, and its runtime lost nothing. */
  lemma OtherCallKeeps(s: Process, a: Label, h: Hid)
    requires Inv(s) && Enabled(s, a) && h in s.ops && s.ops[h].sid in s.starts
      && Keeps(s.ops[h], s.starts[s.ops[h].sid])
    requires !Involves(a, h)
    ensures CallKeeps(Apply(s, a), h)
  {
    hide Inv, Apply, Enabled, Keeps, Stage;
    CallStays(s, a, h);
    KeepsStage(s.ops[h], s.starts[s.ops[h].sid]);
    StepGains(s, a, s.ops[h].sid);
    KeepsMore(s.ops[h], s.starts[s.ops[h].sid], Apply(s, a).starts[s.ops[h].sid]);
  }

  lemma KeepsStage(op: Op, st: Start)
    requires Keeps(op, st)
    ensures Stage(st.pc) >= 3
  {
  }

  lemma LoadKeeps(s: Process, a: Label)
    requires Enabled(s, a) && (a.Load? || a.WaitAcquire? || a.WaitCheck?)
    requires s.ops[a.h].sid in s.starts && Keeps(s.ops[a.h], s.starts[s.ops[a.h].sid])
    ensures CallKeeps(Apply(s, a), a.h)
  {
  }

  lemma EnqueueKeeps(s: Process, h: Hid)
    requires Enabled(s, Enqueue(h)) && CallKeeps(s, h)
    ensures CallKeeps(Apply(s, Enqueue(h)), h)
  {
    hide Queues;
  }

  ghost predicate CallKeeps(s: Process, h: Hid) {
    h in s.ops ==> s.ops[h].sid in s.starts && Keeps(s.ops[h], s.starts[s.ops[h].sid])
  }

  lemma StepKeepsCall(s: Process, a: Label, h: Hid)
    requires Inv(s) && Enabled(s, a) && CallKeeps(s, h)
    ensures CallKeeps(Apply(s, a), h)
  {
    hide Inv, Keeps, ApplySection, SectionEnabled, ApplyClear, ApplyMark;
    if !Involves(a, h) {
      if h in s.ops { OtherCallKeeps(s, a, h); } else { CallStays(s, a, h); }
    } else if a.InSection? {
      SectionOfACall(s, a.sid, h, a.step);
      CallSectionKeeps(s, a.sid, h, a.step);
    } else if a.BeginOp? {
      BeginKeeps(s, a);
    } else if a.Enqueue? {
      EnqueueKeeps(s, h);
    } else {
      LoadKeeps(s, a);
    }
  }

  lemma {:induction false} RunKeepsCall(states: seq<Process>, labels: seq<Label>, i: nat, h: Hid)
    requires IsRun(states, labels) && KeepsHandles(states, labels) && i < |states|
    ensures CallKeeps(states[i], h)
    decreases i
  {
    hide Inv, Enabled, Apply, Keeps;
    if i > 0 {
      RunKeepsCall(states, labels, i - 1, h);
      RunInv(states, labels, i - 1);
      assert StepOf(states, labels, i - 1);
      StepKeepsCall(states[i - 1], labels[i - 1], h);
    }
  }

  // ----- a host denial

  lemma DoneIsLatched(states: seq<Process>, labels: seq<Label>, i: nat, h: Hid)
    requires IsRun(states, labels) && KeepsHandles(states, labels) && i < |states|
    requires h in states[i].ops && states[i].ops[h].pc == Finished(Done)
    ensures states[i].ops[h].sid in states[i].starts && Keeps(states[i].ops[h], states[i].starts[states[i].ops[h].sid])
  {
    hide Inv, Keeps;
    RunKeepsCall(states, labels, i, h);
  }

  /** A finished call stays what it is. */
  lemma {:induction false} FinishedStays(states: seq<Process>, labels: seq<Label>, i: nat, j: nat, h: Hid)
    requires IsRun(states, labels) && i <= j < |states| && h in states[i].ops && states[i].ops[h].pc.Finished?
    ensures h in states[j].ops && states[j].ops[h] == states[i].ops[h]
    decreases j
  {
    hide Enabled, Apply;
    if i < j {
      FinishedStays(states, labels, i, j - 1, h);
      assert StepOf(states, labels, j - 1);
      FinishedIsNotInvolved(states[j - 1], labels[j - 1], h);
      CallStays(states[j - 1], labels[j - 1], h);
    }
  }

  lemma FinishedIsNotInvolved(s: Process, a: Label, h: Hid)
    requires Enabled(s, a) && h in s.ops && s.ops[h].pc.Finished?
    ensures !Involves(a, h)
  {
  }

  /** The engine latch of a runtime that is not abandoned is in the word. */
  lemma LatchInWord(states: seq<Process>, labels: seq<Label>, i: nat, t: Sid)
    requires IsRun(states, labels) && KeepsHandles(states, labels) && i < |states| && t in states[i].starts
    requires Live(states[i].starts[t].pc)
    ensures states[i].starts[t].engine.latched <= states[i].words.latched
  {
    hide Inv;
    LatchesNeverDisagree(states, labels, i, t);
  }

  /**
   A `deny` that returned is for good: at every later index its category is in both latches of the runtime, and in the
   process word as long as the runtime is not abandoned, which a committed one never is.
   */
  lemma DenialIsForGood(states: seq<Process>, labels: seq<Label>, i: nat, j: nat, h: Hid, c: Category)
    requires IsRun(states, labels) && KeepsHandles(states, labels) && i <= j < |states|
    requires h in states[i].ops && states[i].ops[h].kind == DenyOp(c) && states[i].ops[h].pc == Finished(Done)
    ensures states[i].ops[h].sid in states[i].starts && states[i].ops[h].sid in states[j].starts
    ensures var st := states[j].starts[states[i].ops[h].sid];
      && c in st.engine.latched && c in st.engine.hostLatched
      && (Live(st.pc) ==> c in states[j].words.latched)
      && (states[i].starts[states[i].ops[h].sid].pc.Committed? ==> st.pc.Committed? && c in states[j].words.latched)
  {
    hide Inv, Keeps, Stage;
    var sid := states[i].ops[h].sid;
    DoneIsLatched(states, labels, i, h);
    RunEvolves(states, labels, i, j, sid);
    FinishedStays(states, labels, i, j, h);
    DoneIsLatched(states, labels, j, h);
    DoneMeans(states[j].ops[h], states[j].starts[sid]);
    if Live(states[j].starts[sid].pc) { LatchInWord(states, labels, j, sid); }
  }

  lemma DoneMeans(op: Op, st: Start)
    requires Keeps(op, st) && op.pc == Finished(Done)
    ensures op.kind.DenyOp? ==> op.kind.category in st.engine.latched && op.kind.category in st.engine.hostLatched
    ensures op.kind.ReportOp? ==>
      st.policy.uiAbuse.action == Deny && AtLeast(op.kind.strength, st.policy.uiAbuse.threshold) ==>
        UiAbuse in st.engine.latched
  {
    if op.kind.DenyOp? { assert op.kind.category in Due(op.kind, st.policy); }
  }

  /** Every check on the runtime that begins after the denial returned, and returns, answers it. */
  lemma {:induction false} DenialReachesChecks(states: seq<Process>, labels: seq<Label>, i: nat, j: nat, g: Hid, h: Hid,
                                               c: Category)
    requires IsRun(states, labels) && KeepsHandles(states, labels) && i <= j < |states|
    requires g in states[i].ops && states[i].ops[g].kind == DenyOp(c) && states[i].ops[g].pc == Finished(Done)
    requires h !in states[i].ops
    ensures DeniesAtLeast(states[j], h, states[i].ops[g].sid, {c})
    decreases j
  {
    hide Inv, Enabled, Apply;
    if j > i {
      var sid := states[i].ops[g].sid;
      DenialReachesChecks(states, labels, i, j - 1, g, h, c);
      assert StepOf(states, labels, j - 1);
      var s, a := states[j - 1], labels[j - 1];
      LoadOfACall(s, a);
      if a == Load(h) && s.ops[h].pc.LoadWord? && s.ops[h].sid == sid {
        assert ReadsWord(states, labels, j - 1, sid);
        ReaderIsServed(states, labels, j - 1, sid);
        DenialIsForGood(states, labels, i, j - 1, g, c);
      }
      DenyStep(s, a, h, sid, {c});
    }
  }

  /** So such a check returns `Denied`, with the category among its reasons, and never an Ok or a coverage gap. */
  lemma DeniedCheck(states: seq<Process>, labels: seq<Label>, i: nat, j: nat, g: Hid, h: Hid, c: Category)
    requires IsRun(states, labels) && KeepsHandles(states, labels) && i <= j < |states|
    requires g in states[i].ops && states[i].ops[g].kind == DenyOp(c) && states[i].ops[g].pc == Finished(Done)
    requires h !in states[i].ops && h in states[j].ops && states[j].ops[h].sid == states[i].ops[g].sid
    requires states[j].ops[h].kind.EnsureOp? && states[j].ops[h].pc.Finished?
    ensures states[j].ops[h].pc.result.Denied? && c in states[j].ops[h].pc.result.categories
  {
    DenialReachesChecks(states, labels, i, j, g, h, c);
    assert c in {c};
  }

  // ----- and nobody else denies for the host

  /** The section runs no host denial. */
  predicate Plain(sec: Section) {
    && (forall k :: 0 <= k < |sec.todo| ==> !sec.todo[k].HostDeny?)
    && (sec.phase.Hooking? ==> !sec.phase.host)
    && (sec.phase.Latching? ==> !sec.phase.host)
  }

  predicate RuntimeIsPlain(st: Start) {
    (st.pc.Initial? ==> Plain(st.pc.sec)) && (HasSection(st.worker) ==> Plain(st.worker.sec))
  }

  lemma StayPlain(st: Start, sec: Section, word: set<Category>, step: SectionStep)
    requires Plain(sec)
    requires step.RunInstr? ==> sec.todo != []
    requires step.CallHook? ==> sec.phase.Hooking?
    requires step.Insert? ==> sec.phase.Latching?
    ensures Plain(StayStep(st, sec, word, step).1)
  {
    hide RecordOutcome, Selected;
  }

  lemma SectionStaysPlain(s: Process, t: Sid, locus: Locus, step: SectionStep)
    requires SectionEnabled(s, t, locus, step) && RuntimeIsPlain(s.starts[t])
    ensures t in ApplySection(s, t, locus, step).starts && RuntimeIsPlain(ApplySection(s, t, locus, step).starts[t])
  {
    hide StayStep, Plain;
    var sec := SectionAt(s, t, locus).value;
    if !step.PanicHook? && !step.Release? && !locus.AtOp? {
      StayPlain(s.starts[t], sec, s.words.latched, step);
    }
  }

  lemma StepStaysPlain(s: Process, a: Label, t: Sid)
    requires Inv(s) && Enabled(s, a) && (t in s.starts ==> RuntimeIsPlain(s.starts[t]))
    ensures t in Apply(s, a).starts ==> RuntimeIsPlain(Apply(s, a).starts[t])
  {
    hide Inv, ApplySection, SectionEnabled, ApplyClear, ClearEnabled, ApplyMark, MarkEnabled, EngineGrows;
    if t !in s.starts {
      if t in Apply(s, a).starts { NewHasNoWorker(s, a, t); }
    } else if TouchedStart(s, a) != Some(t) {
      OtherStartsStay(s, a, t);
    } else if a.InSection? {
      SectionStaysPlain(s, t, a.locus, a.step);
    } else if a.Mark? {
      MarkLeavesSections(s, t);
    } else if a.Clear? {
      ClearLeavesSections(s, t);
    }
  }

  lemma NewHasNoWorker(s: Process, a: Label, t: Sid)
    requires Inv(s) && Enabled(s, a) && t !in s.starts && t in Apply(s, a).starts
    ensures Apply(s, a).starts[t].pc.Idle? && Apply(s, a).starts[t].worker.NoWorker?
  {
    hide Inv, ApplySection, SectionEnabled, ApplyClear, ApplyMark;
    if a.InSection? {
      SectionOfAStart(s, a.sid, a.locus, a.step);
      SectionEvolves(s, a.sid, a.locus, a.step);
    } else if a.Mark? || a.Clear? {
      MarkAndClearKeepStarts(s, a);
    }
  }

  lemma SectionOfAStart(s: Process, sid: Sid, locus: Locus, step: SectionStep)
    requires SectionEnabled(s, sid, locus, step)
    ensures sid in s.starts
  {
  }

  lemma MarkAndClearKeepStarts(s: Process, a: Label)
    requires Enabled(s, a) && (a.Mark? || a.Clear?)
    ensures Apply(s, a).starts.Keys == s.starts.Keys
  {
  }

  lemma MarkLeavesSections(s: Process, t: Sid)
    requires t in s.starts && MarkEnabled(s, t)
    ensures t in ApplyMark(s, t).starts && ApplyMark(s, t).starts[t].pc == s.starts[t].pc
    ensures !HasSection(ApplyMark(s, t).starts[t].worker)
  {
  }

  lemma ClearLeavesSections(s: Process, t: Sid)
    requires t in s.starts && ClearEnabled(s, t)
    ensures t in ApplyClear(s, t).starts && !ApplyClear(s, t).starts[t].pc.Initial?
    ensures ApplyClear(s, t).starts[t].worker == s.starts[t].worker
  {
  }

  lemma {:induction false} RunStaysPlain(states: seq<Process>, labels: seq<Label>, i: nat, t: Sid)
    requires IsRun(states, labels) && KeepsHandles(states, labels) && i < |states|
    ensures t in states[i].starts ==> RuntimeIsPlain(states[i].starts[t])
    decreases i
  {
    hide Inv, Enabled, Apply, RuntimeIsPlain;
    if i > 0 {
      RunStaysPlain(states, labels, i - 1, t);
      RunInv(states, labels, i - 1);
      assert StepOf(states, labels, i - 1);
      StepStaysPlain(states[i - 1], labels[i - 1], t);
    }
  }

  /** Every host denial that reaches a runtime is the step of a `deny` call on it, with that category. */
  lemma HostDenialIsACall(states: seq<Process>, labels: seq<Label>, i: nat, sid: Sid, c: Category)
    requires IsRun(states, labels) && KeepsHandles(states, labels) && i < |labels|
    requires EventOf(states[i], labels[i], sid) == Some(HostDenied(c))
    ensures labels[i].InSection? && labels[i].locus.AtOp? && labels[i].locus.h in states[i].ops
    ensures states[i].ops[labels[i].locus.h].sid == sid && states[i].ops[labels[i].locus.h].kind == DenyOp(c)
  {
    hide Inv, Apply, Enabled;
    RunStaysPlain(states, labels, i, sid);
    if labels[i].locus.AtOp? { RunKeepsCall(states, labels, i, labels[i].locus.h); }
  }

  // ----- a host report

  /** The call has run the instruction of its section. */
  predicate Recorded(op: Op) {
    match op.pc
    case Critical(sec) => sec.todo == []
    case Queueing(_) => true
    case Finished(Done) => true
    case _ => false
  }

  /** The event is a recorded report of that strength, at that time. */
  predicate IsReport(e: Event, strength: Strength, now: nat) {
    e.Scanned? && e.detector == HOST_REPORT && e.outcome.Found? && Reports(e.outcome.finding, strength, now)
  }

  /** The one step that records the report delivers it as an event. */
  lemma RecordingDelivers(s: Process, a: Label, h: Hid)
    requires Inv(s) && Enabled(s, a) && CallKeeps(s, h) && !(h in s.ops && Recorded(s.ops[h]))
    requires h in Apply(s, a).ops && Apply(s, a).ops[h].kind.ReportOp? && Recorded(Apply(s, a).ops[h])
    ensures h in s.ops && s.ops[h].kind == Apply(s, a).ops[h].kind && s.ops[h].sid == Apply(s, a).ops[h].sid
    ensures var op := s.ops[h]; var e := EventOf(s, a, op.sid);
      e.Some? && IsReport(e.value, op.kind.strength, op.kind.now)
  {
    hide Inv, ApplySection, SectionEnabled, ApplyClear, ApplyMark;
    if !Involves(a, h) {
      CallStays(s, a, h);
    } else if a.InSection? {
      SectionOfACall(s, a.sid, h, a.step);
      SectionRecords(s, a.sid, h, a.step);
    }
  }

  lemma SectionRecords(s: Process, sid: Sid, h: Hid, step: SectionStep)
    requires SectionEnabled(s, sid, AtOp(h), step) && CallKeeps(s, h) && !Recorded(s.ops[h])
    requires var s' := ApplySection(s, sid, AtOp(h), step);
      h in s'.ops && s'.ops[h].kind.ReportOp? && Recorded(s'.ops[h])
    ensures var op, op' := s.ops[h], ApplySection(s, sid, AtOp(h), step).ops[h];
      op.kind == op'.kind && op.sid == op'.sid
    ensures var op := s.ops[h]; var e := EventOf(s, InSection(sid, AtOp(h), step), sid);
      e.Some? && op.kind.ReportOp? && IsReport(e.value, op.kind.strength, op.kind.now)
  {
    hide RecordOutcome, Selected;
  }

  /** One of the events is that report. */
  ghost predicate Received(events: seq<Event>, strength: Strength, now: nat) {
    exists k :: 0 <= k < |events| && IsReport(events[k], strength, now)
  }

  lemma ReceivedByThen(before: seq<Event>, e: Option<Event>, strength: Strength, now: nat)
    requires Received(before, strength, now) || (e.Some? && IsReport(e.value, strength, now))
    ensures Received(if e.Some? then before + [e.value] else before, strength, now)
  {
    var events := if e.Some? then before + [e.value] else before;
    if Received(before, strength, now) {
      var k :| 0 <= k < |before| && IsReport(before[k], strength, now);
      assert events[k] == before[k];
    } else {
      assert events[|before|] == e.value;
    }
  }

  lemma {:induction false} RunDelivers(states: seq<Process>, labels: seq<Label>, i: nat, h: Hid)
    requires IsRun(states, labels) && KeepsHandles(states, labels) && i < |states|
    requires h in states[i].ops && states[i].ops[h].kind.ReportOp? && Recorded(states[i].ops[h])
    ensures var op := states[i].ops[h];
      Received(EventsOf(states, labels, i, op.sid), op.kind.strength, op.kind.now)
    decreases i
  {
    hide Inv, Enabled, Apply, IsReport, EventOf, Recorded, Keeps, Received;
    if i > 0 {
      var s, a, op := states[i - 1], labels[i - 1], states[i].ops[h];
      RunInv(states, labels, i - 1);
      assert StepOf(states, labels, i - 1);
      RunKeepsCall(states, labels, i - 1, h);
      if h in s.ops && Recorded(s.ops[h]) {
        StepKeepsKind(s, a, h);
        RunDelivers(states, labels, i - 1, h);
      } else {
        RecordingDelivers(s, a, h);
      }
      ReceivedByThen(EventsOf(states, labels, i - 1, op.sid), EventOf(s, a, op.sid), op.kind.strength, op.kind.now);
    }
  }

  lemma StepKeepsKind(s: Process, a: Label, h: Hid)
    requires Enabled(s, a) && h in s.ops && h in Apply(s, a).ops
    ensures Apply(s, a).ops[h].kind == s.ops[h].kind && Apply(s, a).ops[h].sid == s.ops[h].sid
  {
    hide ApplySection, SectionEnabled, ApplyClear, ApplyMark;
    if !Involves(a, h) {
      CallStays(s, a, h);
    } else if a.InSection? {
      SectionKeepsKind(s, a.sid, h, a.step);
    }
  }

  lemma SectionKeepsKind(s: Process, sid: Sid, h: Hid, step: SectionStep)
    requires SectionEnabled(s, sid, AtOp(h), step)
    ensures var s' := ApplySection(s, sid, AtOp(h), step);
      h in s'.ops && s'.ops[h].kind == s.ops[h].kind && s'.ops[h].sid == s.ops[h].sid
  {
    hide StayStep;
  }

  /** An event that reached a runtime is in the history of its slot. */
  lemma {:induction false} ReportIsInHistory(events: seq<Event>, k: nat)
    requires k < |events| && events[k].Scanned? && events[k].detector == HOST_REPORT
    ensures |INVENTORY| == 12 && INVENTORY[11] == HOST_REPORT && events[k].outcome in History(INVENTORY, 11, events)
  {
    hide HealthOutcome;
    var n := |events| - 1;
    assert Receives(INVENTORY, 11, HOST_REPORT.id);
    if k < n { ReportIsInHistory(events[..n], k); }
  }

  /**
   A report that returned reached the slot of the host detector as a finding of that strength and time, and its category
   is latched when the policy denies it.
   */
  lemma ReportIsReceived(states: seq<Process>, labels: seq<Label>, i: nat, h: Hid, strength: Strength, now: nat)
    requires IsRun(states, labels) && KeepsHandles(states, labels) && i < |states|
    requires h in states[i].ops && states[i].ops[h].kind == ReportOp(strength, now)
    requires states[i].ops[h].pc == Finished(Done)
    ensures states[i].ops[h].sid in states[i].starts && |INVENTORY| == 12
    ensures exists o :: o in History(INVENTORY, 11, EventsOf(states, labels, i, states[i].ops[h].sid))
                        && o.Found? && Reports(o.finding, strength, now)
    ensures var st := states[i].starts[states[i].ops[h].sid];
      st.policy.uiAbuse.action == Deny && AtLeast(strength, st.policy.uiAbuse.threshold) ==>
        UiAbuse in st.engine.latched && (Live(st.pc) ==> UiAbuse in states[i].words.latched)
  {
    hide Inv, Keeps, EventsOf, History, Reports;
    var sid := states[i].ops[h].sid;
    DoneIsLatched(states, labels, i, h);
    DoneMeans(states[i].ops[h], states[i].starts[sid]);
    if Live(states[i].starts[sid].pc) { LatchInWord(states, labels, i, sid); }
    RunDelivers(states, labels, i, h);
    var events := EventsOf(states, labels, i, sid);
    var k :| 0 <= k < |events| && IsReport(events[k], strength, now);
    ReportIsInHistory(events, k);
  }

  /** What a report adds to the queue: its own finding with the action of its category, exactly at the threshold. */
  lemma ReportIsQueued(states: seq<Process>, labels: seq<Label>, i: nat, h: Hid, strength: Strength, now: nat)
    requires IsRun(states, labels) && KeepsHandles(states, labels) && i < |labels| && labels[i] == Enqueue(h)
    requires h in states[i].ops && states[i].ops[h].kind == ReportOp(strength, now)
    ensures states[i].ops[h].sid in states[i].starts
    ensures var call := ProtocolQueue.CallOf(states[i], labels[i], states[i].ops[h].sid);
      && call.Some? && call.value.Adds?
      && Queues(call.value.qualified, strength, now, states[i].starts[states[i].ops[h].sid].policy)
  {
    hide Inv, Apply;
    assert StepOf(states, labels, i);
    RunKeepsCall(states, labels, i, h);
  }
}
