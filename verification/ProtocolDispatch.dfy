/**
 What a worker dispatches, over every run of the process and read from the steps of the run alone: each round takes,
 in order, exactly the findings that the scan or the queue behind it gave, and it is over only when all are taken.
 */
module ProtocolDispatch {
  import opened Types
  import opened Engine
  import opened Detect
  import opened Protocol
  import opened ProtocolInvariant
  import opened ProtocolSteps
  import opened ProtocolTheorems
  import ProtocolRecord
  import ProtocolDeny

  /** One round of the worker: what it has to dispatch, and how many `Dispatch` steps it took so far. */
  datatype Round = Round(expected: seq<Qualified>, taken: nat)

  /** A recording or a take begins a round, and a dispatch is one more of it. */
  function RoundAfter(s: Process, a: Label, sid: Sid, r: Round): Round {
    if sid !in s.starts then r
    else
      var st := s.starts[sid];
      match a
      case BeginRecord(t, outcomes) =>
        if t == sid then Round(QualifiedOf(NewState(INVENTORY), st.policy, outcomes), 0) else r
      case BeginScan(t, outcomes) => if t == sid then Round(QualifiedOf(st.engine, st.policy, outcomes), 0) else r
      case TakePending(t) => if t == sid then Round(st.queue, 0) else r
      case Dispatch(t) => if t == sid then r.(taken := r.taken + 1) else r
      case _ => r
  }

  /** The round that a runtime is in at some index of the run. */
  function RoundOf(states: seq<Process>, labels: seq<Label>, i: nat, sid: Sid): Round
    requires i <= |labels| <= |states|
  {
    if i == 0 then Round([], 0)
    else RoundAfter(states[i - 1], labels[i - 1], sid, RoundOf(states, labels, i - 1, sid))
  }

  // ----- what the rest of a section qualifies

  /** What the instructions still to run will qualify. */
  function Still(policy: Policy, todo: seq<Instr>): seq<Qualified> {
    if todo == [] then []
    else
      var selected := if todo[0].Rec? then Selected(NewState(INVENTORY), policy, todo[0].detector, todo[0].outcome)
                      else None;
      (if selected.Some? then [(todo[0].outcome.finding, selected.value)] else []) + Still(policy, todo[1..])
  }

  lemma {:induction false} StillIsQualified(policy: Policy, outcomes: seq<(Detector, Outcome)>)
    ensures Still(policy, Instrs(outcomes)) == QualifiedOf(NewState(INVENTORY), policy, outcomes)
  {
    hide Selected, NewState;
    if outcomes != [] {
      var first, rest := outcomes[0], outcomes[1..];
      StillIsQualified(policy, rest);
      assert [first] + rest == outcomes && Instrs(outcomes)[1..] == Instrs(rest);
      ProtocolRecord.RecordAllFront(NewState(INVENTORY), policy, first, rest);
      assert [first][..0] == [];
      assert QualifiedOf(NewState(INVENTORY), policy, [first][..0]) == [];
    }
  }

  lemma InventoryQualifies(engine: EngineState, policy: Policy, outcomes: seq<(Detector, Outcome)>)
    requires InventorySlots(engine)
    ensures QualifiedOf(engine, policy, outcomes) == QualifiedOf(NewState(INVENTORY), policy, outcomes)
  {
    ProtocolRecord.QualifiedKeeps(engine, NewState(INVENTORY), policy, outcomes);
  }

  /** What the section has qualified so far and what it will. */
  function Qualifying(policy: Policy, sec: Section): seq<Qualified> { sec.qualified + Still(policy, sec.todo) }

  lemma StayQualifies(st: Start, sec: Section, word: set<Category>, step: SectionStep)
    requires InventorySlots(st.engine)
    requires step.RunInstr? ==> sec.todo != []
    requires step.CallHook? ==> sec.phase.Hooking?
    requires step.Insert? ==> sec.phase.Latching?
    ensures Qualifying(st.policy, StayStep(st, sec, word, step).1) == Qualifying(st.policy, sec)
  {
    hide RecordOutcome, FindSlot;
    if step.RunInstr? && sec.todo[0].Rec? {
      SameDetectorsFind(st.engine.slots, NewState(INVENTORY).slots, sec.todo[0].detector.id);
      var next := StayStep(st, sec, word, step).1;
      assert next.todo == sec.todo[1..];
    }
  }

  // ----- the worker against its round

  /** The worker has this much of the round still to do. */
  predicate Follows(worker: WorkerPc, policy: Policy, r: Round) {
    match worker
    case NoWorker | Dead => true
    case Dispatching(todo, _) => r.taken <= |r.expected| && todo == r.expected[r.taken..]
    case InCallback(f, todo, _) =>
      0 < r.taken <= |r.expected| && r.expected[r.taken - 1] == (f, Callback) && todo == r.expected[r.taken..]
    case HealthSection(_, todo, _) => r.taken <= |r.expected| && todo == r.expected[r.taken..]
    case ScanSection(sec, _) => r == Round(Qualifying(policy, sec), 0)
    case _ => r.taken == |r.expected|
  }

  predicate StartFollows(st: Start, r: Round) {
    && (st.pc.Initial? ==> r == Round(Qualifying(st.policy, st.pc.sec), 0))
    && (st.pc.Recorded? ==> r == Round(st.pc.qualified, 0))
    && Follows(st.worker, st.policy, r)
  }

  lemma SectionFollows(s: Process, sid: Sid, locus: Locus, step: SectionStep, r: Round)
    requires Inv(s) && SectionEnabled(s, sid, locus, step) && StartFollows(s.starts[sid], r)
    ensures sid in ApplySection(s, sid, locus, step).starts
    ensures StartFollows(ApplySection(s, sid, locus, step).starts[sid], r)
  {
    hide Inv, StayStep, Qualifying, OwnerWords, LinkInv, OpInv, InventorySlots, ScanProgress, Covered;
    SectionFacts(s, sid, locus);
    var sec := SectionAt(s, sid, locus).value;
    if step.Release? {
      DoneQualifies(s.starts[sid].policy, sec);
    } else if !step.PanicHook? && !locus.AtOp? {
      StayQualifies(s.starts[sid], sec, s.words.latched, step);
    }
  }

  lemma DoneQualifies(policy: Policy, sec: Section)
    requires sec.todo == []
    ensures Qualifying(policy, sec) == sec.qualified
  {
  }

  /** The worker has nothing left to dispatch. */
  predicate IsOver(worker: WorkerPc) {
    match worker
    case Dispatching(todo, _) => todo == []
    case Looping | MarkWant(_) | MarkWait(_) | MarkScan(_) | MarkDrop => true
    case _ => false
  }

  lemma MarkIsOver(s: Process, sid: Sid)
    requires sid in s.starts && MarkEnabled(s, sid)
    ensures IsOver(s.starts[sid].worker)
    ensures sid in ApplyMark(s, sid).starts
    ensures var st := ApplyMark(s, sid).starts[sid];
      && st.pc == s.starts[sid].pc && st.policy == s.starts[sid].policy
      && IsOver(st.worker) && !st.worker.Dispatching?
  {
  }

  lemma OverFollows(worker: WorkerPc, worker': WorkerPc, policy: Policy, r: Round)
    requires IsOver(worker) && IsOver(worker') && !worker'.Dispatching? && Follows(worker, policy, r)
    ensures Follows(worker', policy, r)
  {
  }

  lemma ClearFollows(s: Process, sid: Sid)
    requires sid in s.starts && ClearEnabled(s, sid)
    ensures sid in ApplyClear(s, sid).starts
    ensures var st := ApplyClear(s, sid).starts[sid];
      !st.pc.Initial? && !st.pc.Recorded? && st.policy == s.starts[sid].policy && st.worker == s.starts[sid].worker
  {
  }

  /** The steps that begin a recording. */
  lemma BeginFollows(s: Process, a: Label, sid: Sid, r: Round)
    requires Inv(s) && Enabled(s, a) && (a.BeginRecord? || a.BeginScan?) && a.sid == sid
      && StartFollows(s.starts[sid], r)
    ensures sid in Apply(s, a).starts && StartFollows(Apply(s, a).starts[sid], RoundAfter(s, a, sid, r))
  {
    hide Inv, Still, QualifiedOf, ScanProgress, Covered, LockInv, InventorySlots, NewState;
    StartHolds(s, sid);
    var st := s.starts[sid];
    StillIsQualified(st.policy, a.outcomes);
    if a.BeginScan? { InventoryQualifies(st.engine, st.policy, a.outcomes); }
    FreshQualifies(st.policy, a.outcomes);
  }

  lemma FreshQualifies(policy: Policy, outcomes: seq<(Detector, Outcome)>)
    ensures Qualifying(policy, NewSection(Instrs(outcomes))) == Still(policy, Instrs(outcomes))
  {
  }

  /** The other steps of the starting thread and of the worker. */
  lemma OwnFollows(s: Process, a: Label, sid: Sid, r: Round)
    requires Inv(s) && Enabled(s, a) && TouchedStart(s, a) == Some(sid) && sid in s.starts
    requires !a.BeginRecord? && !a.BeginScan? && !a.InSection? && !a.Mark? && !a.Clear?
      && StartFollows(s.starts[sid], r)
    ensures sid in Apply(s, a).starts && StartFollows(Apply(s, a).starts[sid], RoundAfter(s, a, sid, r))
  {
    hide Inv, Qualifying, CoverageInv, LockInv;
    StartHolds(s, sid);
    if a.Dispatch? {
      var w := s.starts[sid].worker;
      assert w.todo[0] == r.expected[r.taken] && w.todo[1..] == r.expected[r.taken + 1..];
    }
  }

  lemma StepFollows(s: Process, a: Label, sid: Sid, r: Round)
    requires Inv(s) && Enabled(s, a) && sid in s.starts && StartFollows(s.starts[sid], r)
    ensures sid in Apply(s, a).starts && StartFollows(Apply(s, a).starts[sid], RoundAfter(s, a, sid, r))
  {
    hide Inv, ApplySection, SectionEnabled, ApplyClear, ClearEnabled, ApplyMark, MarkEnabled, Qualifying, Follows;
    if TouchedStart(s, a) != Some(sid) {
      OtherStartsStay(s, a, sid);
    } else if a.InSection? {
      SectionFollows(s, sid, a.locus, a.step, r);
    } else if a.Mark? {
      MarkIsOver(s, sid);
      OverFollows(s.starts[sid].worker, Apply(s, a).starts[sid].worker, s.starts[sid].policy, r);
    } else if a.Clear? {
      ClearFollows(s, sid);
    } else if a.BeginRecord? || a.BeginScan? {
      BeginFollows(s, a, sid, r);
    } else {
      OwnFollows(s, a, sid, r);
    }
  }

  // ----- whole runs

  lemma {:induction false} RunFollows(states: seq<Process>, labels: seq<Label>, i: nat, sid: Sid)
    requires IsRun(states, labels) && KeepsHandles(states, labels) && i < |states|
    ensures sid in states[i].starts ==> StartFollows(states[i].starts[sid], RoundOf(states, labels, i, sid))
    decreases i
  {
    hide Inv, Enabled, Apply, StartFollows, RoundAfter;
    if i > 0 {
      var s, a := states[i - 1], labels[i - 1];
      RunFollows(states, labels, i - 1, sid);
      RunInv(states, labels, i - 1);
      assert StepOf(states, labels, i - 1);
      if sid in s.starts {
        StepFollows(s, a, sid, RoundOf(states, labels, i - 1, sid));
      } else if sid in states[i].starts {
        NewFollows(s, a, sid, RoundOf(states, labels, i, sid));
      }
    }
  }

  lemma NewFollows(s: Process, a: Label, sid: Sid, r: Round)
    requires Inv(s) && Enabled(s, a) && sid !in s.starts && sid in Apply(s, a).starts
    ensures StartFollows(Apply(s, a).starts[sid], r)
  {
    hide Inv, ApplySection, SectionEnabled, ApplyMark, ApplyClear;
    ProtocolDeny.NewHasNoWorker(s, a, sid);
  }

  /**
   Each `Dispatch` step takes the next pair of its round, in order: a callback pair puts the worker in the callback with
   that finding, any other pair invokes nothing, and a crash pair is never passed.
   */
  lemma DispatchesInOrder(states: seq<Process>, labels: seq<Label>, i: nat, sid: Sid)
    requires IsRun(states, labels) && KeepsHandles(states, labels) && i < |labels| && labels[i] == Dispatch(sid)
    ensures sid in states[i + 1].starts
    ensures var r, worker := RoundOf(states, labels, i, sid), states[i + 1].starts[sid].worker;
      && r.taken < |r.expected| && r.expected[r.taken].1 != Crash
      && (if r.expected[r.taken].1 == Callback
          then worker.InCallback? && worker.finding == r.expected[r.taken].0
          else worker.Dispatching?)
  {
    hide Inv, Qualifying;
    RunFollows(states, labels, i, sid);
    assert StepOf(states, labels, i);
  }

  /** A worker reports readiness, begins a scan, marks a full scan or takes the queue only when its round is over. */
  lemma RoundIsOver(states: seq<Process>, labels: seq<Label>, i: nat, sid: Sid)
    requires IsRun(states, labels) && KeepsHandles(states, labels) && i < |labels|
    requires labels[i] == SendReady(sid) || labels[i] == Mark(sid) || labels[i] == TakePending(sid)
      || (labels[i].BeginScan? && labels[i].sid == sid)
    ensures var r := RoundOf(states, labels, i, sid); r.taken == |r.expected|
  {
    hide Inv, Apply, Qualifying;
    RunFollows(states, labels, i, sid);
    assert StepOf(states, labels, i);
  }

  /** And while a callback runs, it is that of the pair taken last. */
  lemma CallbackIsExpected(states: seq<Process>, labels: seq<Label>, i: nat, sid: Sid)
    requires IsRun(states, labels) && KeepsHandles(states, labels) && i < |states|
    requires sid in states[i].starts && states[i].starts[sid].worker.InCallback?
    ensures var r := RoundOf(states, labels, i, sid);
      0 < r.taken <= |r.expected| && r.expected[r.taken - 1] == (states[i].starts[sid].worker.finding, Callback)
  {
    hide Inv, Qualifying;
    RunFollows(states, labels, i, sid);
  }
}
