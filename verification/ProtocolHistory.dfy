/**
 What a runtime retains, over every run of the process: its engine is the replay of the events that reached it, so the
 process word at a free lock is exactly the justified categories.
 */
module ProtocolHistory {
  import opened Types
  import opened Engine
  import opened Detect
  import opened Protocol
  import opened ProtocolInvariant
  import opened ProtocolSteps
  import opened ProtocolTheorems

  /** The event that one step of the process delivers to a runtime, if it delivers one. */
  function EventOf(s: Process, a: Label, sid: Sid): Option<Event> {
    if !a.InSection? || a.sid != sid || SectionAt(s, sid, a.locus).None? then None
    else
      var sec := SectionAt(s, sid, a.locus).value;
      match a.step
      case RunInstr =>
        if sec.todo == [] then None
        else (match sec.todo[0]
              case Rec(d, o) => Some(Scanned(d, o))
              case HealthRec(f, now) => Some(CallbackPanicked(f, now))
              case _ => None)
      case Insert => if sec.phase.Latching? && sec.phase.host then Some(HostDenied(sec.phase.category)) else None
      case _ => None
  }

  /** The events that reached a runtime before some index of the run. */
  function EventsOf(states: seq<Process>, labels: seq<Label>, i: nat, sid: Sid): seq<Event>
    requires i <= |labels| <= |states|
  {
    if i == 0 then []
    else
      var before := EventsOf(states, labels, i - 1, sid);
      var e := EventOf(states[i - 1], labels[i - 1], sid);
      if e.Some? then before + [e.value] else before
  }

  /** The category of a recorded denial on its way into the engine. */
  function Owed(st: Start, ops: map<Hid, Op>, sid: Sid): set<Category> {
    if st.lock.None? then {}
    else
      var sec := SectionOf(st, ops, sid, st.lock.value);
      if sec.Some? then OwedBy(sec.value) else {}
  }

  function OwedBy(sec: Section): set<Category> {
    if (sec.phase.Hooking? || sec.phase.Latching?) && !sec.phase.host then {sec.phase.category} else {}
  }

  /** The engine with that category. */
  function Settling(s: Process, sid: Sid): EngineState
    requires sid in s.starts
  {
    var st := s.starts[sid];
    st.engine.(latched := st.engine.latched + Owed(st, s.ops, sid))
  }

  function After(engine: EngineState, policy: Policy, e: Option<Event>): EngineState {
    if e.Some? then ApplyEvent(engine, policy, e.value) else engine
  }

  // ----- one step

  /** Inside a section, a step that is no hook panic delivers its event. */
  lemma StayDelivers(st: Start, sec: Section, word: set<Category>, step: SectionStep, e: Option<Event>)
    requires step.RunInstr? ==> sec.phase.Ready? && sec.todo != []
    requires step.CallHook? ==> sec.phase.Hooking?
    requires step.Insert? ==> sec.phase.Latching?
    requires step.Acquire? ==> sec.phase.Wanting?
    requires !step.PanicHook? && !step.Release?
    requires e == match step
      case RunInstr =>
        (match sec.todo[0]
         case Rec(d, o) => Some(Scanned(d, o))
         case HealthRec(f, now) => Some(CallbackPanicked(f, now))
         case _ => None)
      case Insert => if sec.phase.host then Some(HostDenied(sec.phase.category)) else None
      case _ => None
    ensures var (engine, sec', _) := StayStep(st, sec, word, step);
      engine.(latched := engine.latched + OwedBy(sec'))
      == After(st.engine.(latched := st.engine.latched + OwedBy(sec)), st.policy, e)
  {
    var (engine, sec', _) := StayStep(st, sec, word, step);
    var before := st.engine.(latched := st.engine.latched + OwedBy(sec));
    if step.RunInstr? {
      assert before == st.engine;
      if sec.todo[0].Rec? { RecordKeepsLatch(st.engine, sec.todo[0].detector, sec.todo[0].outcome); }
    }
  }

  lemma RecordKeepsLatch(engine: EngineState, d: Detector, o: Outcome)
    ensures RecordOutcome(engine, d, o).latched == engine.latched
    ensures RecordOutcome(engine, d, o).hostLatched == engine.hostLatched
  {
  }

  lemma SectionDelivers(s: Process, sid: Sid, locus: Locus, step: SectionStep)
    requires Inv(s) && SectionEnabled(s, sid, locus, step) && !step.PanicHook?
    ensures sid in s.starts && sid in ApplySection(s, sid, locus, step).starts
    ensures Settling(ApplySection(s, sid, locus, step), sid)
         == After(Settling(s, sid), s.starts[sid].policy, EventOf(s, InSection(sid, locus, step), sid))
  {
    hide Inv, ApplySection, SectionEnabled, EventOf, Settling;
    if step.Release? { ReleaseDelivers(s, sid, locus); } else { StayStepDelivers(s, sid, locus, step); }
  }

  lemma ReleaseDelivers(s: Process, sid: Sid, locus: Locus)
    requires Inv(s) && SectionEnabled(s, sid, locus, Release)
    ensures sid in s.starts && sid in ApplySection(s, sid, locus, Release).starts
    ensures Settling(ApplySection(s, sid, locus, Release), sid) == Settling(s, sid)
    ensures EventOf(s, InSection(sid, locus, Release), sid) == None
  {
    hide Inv, SectionOk, OwnerInv, OpInv;
    SectionFacts(s, sid, locus);
  }

  lemma StayStepDelivers(s: Process, sid: Sid, locus: Locus, step: SectionStep)
    requires Inv(s) && SectionEnabled(s, sid, locus, step) && !step.PanicHook? && !step.Release?
    ensures sid in s.starts && sid in ApplySection(s, sid, locus, step).starts
    ensures Settling(ApplySection(s, sid, locus, step), sid)
         == After(Settling(s, sid), s.starts[sid].policy, EventOf(s, InSection(sid, locus, step), sid))
  {
    hide Inv, SectionOk, OwnerInv, OpInv, StayStep, After;
    SectionFacts(s, sid, locus);
    var st, sec := s.starts[sid], SectionAt(s, sid, locus).value;
    StayDelivers(st, sec, s.words.latched, step, EventOf(s, InSection(sid, locus, step), sid));
  }

  /** The engine, the lock and the section under the lock are the same. */
  predicate SameUnderLock(s: Process, s': Process, sid: Sid)
    requires sid in s.starts && sid in s'.starts
  {
    var st, st' := s.starts[sid], s'.starts[sid];
    && st'.engine == st.engine && st'.lock == st.lock
    && (st.lock.Some? ==> SectionOf(st', s'.ops, sid, st.lock.value) == SectionOf(st, s.ops, sid, st.lock.value))
  }

  lemma StartStepsKeep(s: Process, a: Label, sid: Sid)
    requires Inv(s) && Enabled(s, a) && sid in s.starts && Live(s.starts[sid].pc)
    requires a.NewStart? || a.Claim? || a.OpenWindow? || a.BeginRecord? || a.Spawn? || a.FailStart? || a.WorkerStopped?
      || a.Commit?
    ensures sid in Apply(s, a).starts && SameUnderLock(s, Apply(s, a), sid)
  {
    hide Inv;
    LockHolds(s, sid);
  }

  lemma ClearStepsKeep(s: Process, t: Sid, sid: Sid)
    requires Inv(s) && t in s.starts && ClearEnabled(s, t) && sid in s.starts && Live(s.starts[sid].pc)
    ensures sid in ApplyClear(s, t).starts && SameUnderLock(s, ApplyClear(s, t), sid)
  {
    hide Inv;
    LockHolds(s, sid);
  }

  lemma MarkStepsKeep(s: Process, t: Sid, sid: Sid)
    requires Inv(s) && t in s.starts && MarkEnabled(s, t) && sid in s.starts && Live(s.starts[sid].pc)
    ensures sid in ApplyMark(s, t).starts && SameUnderLock(s, ApplyMark(s, t), sid)
  {
    hide Inv;
    LockHolds(s, sid);
    match s.starts[t].worker
    case Dispatching(_, _) =>
    case MarkWant(_) =>
    case MarkWait(_) =>
    case MarkScan(_) =>
    case MarkDrop =>
  }

  lemma CallbackStepsKeep(s: Process, a: Label, sid: Sid)
    requires Inv(s) && Enabled(s, a) && sid in s.starts && Live(s.starts[sid].pc)
    requires a.Dispatch? || a.Leak? || a.LeaveCallback?
    ensures sid in Apply(s, a).starts && SameUnderLock(s, Apply(s, a), sid)
  {
    hide Inv;
    LockHolds(s, sid);
    match a
    case Dispatch(_) =>
    case Leak(_) =>
    case LeaveCallback(_, _, _) =>
  }

  lemma WorkerStepsKeep(s: Process, a: Label, sid: Sid)
    requires Inv(s) && Enabled(s, a) && sid in s.starts && Live(s.starts[sid].pc)
    requires a.SendReady? || a.TakePending? || a.BeginScan? || a.StopWorker?
    ensures sid in Apply(s, a).starts && SameUnderLock(s, Apply(s, a), sid)
  {
    hide Inv;
    LockHolds(s, sid);
    match a
    case SendReady(_) =>
    case TakePending(_) =>
    case BeginScan(_, _) =>
    case StopWorker(_) =>
  }

  lemma CallStepsKeep(s: Process, a: Label, sid: Sid)
    requires Inv(s) && Enabled(s, a) && sid in s.starts && Live(s.starts[sid].pc)
    requires a.BeginOp? || a.Enqueue? || a.Load? || a.WaitAcquire? || a.WaitCheck?
    ensures sid in Apply(s, a).starts && SameUnderLock(s, Apply(s, a), sid)
  {
    hide Inv;
    LockHolds(s, sid);
    match a
    case BeginOp(_, _, _, _) =>
    case Enqueue(_) =>
    case Load(_) =>
    case WaitAcquire(_) =>
    case WaitCheck(_, _) =>
  }

  lemma OtherSectionsKeep(s: Process, t: Sid, locus: Locus, step: SectionStep, sid: Sid)
    requires Inv(s) && SectionEnabled(s, t, locus, step) && sid in s.starts && t != sid
    ensures sid in ApplySection(s, t, locus, step).starts && SameUnderLock(s, ApplySection(s, t, locus, step), sid)
  {
    hide Inv, StayStep;
  }

  /** A held lock names a section that exists. */
  lemma LockHolds(s: Process, sid: Sid)
    requires Inv(s) && sid in s.starts
    ensures var st := s.starts[sid];
      && (st.lock.Some? ==> SectionOf(st, s.ops, sid, st.lock.value).Some?)
      && (st.pc.Recorded? ==> st.worker.NoWorker?)
  {
    assert StartInv(s, sid);
  }

  /** A step at another place leaves the engine, the lock and the section under the lock alone. */
  lemma OtherStepsKeep(s: Process, a: Label, sid: Sid)
    requires Inv(s) && Enabled(s, a) && sid in s.starts && Live(s.starts[sid].pc)
    requires !(a.InSection? && a.sid == sid)
    ensures sid in Apply(s, a).starts && Settling(Apply(s, a), sid) == Settling(s, sid)
  {
    hide Inv, ApplySection, ApplyClear, ApplyMark, SectionEnabled, ClearEnabled, MarkEnabled, Live;
    if a.InSection? {
      OtherSectionsKeep(s, a.sid, a.locus, a.step, sid);
    } else if a.Clear? {
      ClearStepsKeep(s, a.sid, sid);
    } else if a.Mark? {
      MarkStepsKeep(s, a.sid, sid);
    } else if a.BeginOp? || a.Enqueue? || a.Load? || a.WaitAcquire? || a.WaitCheck? {
      CallStepsKeep(s, a, sid);
    } else if a.Dispatch? || a.Leak? || a.LeaveCallback? {
      CallbackStepsKeep(s, a, sid);
    } else if a.SendReady? || a.TakePending? || a.BeginScan? || a.StopWorker? {
      WorkerStepsKeep(s, a, sid);
    } else {
      StartStepsKeep(s, a, sid);
    }
  }

  // ----- whole runs

  /** No event reaches a start before its engine exists. */
  lemma NoEventBefore(s: Process, a: Label, sid: Sid)
    requires Inv(s) && (sid in s.starts ==> !Live(s.starts[sid].pc))
    ensures EventOf(s, a, sid) == None
  {
    hide Inv;
    if a.InSection? && a.sid == sid && SectionAt(s, sid, a.locus).Some? { SectionFacts(s, sid, a.locus); }
  }

  /** A start that is live after a step was live before it, or the step built its engine. */
  lemma BecomesLive(s: Process, a: Label, sid: Sid)
    requires Inv(s) && Enabled(s, a) && sid in Apply(s, a).starts && Live(Apply(s, a).starts[sid].pc)
    ensures sid in s.starts
    ensures Live(s.starts[sid].pc) || (a.BeginRecord? && a.sid == sid)
  {
    hide Inv, Apply, Enabled, TouchedStart;
    if sid !in s.starts {
      NewStartIsIdle(s, a, sid);
    } else if TouchedStart(s, a) == Some(sid) {
      TouchedBecomesLive(s, a, sid);
    } else {
      OtherStartsStay(s, a, sid);
    }
  }

  lemma NewStartIsIdle(s: Process, a: Label, sid: Sid)
    requires Inv(s) && Enabled(s, a) && sid !in s.starts && sid in Apply(s, a).starts
    ensures Apply(s, a).starts[sid].pc.Idle?
  {
    hide Inv, ApplySection, SectionEnabled, ApplyMark, MarkEnabled, ApplyClear, ClearEnabled, Evolves;
    if a.InSection? {
      SectionEvolves(s, a.sid, a.locus, a.step);
    } else if a.Mark? {
      MarkKeepsPlace(s, a.sid);
    } else if a.Clear? {
      ClearIsNotLive(s, a.sid);
    }
  }

  lemma TouchedBecomesLive(s: Process, a: Label, sid: Sid)
    requires Inv(s) && Enabled(s, a) && TouchedStart(s, a) == Some(sid) && sid in s.starts && sid in Apply(s, a).starts
    requires Live(Apply(s, a).starts[sid].pc)
    ensures Live(s.starts[sid].pc) || (a.BeginRecord? && a.sid == sid)
  {
    hide Inv, ApplySection, SectionEnabled, ApplyMark, MarkEnabled, ApplyClear, ClearEnabled, Evolves;
    if a.InSection? {
      SectionLive(s, a.sid, a.locus, a.step);
    } else if a.Mark? {
      MarkKeepsPlace(s, a.sid);
    } else if a.Clear? {
      ClearIsNotLive(s, a.sid);
    }
  }

  lemma ClearIsNotLive(s: Process, sid: Sid)
    requires sid in s.starts && ClearEnabled(s, sid)
    ensures var s' := ApplyClear(s, sid); s'.starts.Keys == s.starts.Keys && !Live(s'.starts[sid].pc)
  {
  }

  lemma SectionLive(s: Process, sid: Sid, locus: Locus, step: SectionStep)
    requires Inv(s) && SectionEnabled(s, sid, locus, step)
    ensures sid in s.starts && Live(s.starts[sid].pc)
  {
    hide Inv;
    SectionFacts(s, sid, locus);
  }

  lemma MarkKeepsPlace(s: Process, sid: Sid)
    requires sid in s.starts && MarkEnabled(s, sid)
    ensures var s' := ApplyMark(s, sid);
      s'.starts.Keys == s.starts.Keys && forall t :: t in s.starts ==> s'.starts[t].pc == s.starts[t].pc
  {
  }

  /** The runtime retains exactly its events, and has none before its engine exists. */
  ghost predicate Retains(s: Process, sid: Sid, events: seq<Event>) {
    && (sid !in s.starts || Stage(s.starts[sid].pc) < 3 ==> events == [])
    && (sid in s.starts && Live(s.starts[sid].pc) ==>
          var all := Replay(INVENTORY, s.starts[sid].policy, events);
          && Inside(Settling(s, sid), all)
          && (!s.starts[sid].hookPanicked ==> Settling(s, sid) == all))
  }

  /** The same slots and host denials, and no category too many. */
  predicate Inside(a: EngineState, b: EngineState) {
    a.slots == b.slots && a.hostLatched == b.hostLatched && a.latched <= b.latched
  }

  lemma InsideAfter(a: EngineState, b: EngineState, policy: Policy, e: Option<Event>)
    requires Inside(a, b)
    ensures Inside(After(a, policy, e), After(b, policy, e))
  {
  }

  /** The step that builds the engine. */
  lemma FreshEngine(s: Process, a: Label, sid: Sid)
    requires Inv(s) && Enabled(s, a) && a.BeginRecord? && a.sid == sid
    ensures sid in Apply(s, a).starts && Settling(Apply(s, a), sid) == NewState(INVENTORY)
  {
    hide Inv;
    StartHolds(s, sid);
  }

  lemma LiveStage(pc: StartPc)
    ensures Live(pc) <==> 3 <= Stage(pc) <= 6
  {
  }

  /** Before the engine exists: nothing arrives, and the step that builds it leaves it empty. */
  lemma RetainsFromNothing(s: Process, a: Label, sid: Sid)
    requires Inv(s) && Enabled(s, a) && (sid !in s.starts || Stage(s.starts[sid].pc) < 3)
    ensures EventOf(s, a, sid) == None && Retains(Apply(s, a), sid, [])
  {
    hide Inv, Apply, Enabled, Settling, EventOf, Stage, Live;
    if sid in s.starts { LiveStage(s.starts[sid].pc); }
    NoEventBefore(s, a, sid);
    var s' := Apply(s, a);
    if sid in s'.starts && Live(s'.starts[sid].pc) {
      BecomesLive(s, a, sid);
      FreshEngine(s, a, sid);
    }
  }

  /** While the runtime lives, each step delivers its event. */
  lemma RetainsOnward(s: Process, a: Label, sid: Sid, events: seq<Event>)
    requires Inv(s) && Enabled(s, a) && sid in s.starts && Stage(s.starts[sid].pc) >= 3 && Retains(s, sid, events)
    ensures var e := EventOf(s, a, sid); Retains(Apply(s, a), sid, if e.Some? then events + [e.value] else events)
  {
    hide Inv, Apply, Enabled, Settling, EventOf, Stage, Live, ApplyEvent;
    var s', e := Apply(s, a), EventOf(s, a, sid);
    StepEvolves(s, a, sid);
    LiveStage(s.starts[sid].pc);
    LiveStage(s'.starts[sid].pc);
    if Live(s'.starts[sid].pc) {
      var policy := s.starts[sid].policy;
      InsideAfter(Settling(s, sid), Replay(INVENTORY, policy, events), policy, e);
      if e.Some? { assert (events + [e.value])[..|events|] == events; }
      if a.InSection? && a.sid == sid && a.step.PanicHook? {
        PanicDelivers(s, a, sid);
      } else {
        StepDelivers(s, a, sid);
      }
    }
  }

  /** A hook that unwinds delivers nothing, and drops the category that was on its way. */
  lemma PanicDelivers(s: Process, a: Label, sid: Sid)
    requires Inv(s) && Enabled(s, a) && a.InSection? && a.sid == sid && a.step.PanicHook?
    ensures sid in s.starts && sid in Apply(s, a).starts && Apply(s, a).starts[sid].hookPanicked
    ensures EventOf(s, a, sid) == None && Inside(Settling(Apply(s, a), sid), Settling(s, sid))
  {
    hide Inv;
  }

  lemma StepDelivers(s: Process, a: Label, sid: Sid)
    requires Inv(s) && Enabled(s, a) && sid in s.starts && Live(s.starts[sid].pc)
    requires sid in Apply(s, a).starts && !(a.InSection? && a.sid == sid && a.step.PanicHook?)
    ensures Settling(Apply(s, a), sid) == After(Settling(s, sid), s.starts[sid].policy, EventOf(s, a, sid))
  {
    hide Inv, Settling, ApplyEvent, SectionEnabled, ApplyClear, ApplyMark;
    if a.InSection? && a.sid == sid {
      SectionDelivers(s, sid, a.locus, a.step);
    } else {
      OtherStepsKeep(s, a, sid);
    }
  }

  lemma {:induction false} RunRetains(states: seq<Process>, labels: seq<Label>, i: nat, sid: Sid)
    requires IsRun(states, labels) && KeepsHandles(states, labels) && i < |states|
    ensures Retains(states[i], sid, EventsOf(states, labels, i, sid))
    decreases i
  {
    hide Inv, Apply, Enabled, Retains, EventOf;
    if i == 0 {
      NothingYet(sid);
    } else {
      var s, a := states[i - 1], labels[i - 1];
      RunInv(states, labels, i - 1);
      RunRetains(states, labels, i - 1, sid);
      assert StepOf(states, labels, i - 1);
      var events := EventsOf(states, labels, i - 1, sid);
      if sid in s.starts && Stage(s.starts[sid].pc) >= 3 {
        RetainsOnward(s, a, sid, events);
      } else {
        EmptyBefore(s, sid, events);
        RetainsFromNothing(s, a, sid);
      }
    }
  }

  lemma NothingYet(sid: Sid)
    ensures Retains(INIT, sid, [])
  {
  }

  lemma EmptyBefore(s: Process, sid: Sid, events: seq<Event>)
    requires Retains(s, sid, events) && !(sid in s.starts && Stage(s.starts[sid].pc) >= 3)
    ensures events == []
  {
  }

  /**
   At every index of every run, the engine of a live runtime without a hook panic is the replay of the events that
   reached it, but for the category of one denial on its way from the word into the engine.
   */
  lemma EngineIsReplay(states: seq<Process>, labels: seq<Label>, i: nat, sid: Sid)
    requires IsRun(states, labels) && KeepsHandles(states, labels) && i < |states| && sid in states[i].starts
    requires Live(states[i].starts[sid].pc) && !states[i].starts[sid].hookPanicked
    ensures var st, events := states[i].starts[sid], EventsOf(states, labels, i, sid);
      && st.engine.(latched := st.engine.latched + Owed(st, states[i].ops, sid)) == Replay(INVENTORY, st.policy, events)
      && (st.lock.None? ==> st.engine == Replay(INVENTORY, st.policy, events))
  {
    RunRetains(states, labels, i, sid);
  }

  /** So the process word at a free lock holds exactly the categories that some event of the runtime justifies. */
  lemma WordIsJustified(states: seq<Process>, labels: seq<Label>, i: nat, sid: Sid, c: Category)
    requires IsRun(states, labels) && KeepsHandles(states, labels) && i < |states| && sid in states[i].starts
    requires Live(states[i].starts[sid].pc) && !states[i].starts[sid].hookPanicked && states[i].starts[sid].lock.None?
    ensures var st, events := states[i].starts[sid], EventsOf(states, labels, i, sid);
      c in states[i].words.latched <==> exists k :: 0 <= k < |events| && Justifies(INVENTORY, st.policy, events[k], c)
  {
    hide EventsOf, Replay, Justifies;
    EngineIsReplay(states, labels, i, sid);
    LatchesNeverDisagree(states, labels, i, sid);
    LatchedExactly(INVENTORY, states[i].starts[sid].policy, EventsOf(states, labels, i, sid), c);
  }

  /**
   Each retained slot is the summary of the outcomes that reached its detector, and no category is latched without an
   event that justifies it, at every index and even after a hook panic.
   */
  lemma SlotsAreSummaries(states: seq<Process>, labels: seq<Label>, i: nat, sid: Sid, k: nat, c: Category)
    requires IsRun(states, labels) && KeepsHandles(states, labels) && i < |states| && sid in states[i].starts
    requires Live(states[i].starts[sid].pc) && k < |INVENTORY|
    ensures var st, events := states[i].starts[sid], EventsOf(states, labels, i, sid);
      && k < |st.engine.slots| && Summarises(st.engine.slots[k], INVENTORY[k], History(INVENTORY, k, events))
      && (c in st.engine.latched ==> exists j :: 0 <= j < |events| && Justifies(INVENTORY, st.policy, events[j], c))
  {
    hide EventsOf, Replay, History, Summarises, Justifies;
    RunRetains(states, labels, i, sid);
    var policy, events := states[i].starts[sid].policy, EventsOf(states, labels, i, sid);
    SlotIsTheSummaryOfItsHistory(INVENTORY, policy, events, k);
    LatchedExactly(INVENTORY, policy, events, c);
  }
}
