/**
 Progress: in every reachable state the holder of a lock can go on by itself until it gives the lock back, nobody
 holds two locks, and a callback runs with none held.
 */
module ProtocolProgress {
  import opened Types
  import opened Engine
  import opened Protocol
  import opened ProtocolInvariant
  import opened ProtocolSteps
  import opened ProtocolTheorems
  import Facade

  // ----- who holds the wait mutex

  /** The wait mutex is free, or its holder is at a place that holds it. */
  ghost predicate WaitHeld(s: Process) {
    match s.waitLock
    case WFree => true
    case WStart(sid) => sid in s.starts && HoldsWait(s.starts[sid].pc)
    case WWorker(sid) => sid in s.starts && Marking(s.starts[sid].worker)
    case WOp(h) => h in s.ops && s.ops[h].pc.WaitHold?
  }

  lemma SectionKeepsWait(s: Process, sid: Sid, locus: Locus, step: SectionStep)
    requires WaitHeld(s) && SectionEnabled(s, sid, locus, step)
    ensures WaitHeld(ApplySection(s, sid, locus, step))
  {
    hide StayStep;
  }

  lemma ClearKeepsWait(s: Process, sid: Sid)
    requires Inv(s) && WaitHeld(s) && sid in s.starts && ClearEnabled(s, sid)
    ensures WaitHeld(ApplyClear(s, sid))
  {
    hide Inv, LocalInv;
    StartHolds(s, sid);
  }

  lemma MarkKeepsWait(s: Process, sid: Sid)
    requires Inv(s) && WaitHeld(s) && sid in s.starts && MarkEnabled(s, sid)
    ensures WaitHeld(ApplyMark(s, sid))
  {
    hide Inv, LocalInv;
    StartHolds(s, sid);
  }

  lemma CallKeepsWait(s: Process, a: Label)
    requires Inv(s) && WaitHeld(s) && Enabled(s, a)
    requires a.BeginOp? || a.Enqueue? || a.Load? || a.WaitAcquire? || a.WaitCheck?
    ensures WaitHeld(Apply(s, a))
  {
    hide Inv;
    if !a.BeginOp? { CallHolds(s, a.h); }
  }

  lemma WorkerKeepsWait(s: Process, a: Label)
    requires WaitHeld(s) && Enabled(s, a)
    requires
      || a.Dispatch? || a.Leak? || a.LeaveCallback? || a.SendReady? || a.TakePending? || a.BeginScan? || a.StopWorker?
    ensures WaitHeld(Apply(s, a))
  {
  }

  lemma StartKeepsWait(s: Process, a: Label)
    requires Inv(s) && WaitHeld(s) && Enabled(s, a)
    requires
      || a.NewStart? || a.Claim? || a.OpenWindow? || a.BeginRecord? || a.Spawn? || a.FailStart? || a.WorkerStopped?
      || a.Commit?
    ensures WaitHeld(Apply(s, a))
  {
    hide Inv, LockInv, CoverageInv;
    if !a.NewStart? { StartHolds(s, a.sid); }
  }

  lemma StepKeepsWait(s: Process, a: Label)
    requires Inv(s) && WaitHeld(s) && Enabled(s, a)
    ensures WaitHeld(Apply(s, a))
  {
    hide Inv, WaitHeld, ApplySection, SectionEnabled, ApplyClear, ClearEnabled, ApplyMark, MarkEnabled;
    if a.InSection? {
      SectionKeepsWait(s, a.sid, a.locus, a.step);
    } else if a.Clear? {
      ClearKeepsWait(s, a.sid);
    } else if a.Mark? {
      MarkKeepsWait(s, a.sid);
    } else if a.BeginOp? || a.Enqueue? || a.Load? || a.WaitAcquire? || a.WaitCheck? {
      CallKeepsWait(s, a);
    } else if a.Dispatch? || a.Leak? || a.LeaveCallback? || a.SendReady? || a.TakePending? || a.BeginScan?
              || a.StopWorker? {
      WorkerKeepsWait(s, a);
    } else {
      StartKeepsWait(s, a);
    }
  }

  lemma {:induction false} RunWaitHeld(states: seq<Process>, labels: seq<Label>, i: nat)
    requires IsRun(states, labels) && KeepsHandles(states, labels) && i < |states|
    ensures WaitHeld(states[i])
    decreases i
  {
    hide Inv, Apply, Enabled;
    if i > 0 {
      RunWaitHeld(states, labels, i - 1);
      RunInv(states, labels, i - 1);
      assert StepOf(states, labels, i - 1);
      StepKeepsWait(states[i - 1], labels[i - 1]);
    }
  }

  // ----- one lock each

  /**
   In every reachable state no start, worker or call holds both the state lock and the wait mutex, and a worker in a
   callback holds neither.
   */
  lemma OneLockEach(states: seq<Process>, labels: seq<Label>, i: nat, sid: Sid)
    requires IsRun(states, labels) && KeepsHandles(states, labels) && i < |states| && sid in states[i].starts
    ensures var s, st := states[i], states[i].starts[sid];
      && (st.lock == Some(AtStart) ==> s.waitLock != WStart(sid))
      && (st.lock == Some(AtWorker) ==> s.waitLock != WWorker(sid))
      && (st.lock.Some? && st.lock.value.AtOp? ==> s.waitLock != WOp(st.lock.value.h))
      && (st.worker.InCallback? ==> st.lock != Some(AtWorker) && s.waitLock != WWorker(sid))
  {
    hide Inv;
    RunInv(states, labels, i);
    RunWaitHeld(states, labels, i);
    StartHolds(states[i], sid);
  }

  // ----- the state lock is given back

  /** The step that the holder of the state lock takes next. */
  function NextStep(sec: Section): SectionStep
    requires sec.Holds()
  {
    match sec.phase
    case Ready => if sec.todo != [] then RunInstr else Release
    case Hooking(_, _) => CallHook
    case _ => Insert
  }

  /** A bound on the steps to the release. */
  function Work(sec: Section): (n: nat)
    ensures n >= 1
  {
    3 * |sec.todo| + match sec.phase case Hooking(_, _) => 3 case Latching(_, _) => 2 case _ => 1
  }

  lemma HolderSteps(s: Process, sid: Sid)
    requires Inv(s) && sid in s.starts && s.starts[sid].lock.Some?
    ensures var locus := s.starts[sid].lock.value;
      && SectionAt(s, sid, locus).Some? && SectionAt(s, sid, locus).value.Holds()
      && SectionEnabled(s, sid, locus, NextStep(SectionAt(s, sid, locus).value))
  {
    hide Inv, CoverageInv, WorkerInv;
    StartHolds(s, sid);
  }

  /** A step inside the section leaves it held with less work. */
  lemma StayWorks(st: Start, sec: Section, word: set<Category>)
    requires sec.Holds() && !NextStep(sec).Release?
    ensures var (_, sec', _) := StayStep(st, sec, word, NextStep(sec)); sec'.Holds() && Work(sec') < Work(sec)
  {
    hide RecordOutcome, Selected;
  }

  lemma StaySection(s: Process, sid: Sid, locus: Locus, step: SectionStep)
    requires SectionEnabled(s, sid, locus, step) && !step.Release? && !step.PanicHook? && !step.Acquire?
    ensures var (_, sec', _) := StayStep(s.starts[sid], SectionAt(s, sid, locus).value, s.words.latched, step);
      var s' := ApplySection(s, sid, locus, step);
      && sid in s'.starts && s'.starts[sid].lock == s.starts[sid].lock
      && SectionAt(s', sid, locus) == Some(sec')
      && (forall other :: other != locus ==> SectionAt(s', sid, other) == SectionAt(s, sid, other))
  {
    hide StayStep;
  }

  lemma ReleaseSection(s: Process, sid: Sid, locus: Locus)
    requires SectionEnabled(s, sid, locus, Release)
    ensures var s' := ApplySection(s, sid, locus, Release);
      && sid in s'.starts && s'.starts[sid].lock.None?
      && (forall other :: other != locus ==> SectionAt(s', sid, other) == SectionAt(s, sid, other))
  {
  }

  /** The next step releases the lock, or leaves less work under it; other sections stay. */
  lemma HolderMoves(s: Process, sid: Sid, locus: Locus, sec: Section)
    requires sid in s.starts && SectionAt(s, sid, locus) == Some(sec) && sec.Holds()
    requires SectionEnabled(s, sid, locus, NextStep(sec))
    ensures var s' := ApplySection(s, sid, locus, NextStep(sec));
      && sid in s'.starts
      && (forall other :: other != locus ==> SectionAt(s', sid, other) == SectionAt(s, sid, other))
      && (NextStep(sec).Release? ==> s'.starts[sid].lock.None?)
      && (!NextStep(sec).Release? ==>
            && s'.starts[sid].lock == s.starts[sid].lock
            && SectionAt(s', sid, locus).Some? && Work(SectionAt(s', sid, locus).value) < Work(sec))
  {
    hide ApplySection, StayStep, SectionEnabled, SectionAt, Work;
    if NextStep(sec).Release? {
      ReleaseSection(s, sid, locus);
    } else {
      StayWorks(s.starts[sid], sec, s.words.latched);
      StaySection(s, sid, locus, NextStep(sec));
    }
  }

  /** Every label is a step of this section, and no hook panics. */
  ghost predicate OwnSteps(path: seq<Label>, sid: Sid, locus: Locus) {
    forall i :: 0 <= i < |path| ==>
      path[i].InSection? && path[i].sid == sid && path[i].locus == locus && !path[i].step.PanicHook?
  }

  /** From any reachable state the holder alone gives the state lock back, within a bound that its section states. */
  lemma {:induction false} HolderReleases(s: Process, sid: Sid) returns (path: seq<Label>)
    requires Inv(s) && sid in s.starts && s.starts[sid].lock.Some?
    ensures var locus := s.starts[sid].lock.value;
      && SectionAt(s, sid, locus).Some? && |path| <= Work(SectionAt(s, sid, locus).value)
      && OwnSteps(path, sid, locus)
      && Steps(s, path).Some?
      && var t := Steps(s, path).value;
         && Inv(t) && sid in t.starts && t.starts[sid].lock.None?
         && forall other :: other != locus ==> SectionAt(t, sid, other) == SectionAt(s, sid, other)
    decreases if sid in s.starts && s.starts[sid].lock.Some? && SectionAt(s, sid, s.starts[sid].lock.value).Some?
              then Work(SectionAt(s, sid, s.starts[sid].lock.value).value) else 0
  {
    hide Inv, ApplySection, SectionEnabled, Work, SectionAt;
    HolderSteps(s, sid);
    var locus := s.starts[sid].lock.value;
    HolderMoves(s, sid, locus, SectionAt(s, sid, locus).value);
    var step := NextStep(SectionAt(s, sid, locus).value);
    var a := InSection(sid, locus, step);
    StepKeeps(s, a);
    var s' := Apply(s, a);
    if step.Release? {
      path := [a];
      assert path[1..] == [];
    } else {
      var rest := HolderReleases(s', sid);
      path := [a] + rest;
      assert path[1..] == rest;
    }
  }

  /** So a section that waits for the state lock of a live runtime gets its turn without any help. */
  lemma WaitingSectionGetsTheLock(states: seq<Process>, labels: seq<Label>, i: nat, sid: Sid, locus: Locus)
    returns (path: seq<Label>)
    requires IsRun(states, labels) && KeepsHandles(states, labels) && i < |states|
    requires SectionAt(states[i], sid, locus).Some? && SectionAt(states[i], sid, locus).value.phase.Wanting?
    ensures Steps(states[i], path).Some? && Enabled(Steps(states[i], path).value, InSection(sid, locus, Acquire))
  {
    hide Inv, Steps, Apply;
    var s := states[i];
    RunInv(states, labels, i);
    SectionFacts(s, sid, locus);
    if s.starts[sid].lock.Some? {
      path := HolderReleases(s, sid);
    } else {
      path := [];
      Facade.NoSteps(s);
    }
  }

  // ----- the wait mutex is given back

  /** The step that the holder of the wait mutex takes next. */
  function NextWaitStep(s: Process): Label
    requires !s.waitLock.WFree?
  {
    match s.waitLock
    case WStart(sid) => Clear(sid)
    case WWorker(sid) => Mark(sid)
    case WOp(h) => WaitCheck(h, true)
  }

  function WaitWork(s: Process): nat {
    match s.waitLock
    case WFree => 0
    case WStart(sid) =>
      if sid !in s.starts then 1
      else (match s.starts[sid].pc case ClearWait => 4 case ClearScan => 3 case ReleaseSlot => 2 case _ => 1)
    case WWorker(sid) =>
      if sid !in s.starts then 1
      else (match s.starts[sid].worker case MarkWait(_) => 3 case MarkScan(_) => 2 case _ => 1)
    case WOp(_) => 1
  }

  lemma WaitHolderMoves(s: Process)
    requires WaitHeld(s) && !s.waitLock.WFree?
    ensures Enabled(s, NextWaitStep(s)) && KeepsHandle(s, NextWaitStep(s))
    ensures WaitWork(Apply(s, NextWaitStep(s))) < WaitWork(s) <= 4
  {
  }

  /** From any reachable state the holder alone gives the wait mutex back, in at most four steps. */
  lemma {:induction false} WaitHolderReleases(s: Process) returns (path: seq<Label>)
    requires Inv(s) && WaitHeld(s)
    ensures |path| <= WaitWork(s) <= 4 && Steps(s, path).Some?
    ensures Inv(Steps(s, path).value) && Steps(s, path).value.waitLock.WFree?
    decreases WaitWork(s)
  {
    hide Inv, WaitHeld, WaitWork, Apply, Enabled, NextWaitStep;
    path := [];
    if !s.waitLock.WFree? {
      var a := NextWaitStep(s);
      WaitHolderMoves(s);
      StepKeeps(s, a);
      StepKeepsWait(s, a);
      var rest := WaitHolderReleases(Apply(s, a));
      path := [a] + rest;
      assert path[1..] == rest;
    } else {
      NoWork(s);
    }
  }

  lemma NoWork(s: Process)
    requires s.waitLock.WFree?
    ensures WaitWork(s) == 0
  {
  }

  /** In every reachable state the wait mutex comes free in at most four steps of its holder. */
  lemma WaitMutexComesFree(states: seq<Process>, labels: seq<Label>, i: nat) returns (path: seq<Label>)
    requires IsRun(states, labels) && KeepsHandles(states, labels) && i < |states|
    ensures |path| <= 4 && Steps(states[i], path).Some? && Steps(states[i], path).value.waitLock.WFree?
  {
    hide Inv, WaitHeld, WaitWork;
    RunInv(states, labels, i);
    RunWaitHeld(states, labels, i);
    path := WaitHolderReleases(states[i]);
  }
}
