/**
 The report queue of a runtime over every run of the process: it is the bounded queue of `Pending` under the calls that
 the run makes on it, and what a worker takes out of it is dispatched in order and at most once.
 */
module ProtocolQueue {
  import opened Types
  import opened Protocol
  import Pending

  /** The call on a runtime's queue that one step makes, if it makes one. */
  function CallOf(s: Process, a: Label, sid: Sid): Option<Pending.Call> {
    match a
    case Enqueue(h) =>
      if h in s.ops && s.ops[h].sid == sid && s.ops[h].pc.Queueing?
      then Some(Pending.Adds(s.ops[h].pc.qualified)) else None
    case TakePending(t) => if t == sid then Some(Pending.Takes) else None
    case _ => None
  }

  /** The calls on a runtime's queue before some index of the run. */
  function CallsOf(states: seq<Process>, labels: seq<Label>, i: nat, sid: Sid): seq<Pending.Call>
    requires i <= |labels| <= |states|
  {
    if i == 0 then []
    else
      var before := CallsOf(states, labels, i - 1, sid);
      var call := CallOf(states[i - 1], labels[i - 1], sid);
      if call.Some? then before + [call.value] else before
  }

  /** The report of the queue that one step dispatches, if it dispatches one. */
  function DispatchOf(s: Process, a: Label, sid: Sid): Option<Qualified> {
    if a == Dispatch(sid) && sid in s.starts then
      var w := s.starts[sid].worker;
      if w.Dispatching? && w.next.ThenScan? && w.todo != [] then Some(w.todo[0]) else None
    else None
  }

  /** The reports of the queue that the worker dispatched before some index, in order. */
  function Dispatched(states: seq<Process>, labels: seq<Label>, i: nat, sid: Sid): seq<Qualified>
    requires i <= |labels| <= |states|
  {
    if i == 0 then []
    else
      var before := Dispatched(states, labels, i - 1, sid);
      var d := DispatchOf(states[i - 1], labels[i - 1], sid);
      if d.Some? then before + [d.value] else before
  }

  /** The reports that the worker took out of the queue and has still to dispatch. */
  function Left(w: WorkerPc): seq<Qualified> {
    match w
    case Dispatching(todo, ThenScan) => todo
    case InCallback(_, todo, ThenScan) => todo
    case HealthSection(_, todo, ThenScan) => todo
    case _ => []
  }

  // ----- one step

  /** A step that makes no call on the queue and dispatches none of its reports. */
  predicate Quiet(st: Start, st': Start) {
    st'.queue == st.queue && (!st'.worker.Dead? ==> !st.worker.Dead? && Left(st'.worker) == Left(st.worker))
  }

  /** What a step does to the queue of a runtime, and to what its worker took out of it. */
  predicate Serves(st: Start, st': Start, call: Option<Pending.Call>, dispatched: Option<Qualified>) {
    match call
    case Some(Adds(q)) => st'.queue == Pending.Keep(st.queue + q) && st'.worker == st.worker && dispatched.None?
    case Some(Takes) =>
      && st'.queue == [] && Left(st'.worker) == st.queue && Left(st.worker) == [] && dispatched.None?
      && !st.worker.Dead? && !st'.worker.Dead?
    case None =>
      if dispatched.Some? then
        && st'.queue == st.queue && Left(st.worker) == [dispatched.value] + Left(st'.worker)
        && !st.worker.Dead? && !st'.worker.Dead?
      else Quiet(st, st')
  }

  /** A worker exists only once its start has spawned it. */
  predicate Spawned(st: Start) {
    st.pc.Idle? || st.pc.Lost? || st.pc.Claimed? || st.pc.Opened? || st.pc.Initial? || st.pc.Recorded? ==>
      st.worker.NoWorker?
  }

  lemma SectionIsQuiet(s: Process, t: Sid, locus: Locus, step: SectionStep, sid: Sid)
    requires SectionEnabled(s, t, locus, step) && sid in s.starts && Spawned(s.starts[sid])
    ensures sid in ApplySection(s, t, locus, step).starts
    ensures Quiet(s.starts[sid], ApplySection(s, t, locus, step).starts[sid])
    ensures Spawned(ApplySection(s, t, locus, step).starts[sid])
  {
    hide StayStep;
  }

  lemma ClearIsQuiet(s: Process, t: Sid, sid: Sid)
    requires t in s.starts && ClearEnabled(s, t) && sid in s.starts && Spawned(s.starts[sid])
    ensures sid in ApplyClear(s, t).starts && Quiet(s.starts[sid], ApplyClear(s, t).starts[sid])
    ensures Spawned(ApplyClear(s, t).starts[sid])
  {
  }

  lemma MarkIsQuiet(s: Process, t: Sid, sid: Sid)
    requires t in s.starts && MarkEnabled(s, t) && sid in s.starts && Spawned(s.starts[sid])
    ensures sid in ApplyMark(s, t).starts && Quiet(s.starts[sid], ApplyMark(s, t).starts[sid])
    ensures Spawned(ApplyMark(s, t).starts[sid])
  {
  }

  lemma StepServes(s: Process, a: Label, sid: Sid)
    requires Enabled(s, a) && sid in s.starts && Spawned(s.starts[sid])
    ensures sid in Apply(s, a).starts && Spawned(Apply(s, a).starts[sid])
    ensures Serves(s.starts[sid], Apply(s, a).starts[sid], CallOf(s, a, sid), DispatchOf(s, a, sid))
  {
    hide ApplySection, SectionEnabled, ApplyClear, ClearEnabled, ApplyMark, MarkEnabled, Spawned, Serves;
    if a.InSection? {
      SectionIsQuiet(s, a.sid, a.locus, a.step, sid);
      QuietServes(s.starts[sid], Apply(s, a).starts[sid]);
    } else if a.Clear? {
      ClearIsQuiet(s, a.sid, sid);
      QuietServes(s.starts[sid], Apply(s, a).starts[sid]);
    } else if a.Mark? {
      MarkIsQuiet(s, a.sid, sid);
      QuietServes(s.starts[sid], Apply(s, a).starts[sid]);
    } else if a.BeginOp? || a.Enqueue? || a.Load? || a.WaitAcquire? || a.WaitCheck? {
      CallServes(s, a, sid);
    } else if a.Dispatch? || a.Leak? || a.LeaveCallback? || a.SendReady? || a.TakePending? || a.BeginScan?
              || a.StopWorker? {
      WorkerServes(s, a, sid);
    } else {
      StartServes(s, a, sid);
    }
  }

  lemma QuietServes(st: Start, st': Start)
    requires Quiet(st, st')
    ensures Serves(st, st', None, None)
  {
  }

  lemma CallServes(s: Process, a: Label, sid: Sid)
    requires Enabled(s, a) && sid in s.starts && Spawned(s.starts[sid])
    requires a.BeginOp? || a.Enqueue? || a.Load? || a.WaitAcquire? || a.WaitCheck?
    ensures sid in Apply(s, a).starts && Spawned(Apply(s, a).starts[sid])
    ensures Serves(s.starts[sid], Apply(s, a).starts[sid], CallOf(s, a, sid), DispatchOf(s, a, sid))
  {
  }

  lemma WorkerServes(s: Process, a: Label, sid: Sid)
    requires Enabled(s, a) && sid in s.starts && Spawned(s.starts[sid])
    requires
      || a.Dispatch? || a.Leak? || a.LeaveCallback? || a.SendReady? || a.TakePending? || a.BeginScan? || a.StopWorker?
    ensures sid in Apply(s, a).starts && Spawned(Apply(s, a).starts[sid])
    ensures Serves(s.starts[sid], Apply(s, a).starts[sid], CallOf(s, a, sid), DispatchOf(s, a, sid))
  {
    if a == Dispatch(sid) {
      var w := s.starts[sid].worker;
      assert w.todo == [w.todo[0]] + w.todo[1..];
    }
  }

  lemma StartServes(s: Process, a: Label, sid: Sid)
    requires Enabled(s, a) && sid in s.starts && Spawned(s.starts[sid])
    requires
      || a.NewStart? || a.Claim? || a.OpenWindow? || a.BeginRecord? || a.Spawn? || a.FailStart? || a.WorkerStopped?
      || a.Commit?
    ensures sid in Apply(s, a).starts && Spawned(Apply(s, a).starts[sid])
    ensures Serves(s.starts[sid], Apply(s, a).starts[sid], CallOf(s, a, sid), DispatchOf(s, a, sid))
  {
  }

  /** A step that creates a start leaves it an empty queue and no worker. */
  lemma NewStartIsEmpty(s: Process, a: Label, sid: Sid)
    requires Enabled(s, a) && sid !in s.starts
    ensures CallOf(s, a, sid) == None && DispatchOf(s, a, sid) == None
    ensures sid in Apply(s, a).starts ==>
      Apply(s, a).starts[sid].queue == [] && Apply(s, a).starts[sid].worker == NoWorker
  {
    hide ApplySection, ApplyClear, ApplyMark, ClearEnabled, MarkEnabled;
    if a.InSection? {
      SectionKeepsStarts(s, a.sid, a.locus, a.step);
    } else if a.Clear? {
      ClearKeepsStarts(s, a.sid);
    } else if a.Mark? {
      MarkKeepsStarts(s, a.sid);
    }
  }

  lemma SectionKeepsStarts(s: Process, t: Sid, locus: Locus, step: SectionStep)
    requires SectionEnabled(s, t, locus, step)
    ensures ApplySection(s, t, locus, step).starts.Keys == s.starts.Keys
  {
    hide StayStep;
  }

  lemma ClearKeepsStarts(s: Process, t: Sid)
    requires t in s.starts && ClearEnabled(s, t)
    ensures ApplyClear(s, t).starts.Keys == s.starts.Keys
  {
  }

  lemma MarkKeepsStarts(s: Process, t: Sid)
    requires t in s.starts && MarkEnabled(s, t)
    ensures ApplyMark(s, t).starts.Keys == s.starts.Keys
  {
  }

  // ----- whole runs

  /** The queue and the worker are those of the calls and of the dispatches so far. */
  ghost predicate Queues(s: Process, sid: Sid, calls: seq<Pending.Call>, dispatched: seq<Qualified>) {
    if sid !in s.starts then calls == [] && dispatched == []
    else
      && Spawned(s.starts[sid])
      && s.starts[sid].queue == Pending.Run(calls).0
      && dispatched <= Pending.Run(calls).1
      && (!s.starts[sid].worker.Dead? ==> dispatched + Left(s.starts[sid].worker) == Pending.Run(calls).1)
  }

  lemma QueuesOnward(st: Start, st': Start, calls: seq<Pending.Call>, dispatched: seq<Qualified>,
                     call: Option<Pending.Call>, d: Option<Qualified>)
    requires Serves(st, st', call, d)
    requires st.queue == Pending.Run(calls).0 && dispatched <= Pending.Run(calls).1
    requires !st.worker.Dead? ==> dispatched + Left(st.worker) == Pending.Run(calls).1
    ensures var calls' := if call.Some? then calls + [call.value] else calls;
      var dispatched' := if d.Some? then dispatched + [d.value] else dispatched;
      && st'.queue == Pending.Run(calls').0 && dispatched' <= Pending.Run(calls').1
      && (!st'.worker.Dead? ==> dispatched' + Left(st'.worker) == Pending.Run(calls').1)
  {
    hide Left;
    if call.Some? { assert (calls + [call.value])[..|calls|] == calls; }
    if call.Some? && call.value.Takes? { assert dispatched + [] == dispatched; }
    if d.Some? { assert dispatched + ([d.value] + Left(st'.worker)) == dispatched + [d.value] + Left(st'.worker); }
  }

  lemma {:induction false} RunQueues(states: seq<Process>, labels: seq<Label>, i: nat, sid: Sid)
    requires IsRun(states, labels) && i < |states|
    ensures Queues(states[i], sid, CallsOf(states, labels, i, sid), Dispatched(states, labels, i, sid))
    decreases i
  {
    hide Enabled, Apply, CallOf, DispatchOf;
    if i > 0 {
      var s, a := states[i - 1], labels[i - 1];
      RunQueues(states, labels, i - 1, sid);
      assert StepOf(states, labels, i - 1);
      var calls, dispatched := CallsOf(states, labels, i - 1, sid), Dispatched(states, labels, i - 1, sid);
      if sid in s.starts {
        StepServes(s, a, sid);
        QueuesOnward(s.starts[sid], states[i].starts[sid], calls, dispatched, CallOf(s, a, sid), DispatchOf(s, a, sid));
      } else {
        NewStartIsEmpty(s, a, sid);
      }
    }
  }

  /**
   At every index of every run, the queue of a runtime is the first sixteen of what its calls added since its worker
   last took it.
   */
  lemma QueueIsAPrefix(states: seq<Process>, labels: seq<Label>, i: nat, sid: Sid)
    requires IsRun(states, labels) && i < |states| && sid in states[i].starts
    ensures states[i].starts[sid].queue == Pending.Keep(Pending.SinceTake(CallsOf(states, labels, i, sid)))
  {
    RunQueues(states, labels, i, sid);
    Pending.QueueKeepsThePrefixOfEachRound(CallsOf(states, labels, i, sid));
  }

  /**
   What the worker dispatched of the queue is a prefix of the kept reports of each round, in order: no report goes out
   twice, and unless the worker died the rest of them is what it has still to dispatch.
   */
  lemma DispatchedOnce(states: seq<Process>, labels: seq<Label>, i: nat, sid: Sid)
    requires IsRun(states, labels) && i < |states| && sid in states[i].starts
    ensures var kept := Pending.KeptRounds(CallsOf(states, labels, i, sid));
      var dispatched := Dispatched(states, labels, i, sid);
      && dispatched <= kept
      && (!states[i].starts[sid].worker.Dead? ==> dispatched + Left(states[i].starts[sid].worker) == kept)
  {
    RunQueues(states, labels, i, sid);
    Pending.QueueKeepsThePrefixOfEachRound(CallsOf(states, labels, i, sid));
  }

  /** And while no round passes sixteen, everything that was added is dispatched, about to be, or still queued. */
  lemma NothingIsLost(states: seq<Process>, labels: seq<Label>, i: nat, sid: Sid)
    requires IsRun(states, labels) && i < |states| && sid in states[i].starts
    requires Pending.NoOverflow(CallsOf(states, labels, i, sid)) && !states[i].starts[sid].worker.Dead?
    ensures var st := states[i].starts[sid];
      Dispatched(states, labels, i, sid) + Left(st.worker) + st.queue == Pending.Added(CallsOf(states, labels, i, sid))
  {
    RunQueues(states, labels, i, sid);
    Pending.NothingIsLostWithoutOverflow(CallsOf(states, labels, i, sid));
  }
}
