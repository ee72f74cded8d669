/**
 The process-wide protocol, one atomic step at a time: concurrent starts, the worker of each
 runtime, and the host calls on a handle. Each load, store, lock and unlock of a shared word is one
 step, steps are sequentially consistent, and the scheduler is free to choose any enabled step.

 A step is a label. `Enabled` says when it may run and `Apply` is its effect, so every choice that
 the environment makes (scan outcomes, panics, failures, timeouts) is an argument of a label.
 */
module Protocol {
  import opened Types
  import opened Engine
  import opened Detect
  import opened ProcessWords
  import Pending

  type Sid = nat   // one call of `start()`, and the runtime that it builds
  type Hid = nat   // one call on a handle

  // ----- what runs under the state lock of one runtime

  datatype Instr =
    | Rec(detector: Detector, outcome: Outcome)         // one pass of the `record` loop
    | HealthRec(finding: Finding, now: nat)             // the health finding of a callback panic
    | HostDeny(category: Category)                      // the body of `deny_with`
    | Copy                                              // the body of `snapshot`

  datatype Phase =
    | Wanting                                       // the lock is not held yet
    | Ready                                         // the lock is held, between two instructions
    | Hooking(category: Category, host: bool)       // about to call the latch hook
    | Latching(category: Category, host: bool)      // the hook returned, about to write the engine

  datatype Section = Section(todo: seq<Instr>, phase: Phase, qualified: seq<Qualified>, copied: set<Category>) {
    predicate Holds() { !phase.Wanting? }
  }

  function NewSection(todo: seq<Instr>): Section { Section(todo, Wanting, [], {}) }

  function Instrs(outcomes: seq<(Detector, Outcome)>): seq<Instr> {
    seq(|outcomes|, i requires 0 <= i < |outcomes| => Rec(outcomes[i].0, outcomes[i].1))
  }

  /** Who runs the section. */
  datatype Locus = AtStart | AtWorker | AtOp(h: Hid)

  // ----- a start, its runtime and its worker

  datatype StartPc =
    | Idle | Lost
    | Claimed                                // the slot is claimed, the configuration is checked
    | Opened                                 // the startup window is stored
    | Initial(sec: Section)                  // `record` of the initial scan
    | Recorded(qualified: seq<Qualified>)    // about to spawn the worker
    | Waiting                                // waits for the readiness report
    | Committed
    | ClearDeny | ClearWord | WantWait | ClearWait | ClearScan | ReleaseSlot | DropWait   // `abandon_start`
    | Failed

  datatype Then =
    | ThenReady
    | ThenScan
    | ThenMark(scan: seq<(Detector, Outcome)>)

  datatype WorkerPc =
    | NoWorker
    | Dispatching(todo: seq<Qualified>, next: Then)
    | InCallback(finding: Finding, todo: seq<Qualified>, next: Then)
    | HealthSection(sec: Section, todo: seq<Qualified>, next: Then)
    | Looping
    | ScanSection(sec: Section, scan: seq<(Detector, Outcome)>)
    | MarkWant(scan: seq<(Detector, Outcome)>)   // `mark_full_scan_complete`
    | MarkWait(scan: seq<(Detector, Outcome)>)
    | MarkScan(scan: seq<(Detector, Outcome)>)
    | MarkDrop
    | Dead

  datatype Start = Start(
    pc: StartPc,
    policy: Policy,
    optIn: bool,                 // `deny_until_first_full_scan`
    engine: EngineState,
    lock: Option<Locus>,         // the state lock
    queue: seq<Qualified>,       // the bounded report queue
    worker: WorkerPc,
    ready: bool,                 // the worker sent its readiness report
    leaked: bool,                // a callback kept a clone of the handle
    hookPanicked: bool,          // a latch hook of this runtime unwound
    scan: Option<seq<(Detector, Outcome)>>)   // history: the scan that first set the flag

  // ----- a host call on a handle

  datatype OpKind =
    | DenyOp(category: Category)
    | ReportOp(strength: Strength, now: nat)
    | SnapshotOp
    | EnsureOp
    | WaitOp

  datatype OpResult =
    | Done
    | Unwound
    | Snapped(latched: set<Category>)
    | Denied(categories: set<Category>)
    | Incomplete
    | Allowed(since: bool, checked: bool)   // history: the flag was set at the first load; the last load read it set
    | Waited(completed: bool)

  datatype OpPc =
    | Critical(sec: Section)
    | Queueing(qualified: seq<Qualified>)
    | LoadWord
    | LoadDeny(since: bool)
    | LoadScan(since: bool)
    | WaitLoad
    | WaitWant
    | WaitHold
    | Finished(result: OpResult)

  datatype Op = Op(sid: Sid, nested: bool, kind: OpKind, pc: OpPc)

  function ReportOutcome(strength: Strength, now: nat): Outcome {
    Found(Finding(HOST_REPORT, UiAbuse, strength, Observed("the host reported an observation"), now))
  }

  function FirstPc(kind: OpKind): OpPc {
    match kind
    case DenyOp(c) => Critical(NewSection([HostDeny(c)]))
    case ReportOp(strength, now) => Critical(NewSection([Rec(HOST_REPORT, ReportOutcome(strength, now))]))
    case SnapshotOp => Critical(NewSection([Copy]))
    case EnsureOp => LoadWord
    case WaitOp => WaitLoad
  }

  // ----- the process

  datatype WaitHolder = WFree | WStart(sid: Sid) | WWorker(sid: Sid) | WOp(h: Hid)

  datatype Process = Process(
    words: Words,
    waitLock: WaitHolder,        // the mutex of FULL_SCAN_WAIT
    starts: map<Sid, Start>,
    ops: map<Hid, Op>,
    owner: Option<Sid>)          // history: the start that claimed the slot

  const INIT := Process(CLEAN_WORDS, WFree, map[], map[], None)

  datatype SectionStep =
    | Acquire
    | RunInstr
    | CallHook
    | PanicHook(wrote: bool)   // the hook unwinds, with or without its write
    | Insert
    | Release

  datatype Label =
    | NewStart(sid: Sid, policy: Policy, optIn: bool)
    | Claim(sid: Sid)
    | OpenWindow(sid: Sid)
    | BeginRecord(sid: Sid, outcomes: seq<(Detector, Outcome)>)
    | Spawn(sid: Sid)
    | FailStart(sid: Sid)
    | WorkerStopped(sid: Sid)
    | Commit(sid: Sid)
    | Clear(sid: Sid)
    | InSection(sid: Sid, locus: Locus, step: SectionStep)
    | Dispatch(sid: Sid)
    | Leak(sid: Sid)
    | LeaveCallback(sid: Sid, panicked: bool, now: nat)
    | SendReady(sid: Sid)
    | TakePending(sid: Sid)
    | BeginScan(sid: Sid, outcomes: seq<(Detector, Outcome)>)
    | Mark(sid: Sid)
    | StopWorker(sid: Sid)
    | BeginOp(h: Hid, opSid: Sid, nested: bool, kind: OpKind)
    | Enqueue(h: Hid)
    | Load(h: Hid)
    | WaitAcquire(h: Hid)
    | WaitCheck(h: Hid, timeout: bool)

  // ----- reading and writing a section

  predicate HasSection(worker: WorkerPc) { worker.HealthSection? || worker.ScanSection? }

  /** The section that this place of the runtime runs, if it runs one. */
  function SectionOf(st: Start, ops: map<Hid, Op>, sid: Sid, locus: Locus): Option<Section> {
    match locus
    case AtStart => if st.pc.Initial? then Some(st.pc.sec) else None
    case AtWorker => if HasSection(st.worker) then Some(st.worker.sec) else None
    case AtOp(h) => if h in ops && ops[h].sid == sid && ops[h].pc.Critical? then Some(ops[h].pc.sec) else None
  }

  function SectionAt(s: Process, sid: Sid, locus: Locus): Option<Section> {
    if sid in s.starts then SectionOf(s.starts[sid], s.ops, sid, locus) else None
  }

  function PutStart(s: Process, sid: Sid, st: Start): Process { s.(starts := s.starts[sid := st]) }

  function PutOp(s: Process, h: Hid, op: Op): Process { s.(ops := s.ops[h := op]) }

  /** Writes the runtime and the section back, at the place that runs the section. */
  function PutSection(s: Process, sid: Sid, locus: Locus, st: Start, sec: Section): Process
    requires SectionAt(s, sid, locus).Some?
    requires st.pc == s.starts[sid].pc && st.worker == s.starts[sid].worker
  {
    match locus
    case AtStart => PutStart(s, sid, st.(pc := Initial(sec)))
    case AtWorker => PutStart(s, sid, st.(worker := st.worker.(sec := sec)))
    case AtOp(h) => PutOp(PutStart(s, sid, st), h, s.ops[h].(pc := Critical(sec)))
  }

  /** What the code after the critical section continues with. */
  function LeaveSection(s: Process, sid: Sid, locus: Locus, st: Start, sec: Section): Process
    requires SectionAt(s, sid, locus).Some?
    requires st.pc == s.starts[sid].pc && st.worker == s.starts[sid].worker
  {
    match locus
    case AtStart => PutStart(s, sid, st.(pc := Recorded(sec.qualified)))
    case AtWorker =>
      PutStart(s, sid, st.(worker :=
        if st.worker.ScanSection? then Dispatching(sec.qualified, ThenMark(st.worker.scan))
        else Dispatching(st.worker.todo, st.worker.next)))
    case AtOp(h) =>
      PutOp(PutStart(s, sid, st), h, s.ops[h].(pc :=
        match s.ops[h].kind
        case ReportOp(_, _) => Queueing(sec.qualified)
        case SnapshotOp => Finished(Snapped(sec.copied))
        case _ => Finished(Done)))
  }

  /** Where an unwind out of the critical section ends. */
  function Unwind(s: Process, sid: Sid, locus: Locus, st: Start): Process
    requires SectionAt(s, sid, locus).Some?
    requires st.pc == s.starts[sid].pc && st.worker == s.starts[sid].worker
  {
    match locus
    case AtStart => PutStart(s, sid, st.(pc := ClearDeny))
    case AtWorker => PutStart(s, sid, st.(worker := Dead))
    case AtOp(h) => PutOp(PutStart(s, sid, st), h, s.ops[h].(pc := Finished(Unwound)))
  }

  predicate SectionEnabled(s: Process, sid: Sid, locus: Locus, step: SectionStep) {
    var sec := SectionAt(s, sid, locus);
    && sec.Some?
    && match step
       case Acquire => sec.value.phase.Wanting? && s.starts[sid].lock.None?
       case RunInstr => sec.value.phase.Ready? && sec.value.todo != []
       case CallHook => sec.value.phase.Hooking?
       case PanicHook(_) => sec.value.phase.Hooking?
       case Insert => sec.value.phase.Latching?
       case Release => sec.value.phase.Ready? && sec.value.todo == []
  }

  /** The engine and the section after the next instruction. */
  function RunOne(st: Start, sec: Section): (EngineState, Section)
    requires sec.todo != []
  {
    var rest := sec.(todo := sec.todo[1..]);
    match sec.todo[0]
    case Rec(d, o) =>
      var selected := Selected(st.engine, st.policy, d, o);
      (RecordOutcome(st.engine, d, o),
       rest.(qualified := if selected.Some? then sec.qualified + [(o.finding, selected.value)] else sec.qualified,
             phase := if selected == Some(Deny) then Hooking(o.finding.category, false) else Ready))
    case HealthRec(f, now) => (RecordOutcome(st.engine, f.detector, HealthOutcome(f, now)), rest)
    case HostDeny(c) => (st.engine, rest.(phase := Hooking(c, true)))
    case Copy => (st.engine, rest.(copied := st.engine.latched))
  }

  /** The engine, the section and the latch word after a step that stays inside the section. */
  function StayStep(st: Start, sec: Section, word: set<Category>, step: SectionStep):
    (EngineState, Section, set<Category>)
    requires step.RunInstr? ==> sec.todo != []
    requires step.CallHook? ==> sec.phase.Hooking?
    requires step.Insert? ==> sec.phase.Latching?
  {
    match step
    case RunInstr => var (engine, rest) := RunOne(st, sec); (engine, rest, word)
    case CallHook =>
      (st.engine, sec.(phase := Latching(sec.phase.category, sec.phase.host)), word + {sec.phase.category})
    case Insert =>
      (if sec.phase.host then LatchHost(st.engine, sec.phase.category)
       else LatchDetector(st.engine, sec.phase.category),
       sec.(phase := Ready), word)
    case _ => (st.engine, sec.(phase := Ready), word)
  }

  function ApplySection(s: Process, sid: Sid, locus: Locus, step: SectionStep): Process
    requires SectionEnabled(s, sid, locus, step)
  {
    var st := s.starts[sid];
    var sec := SectionAt(s, sid, locus).value;
    match step
    case PanicHook(wrote) =>
      Unwind(s, sid, locus, st.(lock := None, hookPanicked := true))
        .(words := s.words.(latched := if wrote then s.words.latched + {sec.phase.category} else s.words.latched))
    case Release => LeaveSection(s, sid, locus, st.(lock := None), sec)
    case _ =>
      var (engine, sec', word) := StayStep(st, sec, s.words.latched, step);
      var lock := if step.Acquire? then Some(locus) else st.lock;
      PutSection(s, sid, locus, st.(engine := engine, lock := lock), sec').(words := s.words.(latched := word))
  }

  // ----- the steps of the startup thread, after `abandon_start` begins

  predicate ClearEnabled(s: Process, sid: Sid)
    requires sid in s.starts
  {
    match s.starts[sid].pc
    case ClearDeny => true
    case ClearWord => true
    case WantWait => s.waitLock.WFree?
    case ClearWait => true
    case ClearScan => true
    case ReleaseSlot => true
    case DropWait => true
    case _ => false
  }

  function ApplyClear(s: Process, sid: Sid): Process
    requires sid in s.starts && ClearEnabled(s, sid)
  {
    var st := s.starts[sid];
    match st.pc
    case ClearDeny => PutStart(s, sid, st.(pc := ClearWord)).(words := s.words.(denyUntil := false))
    case ClearWord => PutStart(s, sid, st.(pc := WantWait)).(words := s.words.(latched := {}))
    case WantWait => PutStart(s, sid, st.(pc := ClearWait)).(waitLock := WStart(sid))
    case ClearWait => PutStart(s, sid, st.(pc := ClearScan)).(words := s.words.(waitDone := false))
    case ClearScan => PutStart(s, sid, st.(pc := ReleaseSlot)).(words := s.words.(scanDone := false))
    case ReleaseSlot => PutStart(s, sid, st.(pc := DropWait)).(words := s.words.(running := false), owner := None)
    case DropWait => PutStart(s, sid, st.(pc := Failed)).(waitLock := WFree)
  }

  /** What one of those steps does to its own place, to the words and to the wait mutex. */
  predicate ClearsTo(sid: Sid, pc: StartPc, w: Words, lock: WaitHolder, pc': StartPc, w': Words, lock': WaitHolder) {
    match pc
    case ClearDeny => pc' == ClearWord && w' == w.(denyUntil := false) && lock' == lock
    case ClearWord => pc' == WantWait && w' == w.(latched := {}) && lock' == lock
    case WantWait => pc' == ClearWait && w' == w && lock == WFree && lock' == WStart(sid)
    case ClearWait => pc' == ClearScan && w' == w.(waitDone := false) && lock' == lock
    case ClearScan => pc' == ReleaseSlot && w' == w.(scanDone := false) && lock' == lock
    case ReleaseSlot => pc' == DropWait && w' == w.(running := false) && lock' == lock
    case DropWait => pc' == Failed && w' == w && lock' == WFree
    case _ => false
  }

  // ----- the steps of the worker

  predicate MarkEnabled(s: Process, sid: Sid)
    requires sid in s.starts
  {
    match s.starts[sid].worker
    case Dispatching(todo, ThenMark(_)) => todo == []
    case MarkWant(_) => s.waitLock.WFree?
    case MarkWait(_) => true
    case MarkScan(_) => true
    case MarkDrop => true
    case _ => false
  }

  function ApplyMark(s: Process, sid: Sid): Process
    requires sid in s.starts && MarkEnabled(s, sid)
  {
    var st := s.starts[sid];
    match st.worker
    case Dispatching(_, next) => PutStart(s, sid, st.(worker := MarkWant(next.scan)))
    case MarkWant(scan) => PutStart(s, sid, st.(worker := MarkWait(scan))).(waitLock := WWorker(sid))
    case MarkWait(scan) => PutStart(s, sid, st.(worker := MarkScan(scan))).(words := s.words.(waitDone := true))
    case MarkScan(scan) =>
      PutStart(s, sid, st.(worker := MarkDrop, scan := if st.scan.Some? then st.scan else Some(scan)))
        .(words := s.words.(scanDone := true))
    case MarkDrop => PutStart(s, sid, st.(worker := Looping)).(waitLock := WFree)
  }

  /** A callback returns only after every call that it made on its handle returned. */
  ghost predicate NoNestedCall(s: Process, sid: Sid) {
    forall h :: h in s.ops && s.ops[h].sid == sid && s.ops[h].nested ==> s.ops[h].pc.Finished?
  }

  // ----- every step

  ghost predicate Enabled(s: Process, a: Label) {
    match a
    case NewStart(sid, _, _) => sid !in s.starts
    case Claim(sid) => sid in s.starts && s.starts[sid].pc.Idle?
    case OpenWindow(sid) => sid in s.starts && s.starts[sid].pc.Claimed?
    case BeginRecord(sid, outcomes) => sid in s.starts && s.starts[sid].pc.Opened? && AllReported(outcomes)
    case Spawn(sid) => sid in s.starts && s.starts[sid].pc.Recorded?
    case FailStart(sid) =>
      sid in s.starts && (s.starts[sid].pc.Claimed? || s.starts[sid].pc.Opened? || s.starts[sid].pc.Recorded?)
    case WorkerStopped(sid) =>
      sid in s.starts && s.starts[sid].pc.Waiting? && s.starts[sid].worker.Dead? && !s.starts[sid].ready
    case Commit(sid) => sid in s.starts && s.starts[sid].pc.Waiting? && s.starts[sid].ready
    case Clear(sid) => sid in s.starts && ClearEnabled(s, sid)
    case InSection(sid, locus, step) => SectionEnabled(s, sid, locus, step)
    case Dispatch(sid) =>
      && sid in s.starts && s.starts[sid].worker.Dispatching? && s.starts[sid].worker.todo != []
      && s.starts[sid].worker.todo[0].1 != Crash   // `Crash` aborts the process, so nothing follows it
    case Leak(sid) => sid in s.starts && s.starts[sid].worker.InCallback?
    case LeaveCallback(sid, _, _) => sid in s.starts && s.starts[sid].worker.InCallback? && NoNestedCall(s, sid)
    case SendReady(sid) => sid in s.starts && s.starts[sid].worker == Dispatching([], ThenReady)
    case TakePending(sid) => sid in s.starts && s.starts[sid].worker.Looping?
    case BeginScan(sid, outcomes) =>
      sid in s.starts && s.starts[sid].worker == Dispatching([], ThenScan) && CoversInventory(outcomes)
    case Mark(sid) => sid in s.starts && MarkEnabled(s, sid)
    case StopWorker(sid) =>
      && sid in s.starts
      && var w := s.starts[sid].worker; w.Dispatching? || w.Looping? || w.MarkWant?
    case BeginOp(h, sid, nested, _) =>
      && h !in s.ops && sid in s.starts
      && (if nested then s.starts[sid].worker.InCallback? else s.starts[sid].pc.Committed? || s.starts[sid].leaked)
    case Enqueue(h) => h in s.ops && s.ops[h].pc.Queueing? && s.ops[h].sid in s.starts
    case Load(h) =>
      h in s.ops && (s.ops[h].pc.LoadWord? || s.ops[h].pc.LoadDeny? || s.ops[h].pc.LoadScan? || s.ops[h].pc.WaitLoad?)
    case WaitAcquire(h) => h in s.ops && s.ops[h].pc.WaitWant? && s.waitLock.WFree?
    case WaitCheck(h, _) => h in s.ops && s.ops[h].pc.WaitHold?
  }

  function ApplyLoad(w: Words, pc: OpPc): OpPc
    requires pc.LoadWord? || pc.LoadDeny? || pc.LoadScan? || pc.WaitLoad?
  {
    match pc
    case LoadWord => if w.latched != {} then Finished(Denied(w.latched)) else LoadDeny(w.scanDone)
    case LoadDeny(since) => if w.denyUntil then LoadScan(since) else Finished(Allowed(since, false))
    case LoadScan(since) => Finished(if w.scanDone then Allowed(since, true) else Incomplete)
    case WaitLoad => if w.scanDone then Finished(Waited(true)) else WaitWant
  }

  ghost function Apply(s: Process, a: Label): Process
    requires Enabled(s, a)
  {
    match a
    case NewStart(sid, policy, optIn) =>
      PutStart(s, sid, Start(Idle, policy, optIn, NewState([]), None, [], NoWorker, false, false, false, None))
    case Claim(sid) =>
      var st := s.starts[sid];
      if s.words.running then PutStart(s, sid, st.(pc := Lost))
      else PutStart(s, sid, st.(pc := Claimed)).(words := s.words.(running := true), owner := Some(sid))
    case OpenWindow(sid) =>
      PutStart(s, sid, s.starts[sid].(pc := Opened)).(words := s.words.(denyUntil := s.starts[sid].optIn))
    case BeginRecord(sid, outcomes) =>
      PutStart(s, sid, s.starts[sid].(pc := Initial(NewSection(Instrs(outcomes))), engine := NewState(INVENTORY)))
    case Spawn(sid) =>
      PutStart(s, sid, s.starts[sid].(pc := Waiting, worker := Dispatching(s.starts[sid].pc.qualified, ThenReady)))
    case FailStart(sid) => PutStart(s, sid, s.starts[sid].(pc := ClearDeny))
    case WorkerStopped(sid) => PutStart(s, sid, s.starts[sid].(pc := ClearDeny))
    case Commit(sid) => PutStart(s, sid, s.starts[sid].(pc := Committed))
    case Clear(sid) => ApplyClear(s, sid)
    case InSection(sid, locus, step) => ApplySection(s, sid, locus, step)
    case Dispatch(sid) =>
      var w := s.starts[sid].worker;
      PutStart(s, sid, s.starts[sid].(worker :=
        if w.todo[0].1 == Callback then InCallback(w.todo[0].0, w.todo[1..], w.next)
        else Dispatching(w.todo[1..], w.next)))
    case Leak(sid) => PutStart(s, sid, s.starts[sid].(leaked := true))
    case LeaveCallback(sid, panicked, now) =>
      var w := s.starts[sid].worker;
      PutStart(s, sid, s.starts[sid].(worker :=
        if panicked
        then HealthSection(NewSection([HealthRec(w.finding, now)]), w.todo, w.next)
        else Dispatching(w.todo, w.next)))
    case SendReady(sid) => PutStart(s, sid, s.starts[sid].(worker := Looping, ready := true))
    case TakePending(sid) =>
      PutStart(s, sid, s.starts[sid].(worker := Dispatching(s.starts[sid].queue, ThenScan), queue := []))
    case BeginScan(sid, outcomes) =>
      PutStart(s, sid, s.starts[sid].(worker := ScanSection(NewSection(Instrs(outcomes)), outcomes)))
    case Mark(sid) => ApplyMark(s, sid)
    case StopWorker(sid) => PutStart(s, sid, s.starts[sid].(worker := Dead))
    case BeginOp(h, sid, nested, kind) => PutOp(s, h, Op(sid, nested, kind, FirstPc(kind)))
    case Enqueue(h) =>
      var op := s.ops[h];
      var st := s.starts[op.sid];
      PutOp(PutStart(s, op.sid, st.(queue := Pending.Keep(st.queue + op.pc.qualified))), h, op.(pc := Finished(Done)))
    case Load(h) => PutOp(s, h, s.ops[h].(pc := ApplyLoad(s.words, s.ops[h].pc)))
    case WaitAcquire(h) => PutOp(s, h, s.ops[h].(pc := WaitHold)).(waitLock := WOp(h))
    case WaitCheck(h, timeout) =>
      PutOp(s, h, s.ops[h].(pc :=
        if s.words.waitDone then Finished(Waited(true)) else if timeout then Finished(Waited(false)) else WaitWant))
        .(waitLock := WFree)
  }

  // ----- runs

  /** The hypothesis on the host: a start that fails let no handle escape from its callback. */
  predicate KeepsHandle(s: Process, a: Label) {
    a.WorkerStopped? && a.sid in s.starts ==> !s.starts[a.sid].leaked
  }

  /** The states that a sequence of steps passes through, from the fresh process. */
  ghost predicate IsRun(states: seq<Process>, labels: seq<Label>) {
    && |states| == |labels| + 1
    && states[0] == INIT
    && forall i :: 0 <= i < |labels| ==> StepOf(states, labels, i)
  }

  ghost predicate StepOf(states: seq<Process>, labels: seq<Label>, i: nat)
    requires i < |labels| < |states|
  {
    Enabled(states[i], labels[i]) && states[i + 1] == Apply(states[i], labels[i])
  }

  /** Where some steps lead, when each of them is enabled in its turn and nothing else runs in between. */
  ghost function Steps(s: Process, labels: seq<Label>): Option<Process>
    decreases |labels|
  {
    if labels == [] then Some(s)
    else if Enabled(s, labels[0]) then Steps(Apply(s, labels[0]), labels[1..])
    else None
  }

  ghost predicate KeepsHandles(states: seq<Process>, labels: seq<Label>) {
    |states| > |labels| && forall i :: 0 <= i < |labels| ==> KeepsHandle(states[i], labels[i])
  }
}
