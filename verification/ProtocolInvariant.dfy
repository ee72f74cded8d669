/** The inductive invariant of the process-wide protocol, and its preservation by every step. */
module ProtocolInvariant {
  import opened Types
  import opened Engine
  import opened Detect
  import opened ProcessWords
  import opened Protocol

  // ----- where a start stands

  predicate Owning(pc: StartPc) {
    !pc.Idle? && !pc.Lost? && !pc.DropWait? && !pc.Failed?
  }

  /** The runtime serves calls: its worker exists. */
  predicate Serving(pc: StartPc) { pc.Waiting? || pc.Committed? }

  /** The engine state of this start exists, and the start has not begun to abandon it. */
  predicate Live(pc: StartPc) { pc.Initial? || pc.Recorded? || Serving(pc) }

  predicate Clearing(pc: StartPc) {
    pc.ClearDeny? || pc.ClearWord? || pc.WantWait? || pc.ClearWait? || pc.ClearScan? || pc.ReleaseSlot?
  }

  predicate HoldsWait(pc: StartPc) { pc.ClearWait? || pc.ClearScan? || pc.ReleaseSlot? || pc.DropWait? }

  predicate Marking(w: WorkerPc) { w.MarkWait? || w.MarkScan? || w.MarkDrop? }

  predicate Working(w: WorkerPc) { !w.NoWorker? && !w.Dead? }

  /** This point of the worker is after its readiness report. */
  predicate PastReady(w: WorkerPc) {
    match w
    case NoWorker | Dead => false
    case Dispatching(_, next) => !next.ThenReady?
    case InCallback(_, _, next) => !next.ThenReady?
    case HealthSection(_, _, next) => !next.ThenReady?
    case _ => true
  }

  /** The recorded scan whose flag the worker is about to set. */
  function ScanToMark(w: WorkerPc): Option<seq<(Detector, Outcome)>> {
    match w
    case Dispatching(_, ThenMark(scan)) => Some(scan)
    case InCallback(_, _, ThenMark(scan)) => Some(scan)
    case HealthSection(_, _, ThenMark(scan)) => Some(scan)
    case MarkWant(scan) => Some(scan)
    case MarkWait(scan) => Some(scan)
    case MarkScan(scan) => Some(scan)
    case _ => None
  }

  // ----- what one recorded outcome leaves behind

  predicate InventorySlots(engine: EngineState) {
    |engine.slots| == |INVENTORY| && forall i :: 0 <= i < |INVENTORY| ==> engine.slots[i].detector == INVENTORY[i]
  }

  /** The slot of this detector, if it has one, has left `NotRun`. */
  predicate SlotRan(engine: EngineState, id: nat) {
    var k := FindSlot(engine.slots, id);
    k < |engine.slots| ==> !engine.slots[k].outcome.NotRun?
  }

  /** The outcome is in its slot, and its denial is latched or in the given set of pending categories. */
  predicate Settled(engine: EngineState, policy: Policy, entry: (Detector, Outcome), pending: set<Category>) {
    && SlotRan(engine, entry.0.id)
    && (SelectsDeny(engine, policy, entry.0, entry.1) ==> entry.1.finding.category in engine.latched + pending)
  }

  ghost predicate Covered(engine: EngineState, policy: Policy, scan: seq<(Detector, Outcome)>) {
    CoversInventory(scan) && forall i :: 0 <= i < |scan| ==> Settled(engine, policy, scan[i], {})
  }

  /** No outcome of the scan selects a denial. */
  predicate Harmless(engine: EngineState, policy: Policy, scan: seq<(Detector, Outcome)>) {
    forall i :: 0 <= i < |scan| ==> !SelectsDeny(engine, policy, scan[i].0, scan[i].1)
  }

  predicate InstrReported(i: Instr) {
    match i
    case Rec(_, o) => !o.NotRun?
    case HealthRec(_, _) => true
    case _ => true
  }

  predicate SectionOk(sec: Section) { forall i :: 0 <= i < |sec.todo| ==> InstrReported(sec.todo[i]) }

  function PendingOf(sec: Section): set<Category> {
    if sec.phase.Hooking? || sec.phase.Latching? then {sec.phase.category} else {}
  }

  /** The part of the scan before the rest of the section is recorded. */
  ghost predicate ScanProgress(engine: EngineState, policy: Policy, sec: Section, scan: seq<(Detector, Outcome)>) {
    && CoversInventory(scan)
    && |sec.todo| <= |scan|
    && sec.todo == Instrs(scan)[|scan| - |sec.todo|..]
    && forall i :: 0 <= i < |scan| - |sec.todo| ==> Settled(engine, policy, scan[i], PendingOf(sec))
  }

  // ----- the invariant of one start, of one call and of the words

  ghost predicate LockInv(st: Start, ops: map<Hid, Op>, sid: Sid) {
    && (st.lock == Some(AtStart) <==> st.pc.Initial? && st.pc.sec.Holds())
    && (st.lock == Some(AtWorker) <==> HasSection(st.worker) && st.worker.sec.Holds())
    && (st.lock.Some? ==>
          var sec := SectionOf(st, ops, sid, st.lock.value);
          sec.Some? && sec.value.Holds())
  }

  ghost predicate WorkerInv(st: Start) {
    && (Working(st.worker) ==> Serving(st.pc))
    && (!Serving(st.pc) && !Clearing(st.pc) && Owning(st.pc) ==> st.worker.NoWorker?)
    && (st.ready ==> Serving(st.pc))
    && (st.pc.Committed? ==> st.ready)
    && (PastReady(st.worker) ==> st.ready)
    && (HasSection(st.worker) ==> SectionOk(st.worker.sec))
    && (st.pc.Initial? ==> SectionOk(st.pc.sec))
    && (!Live(st.pc) ==> st.lock.None?)
    && (st.pc.Idle? || st.pc.Claimed? || st.pc.Opened? ==>
          st.worker.NoWorker? && !st.hookPanicked && st.scan.None?)
    && (st.leaked ==> Serving(st.pc))
  }

  ghost predicate CoverageInv(st: Start) {
    && (Live(st.pc) ==> InventorySlots(st.engine))
    && (st.worker.ScanSection? ==> ScanProgress(st.engine, st.policy, st.worker.sec, st.worker.scan))
    && (ScanToMark(st.worker).Some? ==> Covered(st.engine, st.policy, ScanToMark(st.worker).value))
    && (st.scan.Some? ==> st.ready && Covered(st.engine, st.policy, st.scan.value))
  }

  ghost predicate LocalInv(st: Start, ops: map<Hid, Op>, sid: Sid) {
    LockInv(st, ops, sid) && WorkerInv(st) && CoverageInv(st)
  }

  predicate LinkInv(owner: Option<Sid>, waitLock: WaitHolder, st: Start, sid: Sid) {
    && (Owning(st.pc) <==> owner == Some(sid))
    && (Marking(st.worker) ==> waitLock == WWorker(sid))
    && (HoldsWait(st.pc) ==> waitLock == WStart(sid))
  }

  ghost predicate FirstScanHarmless(st: Start) {
    st.scan.Some? && Harmless(st.engine, st.policy, st.scan.value)
  }

  ghost predicate OpInv(waitLock: WaitHolder, st: Start, op: Op, h: Hid) {
    && (!op.pc.Finished? ==>
          Serving(st.pc) && (if op.nested then st.worker.InCallback? else st.pc.Committed? || st.leaked))
    && (op.pc.Critical? ==> SectionOk(op.pc.sec))
    && (op.pc.Critical? && op.pc.sec.Holds() ==> st.lock == Some(AtOp(h)))
    && (op.pc.WaitHold? ==> waitLock == WOp(h))
    && (op.pc.LoadDeny? && op.pc.since ==> FirstScanHarmless(st))
    && (op.pc.LoadScan? && op.pc.since ==> FirstScanHarmless(st))
    && (op.pc.Finished? && op.pc.result.Allowed? ==>
          (op.pc.result.since ==> FirstScanHarmless(st)) && (st.optIn ==> op.pc.result.checked))
  }

  /** The category that is in the word and not yet in the engine. */
  function InFlight(st: Start, ops: map<Hid, Op>, sid: Sid): set<Category> {
    if st.lock.None? then {}
    else
      var sec := SectionOf(st, ops, sid, st.lock.value);
      if sec.Some? && sec.value.phase.Latching? then {sec.value.phase.category} else {}
  }

  /** The engine latch never leads the word, and without a hook panic it lags by the category in flight. */
  ghost predicate LatchInv(word: set<Category>, st: Start, ops: map<Hid, Op>, sid: Sid) {
    && st.engine.latched <= word
    && InFlight(st, ops, sid) <= word
    && (!st.hookPanicked ==> word == st.engine.latched + InFlight(st, ops, sid))
  }

  /** What the words hold while this start owns the slot. */
  ghost predicate OwnerWords(w: Words, st: Start, ops: map<Hid, Op>, sid: Sid) {
    && (st.pc.Claimed? || st.pc.Opened? ==> w.latched == {} && !w.scanDone && !w.waitDone)
    && (st.pc.Claimed? ==> !w.denyUntil)
    && (st.pc.Opened? || Live(st.pc) ==> w.denyUntil == st.optIn)
    && (Live(st.pc) ==>
          && LatchInv(w.latched, st, ops, sid)
          && (w.scanDone <==> st.scan.Some?)
          && (w.waitDone != w.scanDone ==> st.worker.MarkScan?)
          && (st.worker.MarkScan? ==> w.waitDone))
    && (Clearing(st.pc) ==> !w.scanDone && !w.waitDone)
    && (Clearing(st.pc) && !st.pc.ClearDeny? ==> !w.denyUntil)
    && (Clearing(st.pc) && !st.pc.ClearDeny? && !st.pc.ClearWord? ==> w.latched == {})
  }

  ghost predicate WordInv(s: Process) {
    && (s.words.running <==> s.owner.Some?)
    && (s.owner.None? ==> s.words == CLEAN_WORDS)
    && (s.owner.Some? ==>
          s.owner.value in s.starts && OwnerWords(s.words, s.starts[s.owner.value], s.ops, s.owner.value))
  }

  ghost predicate StartInv(s: Process, sid: Sid)
    requires sid in s.starts
  {
    LocalInv(s.starts[sid], s.ops, sid) && LinkInv(s.owner, s.waitLock, s.starts[sid], sid)
  }

  ghost predicate CallInv(s: Process, h: Hid)
    requires h in s.ops
  {
    s.ops[h].sid in s.starts && OpInv(s.waitLock, s.starts[s.ops[h].sid], s.ops[h], h)
  }

  ghost predicate Inv(s: Process) {
    && WordInv(s)
    && (forall sid :: sid in s.starts ==> StartInv(s, sid))
    && (forall h :: h in s.ops ==> CallInv(s, h))
  }

  lemma InitInv()
    ensures Inv(INIT)
  {
  }

  lemma StartHolds(s: Process, sid: Sid)
    requires Inv(s) && sid in s.starts
    ensures StartInv(s, sid)
  {
  }

  lemma CallHolds(s: Process, h: Hid)
    requires Inv(s) && h in s.ops
    ensures CallInv(s, h)
  {
  }

  // ----- a step touches one start, and at most one call of its runtime

  ghost predicate Local(s: Process, s': Process, sid: Sid, self: Option<Hid>) {
    && s'.starts.Keys == s.starts.Keys + {sid}
    && (forall t :: t in s.starts && t != sid ==> s'.starts[t] == s.starts[t])
    && s'.ops.Keys == s.ops.Keys + (if self.Some? then {self.value} else {})
    && (forall h :: h in s.ops && self != Some(h) ==> s'.ops[h] == s.ops[h])
    && (self.Some? ==> s'.ops[self.value].sid == sid && (self.value in s.ops ==> s.ops[self.value].sid == sid))
    && (s'.owner == s.owner || ((s.owner.None? || s.owner == Some(sid)) && (s'.owner.None? || s'.owner == Some(sid))))
    && (s'.waitLock == s.waitLock || s.waitLock.WFree? || s.waitLock == WStart(sid) || s.waitLock == WWorker(sid)
        || (self.Some? && s.waitLock == WOp(self.value)))
  }

  /** No other call on the runtime can tell these two values of its start apart. */
  ghost predicate SameForCalls(st: Start, st': Start, self: Option<Hid>) {
    && st'.optIn == st.optIn
    && (FirstScanHarmless(st) ==> FirstScanHarmless(st'))
    && (Serving(st.pc) ==> Serving(st'.pc))
    && (st.pc.Committed? ==> st'.pc.Committed?)
    && (st.leaked ==> st'.leaked)
    && (st.worker.InCallback? ==> st'.worker.InCallback?)
    && (st'.lock == st.lock || st.lock.None? || !st.lock.value.AtOp? || self == Some(st.lock.value.h))
  }

  lemma OtherStartsKeep(s: Process, s': Process, sid: Sid, self: Option<Hid>)
    requires Local(s, s', sid, self)
    requires forall t :: t in s.starts ==> StartInv(s, t)
    ensures forall t :: t in s'.starts && t != sid ==> StartInv(s', t)
  {
    hide StartInv;
    forall t | t in s'.starts && t != sid ensures StartInv(s', t) {
      OtherStartKeeps(s, s', sid, self, t);
    }
  }

  lemma OtherStartKeeps(s: Process, s': Process, sid: Sid, self: Option<Hid>, t: Sid)
    requires Local(s, s', sid, self) && t in s.starts && t != sid && StartInv(s, t)
    ensures t in s'.starts && StartInv(s', t)
  {
    hide CoverageInv, WorkerInv, LockInv;
    OtherLockKeeps(s, s', sid, self, t);
  }

  /** A section of another runtime is where it was. */
  lemma OtherLockKeeps(s: Process, s': Process, sid: Sid, self: Option<Hid>, t: Sid)
    requires Local(s, s', sid, self) && t in s.starts && t != sid && LockInv(s.starts[t], s.ops, t)
    ensures t in s'.starts && LockInv(s'.starts[t], s'.ops, t)
  {
  }

  lemma OtherCallsKeep(s: Process, s': Process, sid: Sid, self: Option<Hid>)
    requires Local(s, s', sid, self)
    requires forall h :: h in s.ops ==> CallInv(s, h)
    requires sid in s.starts ==> SameForCalls(s.starts[sid], s'.starts[sid], self)
    ensures forall h :: h in s'.ops && self != Some(h) ==> CallInv(s', h)
  {
    forall h | h in s'.ops && self != Some(h) ensures CallInv(s', h) {
      assert CallInv(s, h);
    }
  }

  lemma LocalStepKeeps(s: Process, s': Process, sid: Sid, self: Option<Hid>)
    requires Inv(s) && Local(s, s', sid, self)
    requires sid in s.starts ==> SameForCalls(s.starts[sid], s'.starts[sid], self)
    requires StartInv(s', sid) && WordInv(s')
    requires self.Some? ==> CallInv(s', self.value)
    ensures Inv(s')
  {
    OtherStartsKeep(s, s', sid, self);
    OtherCallsKeep(s, s', sid, self);
  }

  // ----- steps of the starting thread, on the values that they change

  /** Everything the invariant says about one start that owns the slot. */
  ghost predicate OwnerInv(w: Words, owner: Option<Sid>, waitLock: WaitHolder, st: Start, ops: map<Hid, Op>, sid: Sid) {
    && owner == Some(sid)
    && LocalInv(st, ops, sid)
    && LinkInv(owner, waitLock, st, sid)
    && OwnerWords(w, st, ops, sid)
  }

  lemma OwnerStepKeeps(s: Process, s': Process, sid: Sid, self: Option<Hid>)
    requires Inv(s) && Local(s, s', sid, self) && sid in s.starts
    requires SameForCalls(s.starts[sid], s'.starts[sid], self)
    requires OwnerInv(s'.words, s'.owner, s'.waitLock, s'.starts[sid], s'.ops, sid) && s'.words.running
    requires self.Some? ==> OpInv(s'.waitLock, s'.starts[sid], s'.ops[self.value], self.value)
    ensures Inv(s')
  {
    LocalStepKeeps(s, s', sid, self);
  }

  lemma StepForwardValue(w: Words, owner: Option<Sid>, waitLock: WaitHolder, st: Start, ops: map<Hid, Op>, sid: Sid,
                         w': Words, st': Start)
    requires OwnerInv(w, owner, waitLock, st, ops, sid)
    requires
      || (st.pc.Claimed? && st' == st.(pc := Opened) && w' == w.(denyUntil := st.optIn))
      || (st.pc.Opened? && st'.pc.Initial? && !st'.pc.sec.Holds() && SectionOk(st'.pc.sec) && w' == w
          && st' == st.(pc := st'.pc, engine := NewState(INVENTORY)))
    ensures OwnerInv(w', owner, waitLock, st', ops, sid)
    ensures SameForCalls(st, st', None)
  {
  }

  lemma SpawnValue(w: Words, owner: Option<Sid>, waitLock: WaitHolder, st: Start, ops: map<Hid, Op>, sid: Sid,
                   st': Start)
    requires OwnerInv(w, owner, waitLock, st, ops, sid)
    requires st.pc.Recorded? && st' == st.(pc := Waiting, worker := Dispatching(st.pc.qualified, ThenReady))
    ensures OwnerInv(w, owner, waitLock, st', ops, sid)
    ensures SameForCalls(st, st', None)
  {
    hide InventorySlots, ScanProgress, Covered, SectionOk, Harmless;
  }

  lemma CommitValue(w: Words, owner: Option<Sid>, waitLock: WaitHolder, st: Start, ops: map<Hid, Op>, sid: Sid,
                    st': Start)
    requires OwnerInv(w, owner, waitLock, st, ops, sid)
    requires st.pc.Waiting? && st.ready && st' == st.(pc := Committed)
    ensures OwnerInv(w, owner, waitLock, st', ops, sid)
    ensures SameForCalls(st, st', None)
  {
    hide InventorySlots, ScanProgress, Covered, SectionOk, Harmless;
  }

  lemma FailValue(w: Words, owner: Option<Sid>, waitLock: WaitHolder, st: Start, ops: map<Hid, Op>, sid: Sid)
    requires OwnerInv(w, owner, waitLock, st, ops, sid) && st.lock.None?
    requires st.pc.Claimed? || st.pc.Opened? || st.pc.Recorded?
      || (st.pc.Waiting? && st.worker.Dead? && !st.ready && !st.leaked)
    ensures OwnerInv(w, owner, waitLock, st.(pc := ClearDeny), ops, sid)
  {
  }

  lemma ClearValue(w: Words, owner: Option<Sid>, waitLock: WaitHolder, st: Start, ops: map<Hid, Op>, sid: Sid,
                   w': Words, waitLock': WaitHolder, pc': StartPc)
    requires OwnerInv(w, owner, waitLock, st, ops, sid) && !st.pc.ReleaseSlot? && !st.pc.DropWait?
    requires ClearsTo(sid, st.pc, w, waitLock, pc', w', waitLock')
    ensures OwnerInv(w', owner, waitLock', st.(pc := pc'), ops, sid)
    ensures SameForCalls(st, st.(pc := pc'), None)
  {
  }

  // ----- steps of the worker, on the values that they change

  predicate HoldsSection(w: WorkerPc) { HasSection(w) && w.sec.Holds() }

  /** The worker moves between two points that hold no lock and keep the scan that it is about to mark. */
  lemma QuietWorkerValue(w: Words, owner: Option<Sid>, waitLock: WaitHolder, st: Start, ops: map<Hid, Op>, sid: Sid,
                         st': Start)
    requires OwnerInv(w, owner, waitLock, st, ops, sid)
    requires Working(st.worker) && !HoldsSection(st.worker) && !Marking(st.worker)
    requires st' == st.(worker := st'.worker, queue := st'.queue, leaked := st'.leaked, ready := st'.ready)
    requires st.leaked ==> st'.leaked
    requires st.ready || PastReady(st'.worker) ==> st'.ready
    requires !HoldsSection(st'.worker) && !Marking(st'.worker) && !st'.worker.NoWorker?
    requires HasSection(st'.worker) ==> SectionOk(st'.worker.sec)
    requires ScanToMark(st'.worker).Some? ==> ScanToMark(st'.worker) == ScanToMark(st.worker)
    requires st'.worker.ScanSection? ==> ScanProgress(st.engine, st.policy, st'.worker.sec, st'.worker.scan)
    ensures OwnerInv(w, owner, waitLock, st', ops, sid)
    ensures (st.worker.InCallback? ==> st'.worker.InCallback?) ==> SameForCalls(st, st', None)
  {
  }

  lemma MarkLockValue(w: Words, owner: Option<Sid>, waitLock: WaitHolder, st: Start, ops: map<Hid, Op>, sid: Sid,
                      waitLock': WaitHolder, st': Start)
    requires OwnerInv(w, owner, waitLock, st, ops, sid)
    requires
      || (st.worker.MarkWant? && st' == st.(worker := MarkWait(st.worker.scan)) && waitLock' == WWorker(sid))
      || (st.worker.MarkDrop? && st' == st.(worker := Looping) && waitLock' == WFree)
    ensures OwnerInv(w, owner, waitLock', st', ops, sid)
    ensures SameForCalls(st, st', None)
  {
  }

  lemma MarkWordValue(w: Words, owner: Option<Sid>, waitLock: WaitHolder, st: Start, ops: map<Hid, Op>, sid: Sid,
                      w': Words, st': Start)
    requires OwnerInv(w, owner, waitLock, st, ops, sid)
    requires
      || (st.worker.MarkWait? && st' == st.(worker := MarkScan(st.worker.scan)) && w' == w.(waitDone := true))
      || (st.worker.MarkScan? && w' == w.(scanDone := true)
          && st' == st.(worker := MarkDrop, scan := if st.scan.Some? then st.scan else Some(st.worker.scan)))
    ensures OwnerInv(w', owner, waitLock, st', ops, sid)
    ensures SameForCalls(st, st', None)
  {
  }

  // ----- the engine only grows

  ghost predicate EngineGrows(e: EngineState, e': EngineState) {
    && SameDetectors(e.slots, e'.slots)
    && e.latched <= e'.latched
    && forall i :: 0 <= i < |e.slots| && !e.slots[i].outcome.NotRun? ==> !e'.slots[i].outcome.NotRun?
  }

  lemma SettledGrows(e: EngineState, e': EngineState, policy: Policy, entry: (Detector, Outcome), p: set<Category>,
                     p': set<Category>)
    requires EngineGrows(e, e') && Settled(e, policy, entry, p) && p <= e'.latched + p'
    ensures Settled(e', policy, entry, p')
  {
    SameDetectorsFind(e.slots, e'.slots, entry.0.id);
  }

  lemma CoveredGrows(e: EngineState, e': EngineState, policy: Policy, scan: seq<(Detector, Outcome)>)
    requires EngineGrows(e, e')
    ensures Covered(e, policy, scan) ==> Covered(e', policy, scan)
    ensures Harmless(e, policy, scan) ==> Harmless(e', policy, scan)
  {
    forall i | 0 <= i < |scan|
      ensures Settled(e, policy, scan[i], {}) ==> Settled(e', policy, scan[i], {})
      ensures SelectsDeny(e, policy, scan[i].0, scan[i].1) == SelectsDeny(e', policy, scan[i].0, scan[i].1)
    {
      SameDetectorsFind(e.slots, e'.slots, scan[i].0.id);
      if Settled(e, policy, scan[i], {}) { SettledGrows(e, e', policy, scan[i], {}, {}); }
    }
  }

  // ----- what a step inside the critical section does, wherever it runs

  function Flight(sec: Section): set<Category> { if sec.phase.Latching? then {sec.phase.category} else {} }

  ghost predicate Moves(policy: Policy, e: EngineState, sec: Section, word: set<Category>,
                        e': EngineState, sec': Section, word': set<Category>) {
    && EngineGrows(e, e')
    && sec'.Holds() && SectionOk(sec')
    && word <= word'
    && e'.latched <= word' && Flight(sec') <= word'
    && (word == e.latched + Flight(sec) ==> word' == e'.latched + Flight(sec'))
    && (forall scan {:trigger ScanProgress(e', policy, sec', scan)} ::
          ScanProgress(e, policy, sec, scan) ==> ScanProgress(e', policy, sec', scan))
  }

  lemma RecordGrows(e: EngineState, d: Detector, o: Outcome)
    requires !o.NotRun?
    ensures EngineGrows(e, RecordOutcome(e, d, o))
    ensures SlotRan(RecordOutcome(e, d, o), d.id)
  {
    SameDetectorsFind(e.slots, RecordOutcome(e, d, o).slots, d.id);
  }

  lemma ScanProgressRuns(st: Start, sec: Section, scan: seq<(Detector, Outcome)>)
    requires sec.phase.Ready? && sec.todo != [] && SectionOk(sec)
    requires ScanProgress(st.engine, st.policy, sec, scan)
    ensures ScanProgress(RunOne(st, sec).0, st.policy, RunOne(st, sec).1, scan)
  {
    var (e', sec') := RunOne(st, sec);
    var k := |scan| - |sec.todo|;
    assert sec.todo[0] == Rec(scan[k].0, scan[k].1);
    assert InstrReported(sec.todo[0]);
    RecordGrows(st.engine, scan[k].0, scan[k].1);
    SameDetectorsFind(st.engine.slots, e'.slots, scan[k].0.id);
    assert Settled(e', st.policy, scan[k], PendingOf(sec'));
    forall i | 0 <= i < k ensures Settled(e', st.policy, scan[i], PendingOf(sec')) {
      SettledGrows(st.engine, e', st.policy, scan[i], {}, PendingOf(sec'));
    }
  }

  lemma RunMoves(st: Start, sec: Section, word: set<Category>)
    requires sec.phase.Ready? && sec.todo != [] && SectionOk(sec) && st.engine.latched <= word
    ensures Moves(st.policy, st.engine, sec, word, RunOne(st, sec).0, RunOne(st, sec).1, word)
  {
    var (e', sec') := RunOne(st, sec);
    assert InstrReported(sec.todo[0]);
    match sec.todo[0] {
      case Rec(d, o) => RecordGrows(st.engine, d, o);
      case HealthRec(f, now) => RecordGrows(st.engine, f.detector, HealthOutcome(f, now));
      case _ =>
    }
    forall scan | ScanProgress(st.engine, st.policy, sec, scan) ensures ScanProgress(e', st.policy, sec', scan) {
      ScanProgressRuns(st, sec, scan);
    }
  }

  lemma HookMoves(policy: Policy, e: EngineState, sec: Section, word: set<Category>)
    requires sec.phase.Hooking? && SectionOk(sec) && e.latched <= word
    ensures Moves(policy, e, sec, word, e, sec.(phase := Latching(sec.phase.category, sec.phase.host)),
                  word + {sec.phase.category})
  {
  }

  lemma InsertMoves(policy: Policy, e: EngineState, sec: Section, word: set<Category>, e': EngineState)
    requires sec.phase.Latching? && SectionOk(sec) && e.latched <= word && Flight(sec) <= word
    requires e' == LatchHost(e, sec.phase.category) || e' == LatchDetector(e, sec.phase.category)
    ensures Moves(policy, e, sec, word, e', sec.(phase := Ready), word)
  {
    var sec' := sec.(phase := Ready);
    forall scan | ScanProgress(e, policy, sec, scan) ensures ScanProgress(e', policy, sec', scan) {
      forall i | 0 <= i < |scan| - |sec.todo| ensures Settled(e', policy, scan[i], {}) {
        SettledGrows(e, e', policy, scan[i], PendingOf(sec), {});
      }
    }
  }

  lemma AcquireMoves(policy: Policy, e: EngineState, sec: Section, word: set<Category>)
    requires sec.phase.Wanting? && SectionOk(sec) && e.latched <= word
    ensures Moves(policy, e, sec, word, e, sec.(phase := Ready), word)
  {
  }

  lemma CoverageGrows(st: Start, e': EngineState)
    requires EngineGrows(st.engine, e') && CoverageInv(st)
    ensures CoverageInv(st.(engine := e'))
    ensures FirstScanHarmless(st) ==> FirstScanHarmless(st.(engine := e'))
  {
    if st.scan.Some? { CoveredGrows(st.engine, e', st.policy, st.scan.value); }
    if ScanToMark(st.worker).Some? { CoveredGrows(st.engine, e', st.policy, ScanToMark(st.worker).value); }
    if st.worker.ScanSection? {
      var sec, scan := st.worker.sec, st.worker.scan;
      forall i | 0 <= i < |scan| - |sec.todo| ensures Settled(e', st.policy, scan[i], PendingOf(sec)) {
        SettledGrows(st.engine, e', st.policy, scan[i], PendingOf(sec), PendingOf(sec));
      }
    }
  }
}
