/** Every step of the protocol keeps the invariant. */
module ProtocolSteps {
  import opened Types
  import opened Engine
  import opened ProcessWords
  import opened Protocol
  import opened ProtocolInvariant

  // ----- inside a critical section, for each place that runs one

  /** The lock before and after a step that leaves the section held at `locus`. */
  predicate LockMoves(st: Start, sec: Section, locus: Locus) {
    if sec.Holds() then st.lock == Some(locus) else st.lock.None?
  }

  lemma StartMovesValue(w: Words, owner: Option<Sid>, waitLock: WaitHolder, st: Start, ops: map<Hid, Op>, sid: Sid,
                        e': EngineState, sec': Section, word': set<Category>, st': Start)
    requires OwnerInv(w, owner, waitLock, st, ops, sid)
    requires st.pc.Initial? && LockMoves(st, st.pc.sec, AtStart)
    requires Moves(st.policy, st.engine, st.pc.sec, w.latched, e', sec', word')
    requires st' == st.(engine := e', lock := Some(AtStart), pc := Initial(sec'))
    ensures OwnerInv(w.(latched := word'), owner, waitLock, st', ops, sid)
    ensures SameForCalls(st, st', None)
  {
    CoverageGrows(st, e');
  }

  lemma WorkerMovesValue(w: Words, owner: Option<Sid>, waitLock: WaitHolder, st: Start, ops: map<Hid, Op>, sid: Sid,
                         e': EngineState, sec': Section, word': set<Category>, st': Start)
    requires OwnerInv(w, owner, waitLock, st, ops, sid)
    requires HasSection(st.worker) && LockMoves(st, st.worker.sec, AtWorker)
    requires Moves(st.policy, st.engine, st.worker.sec, w.latched, e', sec', word')
    requires st' == st.(engine := e', lock := Some(AtWorker), worker := st.worker.(sec := sec'))
    ensures OwnerInv(w.(latched := word'), owner, waitLock, st', ops, sid)
    ensures SameForCalls(st, st', None)
  {
    hide SectionOk;
    if st.worker.ScanSection? {
      assert ScanProgress(e', st.policy, sec', st.worker.scan);
      if st.scan.Some? { CoveredGrows(st.engine, e', st.policy, st.scan.value); }
    } else {
      CoverageGrows(st, e');
    }
  }

  lemma CallMovesValue(w: Words, owner: Option<Sid>, waitLock: WaitHolder, st: Start, ops: map<Hid, Op>, sid: Sid,
                       h: Hid, e': EngineState, sec': Section, word': set<Category>,
                       st': Start, ops': map<Hid, Op>)
    requires OwnerInv(w, owner, waitLock, st, ops, sid)
    requires h in ops && ops[h].sid == sid && ops[h].pc.Critical? && OpInv(waitLock, st, ops[h], h)
    requires LockMoves(st, ops[h].pc.sec, AtOp(h))
    requires Moves(st.policy, st.engine, ops[h].pc.sec, w.latched, e', sec', word')
    requires st' == st.(engine := e', lock := Some(AtOp(h)))
    requires ops' == ops[h := ops[h].(pc := Critical(sec'))]
    ensures OwnerInv(w.(latched := word'), owner, waitLock, st', ops', sid)
    ensures SameForCalls(st, st', Some(h)) && OpInv(waitLock, st', ops'[h], h)
  {
    CoverageGrows(st, e');
  }

  // ----- leaving a critical section

  lemma StartLeavesValue(w: Words, owner: Option<Sid>, waitLock: WaitHolder, st: Start, ops: map<Hid, Op>, sid: Sid,
                         st': Start)
    requires OwnerInv(w, owner, waitLock, st, ops, sid)
    requires st.pc.Initial? && st.pc.sec.phase.Ready?
    requires st' == st.(lock := None, pc := Recorded(st.pc.sec.qualified))
    ensures OwnerInv(w, owner, waitLock, st', ops, sid)
    ensures SameForCalls(st, st', None)
  {
  }

  lemma WorkerLeavesValue(w: Words, owner: Option<Sid>, waitLock: WaitHolder, st: Start, ops: map<Hid, Op>, sid: Sid,
                          st': Start)
    requires OwnerInv(w, owner, waitLock, st, ops, sid)
    requires HasSection(st.worker) && st.worker.sec.phase.Ready? && st.worker.sec.todo == []
    requires st' == st.(lock := None, worker :=
        if st.worker.ScanSection? then Dispatching(st.worker.sec.qualified, ThenMark(st.worker.scan))
        else Dispatching(st.worker.todo, st.worker.next))
    ensures OwnerInv(w, owner, waitLock, st', ops, sid)
    ensures SameForCalls(st, st', None)
  {
  }

  lemma CallLeavesValue(w: Words, owner: Option<Sid>, waitLock: WaitHolder, st: Start, ops: map<Hid, Op>, sid: Sid,
                        h: Hid, pc': OpPc, st': Start, ops': map<Hid, Op>)
    requires OwnerInv(w, owner, waitLock, st, ops, sid)
    requires h in ops && ops[h].sid == sid && ops[h].pc.Critical? && OpInv(waitLock, st, ops[h], h)
    requires ops[h].pc.sec.phase.Ready?
    requires pc'.Queueing? || (pc'.Finished? && !pc'.result.Allowed?)
    requires st' == st.(lock := None)
    requires ops' == ops[h := ops[h].(pc := pc')]
    ensures OwnerInv(w, owner, waitLock, st', ops', sid)
    ensures SameForCalls(st, st', Some(h)) && OpInv(waitLock, st', ops'[h], h)
  {
  }

  // ----- a latch hook that unwinds, with or without its write

  predicate MayWrite(word: set<Category>, c: Category, word': set<Category>) { word' == word || word' == word + {c} }

  lemma StartUnwindsValue(w: Words, owner: Option<Sid>, waitLock: WaitHolder, st: Start, ops: map<Hid, Op>, sid: Sid,
                          word': set<Category>, st': Start)
    requires OwnerInv(w, owner, waitLock, st, ops, sid)
    requires st.pc.Initial? && st.pc.sec.phase.Hooking? && MayWrite(w.latched, st.pc.sec.phase.category, word')
    requires st' == st.(lock := None, hookPanicked := true, pc := ClearDeny)
    ensures OwnerInv(w.(latched := word'), owner, waitLock, st', ops, sid)
    ensures SameForCalls(st, st', None)
  {
  }

  lemma WorkerUnwindsValue(w: Words, owner: Option<Sid>, waitLock: WaitHolder, st: Start, ops: map<Hid, Op>, sid: Sid,
                           word': set<Category>, st': Start)
    requires OwnerInv(w, owner, waitLock, st, ops, sid)
    requires HasSection(st.worker) && st.worker.sec.phase.Hooking?
    requires MayWrite(w.latched, st.worker.sec.phase.category, word')
    requires st' == st.(lock := None, hookPanicked := true, worker := Dead)
    ensures OwnerInv(w.(latched := word'), owner, waitLock, st', ops, sid)
    ensures SameForCalls(st, st', None)
  {
  }

  lemma CallUnwindsValue(w: Words, owner: Option<Sid>, waitLock: WaitHolder, st: Start, ops: map<Hid, Op>, sid: Sid,
                         h: Hid, word': set<Category>, st': Start, ops': map<Hid, Op>)
    requires OwnerInv(w, owner, waitLock, st, ops, sid)
    requires h in ops && ops[h].sid == sid && ops[h].pc.Critical? && OpInv(waitLock, st, ops[h], h)
    requires ops[h].pc.sec.phase.Hooking? && MayWrite(w.latched, ops[h].pc.sec.phase.category, word')
    requires st' == st.(lock := None, hookPanicked := true)
    requires ops' == ops[h := ops[h].(pc := Finished(Unwound))]
    ensures OwnerInv(w.(latched := word'), owner, waitLock, st', ops', sid)
    ensures SameForCalls(st, st', Some(h)) && OpInv(waitLock, st', ops'[h], h)
  {
  }

  // ----- host calls outside a critical section

  lemma LoadValue(w: Words, owner: Option<Sid>, waitLock: WaitHolder, st: Start, ops: map<Hid, Op>, sid: Sid, op: Op,
                  h: Hid)
    requires OwnerInv(w, owner, waitLock, st, ops, sid) && OpInv(waitLock, st, op, h)
    requires op.pc.LoadWord? || op.pc.LoadDeny? || op.pc.LoadScan? || op.pc.WaitLoad?
    ensures OpInv(waitLock, st, op.(pc := ApplyLoad(w, op.pc)), h)
  {
    if op.pc.LoadWord? && w.latched == {} && w.scanDone {
      forall i | 0 <= i < |st.scan.value|
        ensures !SelectsDeny(st.engine, st.policy, st.scan.value[i].0, st.scan.value[i].1)
      {
        assert Settled(st.engine, st.policy, st.scan.value[i], {});
      }
    }
  }

  // ----- steps of the process

  /** The start that runs this step owns the slot, so the whole owner invariant is at hand. */
  lemma OwnerOf(s: Process, sid: Sid)
    requires Inv(s) && sid in s.starts && Owning(s.starts[sid].pc)
    ensures OwnerInv(s.words, s.owner, s.waitLock, s.starts[sid], s.ops, sid) && s.words.running
  {
    StartHolds(s, sid);
  }

  lemma FreshStart(ops: map<Hid, Op>, sid: Sid, policy: Policy, optIn: bool)
    ensures LocalInv(Start(Idle, policy, optIn, NewState([]), None, [], NoWorker, false, false, false, None), ops, sid)
  {
  }

  lemma NewStartKeeps(s: Process, sid: Sid, policy: Policy, optIn: bool)
    requires Inv(s) && sid !in s.starts
    ensures Inv(PutStart(s, sid,
                         Start(Idle, policy, optIn, NewState([]), None, [], NoWorker, false, false, false, None)))
  {
    var s' := PutStart(s, sid, Start(Idle, policy, optIn, NewState([]), None, [], NoWorker, false, false, false, None));
    FreshStart(s.ops, sid, policy, optIn);
    LocalStepKeeps(s, s', sid, None);
  }

  lemma LostKeeps(s: Process, sid: Sid)
    requires Inv(s) && sid in s.starts && s.starts[sid].pc.Idle? && s.words.running
    ensures Inv(PutStart(s, sid, s.starts[sid].(pc := Lost)))
  {
    StartHolds(s, sid);
    LocalStepKeeps(s, PutStart(s, sid, s.starts[sid].(pc := Lost)), sid, None);
  }

  lemma WonKeeps(s: Process, sid: Sid, s': Process)
    requires Inv(s) && sid in s.starts && s.starts[sid].pc.Idle? && !s.words.running
    requires s'
      == PutStart(s, sid, s.starts[sid].(pc := Claimed)).(words := s.words.(running := true), owner := Some(sid))
    ensures Inv(s')
  {
    StartHolds(s, sid);
    LocalStepKeeps(s, s', sid, None);
  }

  predicate MayFail(st: Start) {
    || st.pc.Claimed? || st.pc.Opened? || st.pc.Recorded?
    || (st.pc.Waiting? && st.worker.Dead? && !st.ready && !st.leaked)
  }

  /** No call is open on a start that is about to fail, and nothing holds its state lock. */
  lemma NothingOpenAtFailure(s: Process, sid: Sid)
    requires Inv(s) && sid in s.starts && MayFail(s.starts[sid])
    ensures forall h :: h in s.ops && s.ops[h].sid == sid ==> s.ops[h].pc.Finished?
    ensures s.starts[sid].lock.None?
  {
    hide Inv;
    StartHolds(s, sid);
    forall h | h in s.ops && s.ops[h].sid == sid ensures s.ops[h].pc.Finished? { CallHolds(s, h); }
  }

  /** Calls that are finished, and calls on other runtimes, see nothing of the step. */
  lemma FinishedCallsKeep(s: Process, s': Process, sid: Sid)
    requires Inv(s) && sid in s.starts && Local(s, s', sid, None)
    requires s'.starts[sid].optIn == s.starts[sid].optIn
    requires FirstScanHarmless(s.starts[sid]) ==> FirstScanHarmless(s'.starts[sid])
    ensures forall h :: h in s'.ops && (s.ops[h].sid != sid || s.ops[h].pc.Finished?) ==> CallInv(s', h)
  {
    hide Inv;
    forall h | h in s'.ops && (s.ops[h].sid != sid || s.ops[h].pc.Finished?) ensures CallInv(s', h) {
      CallHolds(s, h);
    }
  }

  lemma FailKeeps(s: Process, sid: Sid)
    requires Inv(s) && sid in s.starts && MayFail(s.starts[sid])
    ensures Inv(PutStart(s, sid, s.starts[sid].(pc := ClearDeny)))
  {
    hide Covered, ScanProgress, InventorySlots, SectionOk;
    var s' := PutStart(s, sid, s.starts[sid].(pc := ClearDeny));
    OwnerOf(s, sid);
    NothingOpenAtFailure(s, sid);
    FailValue(s.words, s.owner, s.waitLock, s.starts[sid], s.ops, sid);
    OtherStartsKeep(s, s', sid, None);
    FinishedCallsKeep(s, s', sid);
  }

  lemma ReleaseKeeps(s: Process, sid: Sid, s': Process)
    requires Inv(s) && sid in s.starts && s.starts[sid].pc.ReleaseSlot?
    requires s' == PutStart(s, sid, s.starts[sid].(pc := DropWait)).(words := s.words.(running := false), owner := None)
    ensures Inv(s')
  {
    OwnerOf(s, sid);
    LocalStepKeeps(s, s', sid, None);
  }

  lemma DropKeeps(s: Process, sid: Sid, s': Process)
    requires Inv(s) && sid in s.starts && s.starts[sid].pc.DropWait?
    requires s' == PutStart(s, sid, s.starts[sid].(pc := Failed)).(waitLock := WFree)
    ensures Inv(s')
  {
    hide Covered, ScanProgress, InventorySlots, SectionOk, OpInv;
    StartHolds(s, sid);
    if s.owner.Some? { StartHolds(s, s.owner.value); }
    DropValue(s.owner, s.waitLock, s.starts[sid], s.ops, sid);
    hide LocalInv, SameForCalls, LinkInv;
    LocalStepKeeps(s, s', sid, None);
  }

  lemma DropValue(owner: Option<Sid>, waitLock: WaitHolder, st: Start, ops: map<Hid, Op>, sid: Sid)
    requires LocalInv(st, ops, sid) && LinkInv(owner, waitLock, st, sid) && st.pc.DropWait?
    ensures LocalInv(st.(pc := Failed), ops, sid) && LinkInv(owner, WFree, st.(pc := Failed), sid)
    ensures SameForCalls(st, st.(pc := Failed), None)
  {
    hide Covered, ScanProgress, InventorySlots, SectionOk;
  }

  lemma ClearOneKeeps(s: Process, sid: Sid, s': Process, pc': StartPc)
    requires Inv(s) && sid in s.starts && !s.starts[sid].pc.ReleaseSlot? && !s.starts[sid].pc.DropWait?
    requires s' == PutStart(s, sid, s.starts[sid].(pc := pc')).(words := s'.words, waitLock := s'.waitLock)
    requires ClearsTo(sid, s.starts[sid].pc, s.words, s.waitLock, pc', s'.words, s'.waitLock)
    ensures Inv(s')
  {
    hide Inv, OwnerInv, SameForCalls;
    OwnerOf(s, sid);
    ClearValue(s.words, s.owner, s.waitLock, s.starts[sid], s.ops, sid, s'.words, s'.waitLock, pc');
    OwnerStepKeeps(s, s', sid, None);
  }

  lemma ClearKeeps(s: Process, sid: Sid)
    requires Inv(s) && sid in s.starts && ClearEnabled(s, sid)
    ensures Inv(ApplyClear(s, sid))
  {
    hide Inv;
    var s' := ApplyClear(s, sid);
    var st := s.starts[sid];
    if st.pc.ReleaseSlot? {
      ReleaseKeeps(s, sid, s');
    } else if st.pc.DropWait? {
      DropKeeps(s, sid, s');
    } else {
      ClearOneKeeps(s, sid, s', s'.starts[sid].pc);
    }
  }

  lemma LeavingKeepsCalls(s: Process, sid: Sid, st': Start)
    requires Inv(s) && sid in s.starts
    requires st' == s.starts[sid].(worker := st'.worker, queue := st'.queue, leaked := st'.leaked, ready := st'.ready)
    requires s.starts[sid].leaked ==> st'.leaked
    requires s.starts[sid].worker.InCallback? ==> st'.worker.InCallback? || NoNestedCall(s, sid)
    ensures forall h :: h in s.ops ==> CallInv(PutStart(s, sid, st'), h)
  {
    hide Inv;
    forall h | h in s.ops ensures CallInv(PutStart(s, sid, st'), h) { CallHolds(s, h); }
  }

  /** A step that moves the worker between quiet points. */
  lemma QuietWorkerKeeps(s: Process, sid: Sid, st': Start)
    requires Inv(s) && sid in s.starts
    requires Working(s.starts[sid].worker) && !HoldsSection(s.starts[sid].worker) && !Marking(s.starts[sid].worker)
    requires st' == s.starts[sid].(worker := st'.worker, queue := st'.queue, leaked := st'.leaked, ready := st'.ready)
    requires s.starts[sid].leaked ==> st'.leaked
    requires s.starts[sid].ready || PastReady(st'.worker) ==> st'.ready
    requires !HoldsSection(st'.worker) && !Marking(st'.worker) && !st'.worker.NoWorker?
    requires HasSection(st'.worker) ==> SectionOk(st'.worker.sec)
    requires ScanToMark(st'.worker).Some? ==> ScanToMark(st'.worker) == ScanToMark(s.starts[sid].worker)
    requires st'.worker.ScanSection? ==>
               ScanProgress(s.starts[sid].engine, s.starts[sid].policy, st'.worker.sec, st'.worker.scan)
    requires s.starts[sid].worker.InCallback? ==> st'.worker.InCallback? || NoNestedCall(s, sid)
    ensures Inv(PutStart(s, sid, st'))
  {
    var s' := PutStart(s, sid, st');
    StartHolds(s, sid);
    OwnerOf(s, sid);
    QuietWorkerValue(s.words, s.owner, s.waitLock, s.starts[sid], s.ops, sid, st');
    OtherStartsKeep(s, s', sid, None);
    LeavingKeepsCalls(s, sid, st');
  }

  lemma MarkLockKeeps(s: Process, sid: Sid)
    requires Inv(s) && sid in s.starts && MarkEnabled(s, sid)
      && (s.starts[sid].worker.MarkWant? || s.starts[sid].worker.MarkDrop?)
    ensures Inv(ApplyMark(s, sid))
  {
    hide Inv;
    var s' := ApplyMark(s, sid);
    StartHolds(s, sid);
    OwnerOf(s, sid);
    MarkLockValue(s.words, s.owner, s.waitLock, s.starts[sid], s.ops, sid, s'.waitLock, s'.starts[sid]);
    OwnerStepKeeps(s, s', sid, None);
  }

  lemma MarkWordKeeps(s: Process, sid: Sid)
    requires Inv(s) && sid in s.starts && (s.starts[sid].worker.MarkWait? || s.starts[sid].worker.MarkScan?)
    ensures Inv(ApplyMark(s, sid))
  {
    hide Inv;
    var s' := ApplyMark(s, sid);
    StartHolds(s, sid);
    OwnerOf(s, sid);
    MarkWordValue(s.words, s.owner, s.waitLock, s.starts[sid], s.ops, sid, s'.words, s'.starts[sid]);
    OwnerStepKeeps(s, s', sid, None);
  }

  lemma MarkKeeps(s: Process, sid: Sid)
    requires Inv(s) && sid in s.starts && MarkEnabled(s, sid)
    ensures Inv(ApplyMark(s, sid))
  {
    hide Inv;
    var s' := ApplyMark(s, sid);
    var st := s.starts[sid];
    StartHolds(s, sid);
    if st.worker.Dispatching? {
      QuietWorkerKeeps(s, sid, s'.starts[sid]);
    } else if st.worker.MarkWait? || st.worker.MarkScan? {
      MarkWordKeeps(s, sid);
    } else {
      MarkLockKeeps(s, sid);
    }
  }

  // ----- a step inside a critical section

  /** What the invariant says about a section, wherever it runs. */
  lemma SectionFacts(s: Process, sid: Sid, locus: Locus)
    requires Inv(s) && SectionAt(s, sid, locus).Some?
    ensures OwnerInv(s.words, s.owner, s.waitLock, s.starts[sid], s.ops, sid) && s.words.running
    ensures Live(s.starts[sid].pc)
    ensures var sec := SectionAt(s, sid, locus).value;
      && SectionOk(sec)
      && (sec.Holds() <==> s.starts[sid].lock == Some(locus))
      && (sec.Holds() ==> Flight(sec) <= s.words.latched)
    ensures locus.AtOp? ==> OpInv(s.waitLock, s.starts[sid], s.ops[locus.h], locus.h)
  {
    hide Inv;
    StartHolds(s, sid);
    if locus.AtOp? { CallHolds(s, locus.h); }
    OwnerOf(s, sid);
  }

  lemma StayMoves(st: Start, sec: Section, word: set<Category>, step: SectionStep)
    requires step.Acquire? ==> sec.phase.Wanting?
    requires step.RunInstr? ==> sec.phase.Ready? && sec.todo != []
    requires step.CallHook? ==> sec.phase.Hooking?
    requires step.Insert? ==> sec.phase.Latching?
    requires !step.Release? && !step.PanicHook?
    requires SectionOk(sec) && st.engine.latched <= word && Flight(sec) <= word
    ensures var (e', sec', word') := StayStep(st, sec, word, step);
      Moves(st.policy, st.engine, sec, word, e', sec', word')
  {
    match step {
      case Acquire => AcquireMoves(st.policy, st.engine, sec, word);
      case RunInstr => RunMoves(st, sec, word);
      case CallHook => HookMoves(st.policy, st.engine, sec, word);
      case Insert => InsertMoves(st.policy, st.engine, sec, word, StayStep(st, sec, word, step).0);
    }
  }

  lemma PutStartKeeps(s: Process, sid: Sid, st': Start, word': set<Category>)
    requires Inv(s) && sid in s.starts && s.words.running && SameForCalls(s.starts[sid], st', None)
    requires OwnerInv(s.words.(latched := word'), s.owner, s.waitLock, st', s.ops, sid)
    ensures Inv(PutStart(s, sid, st').(words := s.words.(latched := word')))
  {
    hide Inv, OwnerInv, SameForCalls;
    OwnerStepKeeps(s, PutStart(s, sid, st').(words := s.words.(latched := word')), sid, None);
  }

  lemma PutCallKeeps(s: Process, sid: Sid, st': Start, h: Hid, op': Op, word': set<Category>)
    requires Inv(s) && sid in s.starts && s.words.running && SameForCalls(s.starts[sid], st', Some(h))
    requires h in s.ops && s.ops[h].sid == sid && op'.sid == sid
    requires OwnerInv(s.words.(latched := word'), s.owner, s.waitLock, st', s.ops[h := op'], sid)
    requires OpInv(s.waitLock, st', op', h)
    ensures Inv(PutOp(PutStart(s, sid, st'), h, op').(words := s.words.(latched := word')))
  {
    hide Inv, OwnerInv, SameForCalls;
    OwnerStepKeeps(s, PutOp(PutStart(s, sid, st'), h, op').(words := s.words.(latched := word')), sid, Some(h));
  }

  lemma StartSectionMoveKeeps(s: Process, sid: Sid, step: SectionStep)
    requires Inv(s) && SectionEnabled(s, sid, AtStart, step) && !step.Release? && !step.PanicHook?
    ensures Inv(ApplySection(s, sid, AtStart, step))
  {
    var st := s.starts[sid];
    var sec := SectionAt(s, sid, AtStart).value;
    SectionFacts(s, sid, AtStart);
    StayMoves(st, sec, s.words.latched, step);
    var (e', sec', word') := StayStep(st, sec, s.words.latched, step);
    var st' := st.(engine := e', lock := Some(AtStart), pc := Initial(sec'));
    StartMovesValue(s.words, s.owner, s.waitLock, st, s.ops, sid, e', sec', word', st');
    PutStartKeeps(s, sid, st', word');
  }

  lemma WorkerStays(s: Process, sid: Sid, step: SectionStep)
    requires SectionEnabled(s, sid, AtWorker, step) && !step.Release? && !step.PanicHook?
    requires s.starts[sid].worker.sec.Holds() ==> s.starts[sid].lock == Some(AtWorker)
    ensures var st := s.starts[sid];
      var (e', sec', word') := StayStep(st, st.worker.sec, s.words.latched, step);
      ApplySection(s, sid, AtWorker, step) ==
      PutStart(s, sid, st.(engine := e', lock := Some(AtWorker), worker := st.worker.(sec := sec')))
        .(words := s.words.(latched := word'))
  {
  }

  lemma WorkerSectionMoveKeeps(s: Process, sid: Sid, step: SectionStep)
    requires Inv(s) && SectionEnabled(s, sid, AtWorker, step) && !step.Release? && !step.PanicHook?
    ensures Inv(ApplySection(s, sid, AtWorker, step))
  {
    var st := s.starts[sid];
    SectionFacts(s, sid, AtWorker);
    StayMoves(st, st.worker.sec, s.words.latched, step);
    WorkerStays(s, sid, step);
    var (e', sec', word') := StayStep(st, st.worker.sec, s.words.latched, step);
    WorkerMoved(s, sid, e', sec', word');
  }

  lemma WorkerMoved(s: Process, sid: Sid, e': EngineState, sec': Section, word': set<Category>)
    requires Inv(s) && sid in s.starts && s.words.running && HasSection(s.starts[sid].worker)
    requires OwnerInv(s.words, s.owner, s.waitLock, s.starts[sid], s.ops, sid)
    requires Moves(s.starts[sid].policy, s.starts[sid].engine, s.starts[sid].worker.sec, s.words.latched, e', sec',
                   word')
    requires LockMoves(s.starts[sid], s.starts[sid].worker.sec, AtWorker)
    ensures Inv(PutStart(s, sid, s.starts[sid].(engine := e', lock := Some(AtWorker),
                                                worker := s.starts[sid].worker.(sec := sec')))
                  .(words := s.words.(latched := word')))
  {
    var st := s.starts[sid];
    var st' := st.(engine := e', lock := Some(AtWorker), worker := st.worker.(sec := sec'));
    WorkerMovesValue(s.words, s.owner, s.waitLock, st, s.ops, sid, e', sec', word', st');
    PutStartKeeps(s, sid, st', word');
  }

  lemma CallSectionMoveKeeps(s: Process, sid: Sid, h: Hid, step: SectionStep)
    requires Inv(s) && SectionEnabled(s, sid, AtOp(h), step) && !step.Release? && !step.PanicHook?
    ensures Inv(ApplySection(s, sid, AtOp(h), step))
  {
    hide Inv, SameForCalls;
    var st := s.starts[sid];
    var sec := SectionAt(s, sid, AtOp(h)).value;
    SectionFacts(s, sid, AtOp(h));
    StayMoves(st, sec, s.words.latched, step);
    var (e', sec', word') := StayStep(st, sec, s.words.latched, step);
    var st' := st.(engine := e', lock := Some(AtOp(h)));
    var op' := s.ops[h].(pc := Critical(sec'));
    CallMovesValue(s.words, s.owner, s.waitLock, st, s.ops, sid, h, e', sec', word', st', s.ops[h := op']);
    PutCallKeeps(s, sid, st', h, op', word');
  }

  lemma StartSectionReleaseKeeps(s: Process, sid: Sid)
    requires Inv(s) && SectionEnabled(s, sid, AtStart, Release)
    ensures Inv(ApplySection(s, sid, AtStart, Release))
  {
    var s' := ApplySection(s, sid, AtStart, Release);
    var st, st' := s.starts[sid], s'.starts[sid];
    SectionFacts(s, sid, AtStart);
    StartLeavesValue(s.words, s.owner, s.waitLock, st, s.ops, sid, st');
    PutStartKeeps(s, sid, st', s.words.latched);
  }

  lemma StartSectionUnwindKeeps(s: Process, sid: Sid, wrote: bool)
    requires Inv(s) && SectionEnabled(s, sid, AtStart, PanicHook(wrote))
    ensures Inv(ApplySection(s, sid, AtStart, PanicHook(wrote)))
  {
    var s' := ApplySection(s, sid, AtStart, PanicHook(wrote));
    var st, st' := s.starts[sid], s'.starts[sid];
    SectionFacts(s, sid, AtStart);
    StartUnwindsValue(s.words, s.owner, s.waitLock, st, s.ops, sid, s'.words.latched, st');
    PutStartKeeps(s, sid, st', s'.words.latched);
  }

  lemma WorkerSectionReleaseKeeps(s: Process, sid: Sid)
    requires Inv(s) && SectionEnabled(s, sid, AtWorker, Release)
    ensures Inv(ApplySection(s, sid, AtWorker, Release))
  {
    var s' := ApplySection(s, sid, AtWorker, Release);
    var st, st' := s.starts[sid], s'.starts[sid];
    SectionFacts(s, sid, AtWorker);
    WorkerLeavesValue(s.words, s.owner, s.waitLock, st, s.ops, sid, st');
    PutStartKeeps(s, sid, st', s.words.latched);
  }

  lemma WorkerSectionUnwindKeeps(s: Process, sid: Sid, wrote: bool)
    requires Inv(s) && SectionEnabled(s, sid, AtWorker, PanicHook(wrote))
    ensures Inv(ApplySection(s, sid, AtWorker, PanicHook(wrote)))
  {
    var s' := ApplySection(s, sid, AtWorker, PanicHook(wrote));
    var st, st' := s.starts[sid], s'.starts[sid];
    SectionFacts(s, sid, AtWorker);
    WorkerUnwindsValue(s.words, s.owner, s.waitLock, st, s.ops, sid, s'.words.latched, st');
    PutStartKeeps(s, sid, st', s'.words.latched);
  }

  lemma CallSectionReleaseKeeps(s: Process, sid: Sid, h: Hid)
    requires Inv(s) && SectionEnabled(s, sid, AtOp(h), Release)
    ensures Inv(ApplySection(s, sid, AtOp(h), Release))
  {
    hide Inv, OwnerInv, SameForCalls;
    var s' := ApplySection(s, sid, AtOp(h), Release);
    var st, st' := s.starts[sid], s'.starts[sid];
    SectionFacts(s, sid, AtOp(h));
    CallLeavesValue(s.words, s.owner, s.waitLock, st, s.ops, sid, h, s'.ops[h].pc, st', s'.ops);
    PutCallKeeps(s, sid, st', h, s'.ops[h], s.words.latched);
  }

  lemma CallSectionUnwindKeeps(s: Process, sid: Sid, h: Hid, wrote: bool)
    requires Inv(s) && SectionEnabled(s, sid, AtOp(h), PanicHook(wrote))
    ensures Inv(ApplySection(s, sid, AtOp(h), PanicHook(wrote)))
  {
    var s' := ApplySection(s, sid, AtOp(h), PanicHook(wrote));
    var st, st' := s.starts[sid], s'.starts[sid];
    SectionFacts(s, sid, AtOp(h));
    CallUnwindsValue(s.words, s.owner, s.waitLock, st, s.ops, sid, h, s'.words.latched, st', s'.ops);
    PutCallKeeps(s, sid, st', h, s'.ops[h], s'.words.latched);
  }

  // ----- host calls

  predicate HoldsCall(ops: map<Hid, Op>, h: Hid) { h in ops && ops[h].pc.Critical? && ops[h].pc.sec.Holds() }

  /** A call that holds no state lock changes, and the runtime sees at most a new queue. */
  lemma QuietCallValue(w: Words, owner: Option<Sid>, waitLock: WaitHolder, st: Start, ops: map<Hid, Op>, sid: Sid,
                       h: Hid, ops': map<Hid, Op>, waitLock': WaitHolder, st': Start)
    requires OwnerInv(w, owner, waitLock, st, ops, sid) && Serving(st.pc)
    requires st' == st.(queue := st'.queue)
    requires !HoldsCall(ops, h) && !HoldsCall(ops', h)
    requires h in ops' && ops' == ops[h := ops'[h]] && (h in ops ==> OpInv(waitLock, st, ops[h], h))
    requires waitLock' == waitLock || waitLock.WFree? || waitLock == WOp(h)
    ensures OwnerInv(w, owner, waitLock', st', ops', sid)
    ensures SameForCalls(st, st', Some(h))
  {
  }

  lemma QuietCallKeeps(s: Process, h: Hid, sid: Sid, op': Op, waitLock': WaitHolder, queue: seq<Qualified>, s': Process)
    requires Inv(s) && sid in s.starts && op'.sid == sid && (h in s.ops ==> s.ops[h].sid == sid)
    requires Serving(s.starts[sid].pc)
    requires !HoldsCall(s.ops, h) && !(op'.pc.Critical? && op'.pc.sec.Holds())
    requires OpInv(waitLock', s.starts[sid], op', h)
    requires waitLock' == s.waitLock || s.waitLock.WFree? || s.waitLock == WOp(h)
    requires s' == PutOp(PutStart(s, sid, s.starts[sid].(queue := queue)), h, op').(waitLock := waitLock')
    ensures Inv(s')
  {
    hide Inv;
    if h in s.ops { CallHolds(s, h); }
    OwnerOf(s, sid);
    QuietCallValue(s.words, s.owner, s.waitLock, s.starts[sid], s.ops, sid, h, s'.ops, waitLock', s'.starts[sid]);
    OwnerStepKeeps(s, s', sid, Some(h));
  }

  lemma SameStart(s: Process, sid: Sid)
    requires sid in s.starts
    ensures PutStart(s, sid, s.starts[sid].(queue := s.starts[sid].queue)) == s
  {
    assert s.starts[sid := s.starts[sid]] == s.starts;
  }

  lemma BeginCallKeeps(s: Process, h: Hid, sid: Sid, nested: bool, kind: OpKind)
    requires Inv(s) && Enabled(s, BeginOp(h, sid, nested, kind))
    ensures Inv(PutOp(s, h, Op(sid, nested, kind, FirstPc(kind))))
  {
    hide Inv;
    var op' := Op(sid, nested, kind, FirstPc(kind));
    StartHolds(s, sid);
    SameStart(s, sid);
    QuietCallKeeps(s, h, sid, op', s.waitLock, s.starts[sid].queue, PutOp(s, h, op'));
  }

  lemma CallStepKeeps(s: Process, h: Hid, op': Op, waitLock': WaitHolder)
    requires Inv(s) && h in s.ops && op'.sid == s.ops[h].sid
    requires !s.ops[h].pc.Critical? && !s.ops[h].pc.Finished? && !op'.pc.Critical?
    requires s.ops[h].sid in s.starts ==> OpInv(waitLock', s.starts[s.ops[h].sid], op', h)
    requires waitLock' == s.waitLock || s.waitLock.WFree? || s.waitLock == WOp(h)
    ensures Inv(PutOp(s, h, op').(waitLock := waitLock'))
  {
    hide Inv;
    CallHolds(s, h);
    SameStart(s, op'.sid);
    QuietCallKeeps(s, h, op'.sid, op', waitLock', s.starts[op'.sid].queue, PutOp(s, h, op').(waitLock := waitLock'));
  }

  lemma EnqueueKeeps(s: Process, h: Hid, queue: seq<Qualified>, s': Process)
    requires Inv(s) && h in s.ops && s.ops[h].pc.Queueing? && s.ops[h].sid in s.starts
    requires s'
      == PutOp(PutStart(s, s.ops[h].sid, s.starts[s.ops[h].sid].(queue := queue)), h, s.ops[h].(pc := Finished(Done)))
    ensures Inv(s')
  {
    hide Inv;
    CallHolds(s, h);
    QuietCallKeeps(s, h, s.ops[h].sid, s.ops[h].(pc := Finished(Done)), s.waitLock, queue, s');
  }

  lemma LoadKeeps(s: Process, h: Hid)
    requires Inv(s) && h in s.ops
    requires s.ops[h].pc.LoadWord? || s.ops[h].pc.LoadDeny? || s.ops[h].pc.LoadScan? || s.ops[h].pc.WaitLoad?
    ensures Inv(PutOp(s, h, s.ops[h].(pc := ApplyLoad(s.words, s.ops[h].pc))))
  {
    hide Inv;
    var sid := s.ops[h].sid;
    CallHolds(s, h);
    StartHolds(s, sid);
    OwnerOf(s, sid);
    LoadValue(s.words, s.owner, s.waitLock, s.starts[sid], s.ops, sid, s.ops[h], h);
    CallStepKeeps(s, h, s.ops[h].(pc := ApplyLoad(s.words, s.ops[h].pc)), s.waitLock);
  }

  // ----- every step

  lemma StartLabelKeeps(s: Process, a: Label)
    requires Inv(s) && Enabled(s, a) && KeepsHandle(s, a)
    requires a.NewStart? || a.Claim? || a.FailStart? || a.WorkerStopped? || a.Clear?
    ensures Inv(Apply(s, a))
  {
    hide Inv;
    match a {
      case NewStart(sid, policy, optIn) => NewStartKeeps(s, sid, policy, optIn);
      case Claim(sid) => if s.words.running { LostKeeps(s, sid); } else { WonKeeps(s, sid, Apply(s, a)); }
      case FailStart(sid) => FailKeeps(s, sid);
      case WorkerStopped(sid) => FailKeeps(s, sid);
      case Clear(sid) => ClearKeeps(s, sid);
    }
  }

  lemma ForwardLabelKeeps(s: Process, a: Label)
    requires Inv(s) && Enabled(s, a)
    requires a.OpenWindow? || a.BeginRecord? || a.Spawn? || a.Commit?
    ensures Inv(Apply(s, a))
  {
    hide Inv, OwnerInv, SameForCalls;
    var s' := Apply(s, a);
    var sid := a.sid;
    OwnerOf(s, sid);
    if a.OpenWindow? || a.BeginRecord? {
      StepForwardValue(s.words, s.owner, s.waitLock, s.starts[sid], s.ops, sid, s'.words, s'.starts[sid]);
    } else if a.Spawn? {
      SpawnValue(s.words, s.owner, s.waitLock, s.starts[sid], s.ops, sid, s'.starts[sid]);
    } else {
      CommitValue(s.words, s.owner, s.waitLock, s.starts[sid], s.ops, sid, s'.starts[sid]);
    }
    OwnerStepKeeps(s, s', sid, None);
  }

  lemma DispatchLabelKeeps(s: Process, a: Label)
    requires Inv(s) && Enabled(s, a) && (a.Dispatch? || a.Leak?)
    ensures Inv(Apply(s, a))
  {
    hide Inv;
    StartHolds(s, a.sid);
    QuietWorkerKeeps(s, a.sid, Apply(s, a).starts[a.sid]);
  }

  lemma LeaveCallbackLabelKeeps(s: Process, a: Label)
    requires Inv(s) && Enabled(s, a) && (a.LeaveCallback?)
    ensures Inv(Apply(s, a))
  {
    hide Inv;
    StartHolds(s, a.sid);
    QuietWorkerKeeps(s, a.sid, Apply(s, a).starts[a.sid]);
  }

  lemma SendReadyLabelKeeps(s: Process, a: Label)
    requires Inv(s) && Enabled(s, a) && a.SendReady?
    ensures Inv(Apply(s, a))
  {
    hide Inv;
    StartHolds(s, a.sid);
    QuietWorkerKeeps(s, a.sid, Apply(s, a).starts[a.sid]);
  }

  lemma TakePendingLabelKeeps(s: Process, a: Label)
    requires Inv(s) && Enabled(s, a) && a.TakePending?
    ensures Inv(Apply(s, a))
  {
    hide Inv;
    StartHolds(s, a.sid);
    QuietWorkerKeeps(s, a.sid, Apply(s, a).starts[a.sid]);
  }

  lemma BeginScanLabelKeeps(s: Process, a: Label)
    requires Inv(s) && Enabled(s, a) && a.BeginScan?
    ensures Inv(Apply(s, a))
  {
    hide Inv;
    StartHolds(s, a.sid);
    QuietWorkerKeeps(s, a.sid, Apply(s, a).starts[a.sid]);
  }

  lemma StopWorkerLabelKeeps(s: Process, a: Label)
    requires Inv(s) && Enabled(s, a) && a.StopWorker?
    ensures Inv(Apply(s, a))
  {
    hide Inv;
    StartHolds(s, a.sid);
    QuietWorkerKeeps(s, a.sid, Apply(s, a).starts[a.sid]);
  }

  lemma CallLabelKeeps(s: Process, a: Label)
    requires Inv(s) && Enabled(s, a) && (a.BeginOp? || a.Enqueue? || a.Load?)
    ensures Inv(Apply(s, a))
  {
    hide Inv;
    var s' := Apply(s, a);
    match a {
      case BeginOp(h, sid, nested, kind) => BeginCallKeeps(s, h, sid, nested, kind);
      case Enqueue(h) => EnqueueKeeps(s, h, s'.starts[s.ops[h].sid].queue, s');
      case Load(h) => LoadKeeps(s, h);
    }
  }

  lemma WaitLabelKeeps(s: Process, a: Label)
    requires Inv(s) && Enabled(s, a) && (a.WaitAcquire? || a.WaitCheck?)
    ensures Inv(Apply(s, a))
  {
    hide Inv;
    var s' := Apply(s, a);
    CallHolds(s, a.h);
    CallStepKeeps(s, a.h, s'.ops[a.h], s'.waitLock);
  }

  lemma SectionLabelKeeps(s: Process, sid: Sid, locus: Locus, step: SectionStep)
    requires Inv(s) && SectionEnabled(s, sid, locus, step)
    ensures Inv(ApplySection(s, sid, locus, step))
  {
    match locus {
      case AtStart =>
        match step {
          case Release => StartSectionReleaseKeeps(s, sid);
          case PanicHook(wrote) => StartSectionUnwindKeeps(s, sid, wrote);
          case _ => StartSectionMoveKeeps(s, sid, step);
        }
      case AtWorker =>
        match step {
          case Release => WorkerSectionReleaseKeeps(s, sid);
          case PanicHook(wrote) => WorkerSectionUnwindKeeps(s, sid, wrote);
          case _ => WorkerSectionMoveKeeps(s, sid, step);
        }
      case AtOp(h) =>
        match step {
          case Release => CallSectionReleaseKeeps(s, sid, h);
          case PanicHook(wrote) => CallSectionUnwindKeeps(s, sid, h, wrote);
          case _ => CallSectionMoveKeeps(s, sid, h, step);
        }
    }
  }

  /** The invariant holds after every step that the process can take. */
  lemma StepKeeps(s: Process, a: Label)
    requires Inv(s) && Enabled(s, a) && KeepsHandle(s, a)
    ensures Inv(Apply(s, a))
  {
    if a.NewStart? || a.Claim? || a.FailStart? || a.WorkerStopped? || a.Clear? {
      StartLabelKeeps(s, a);
    } else if a.OpenWindow? || a.BeginRecord? || a.Spawn? || a.Commit? {
      ForwardLabelKeeps(s, a);
    } else if a.InSection? {
      SectionLabelKeeps(s, a.sid, a.locus, a.step);
    } else if a.Dispatch? || a.Leak? {
      DispatchLabelKeeps(s, a);
    } else if a.LeaveCallback? {
      LeaveCallbackLabelKeeps(s, a);
    } else if a.SendReady? {
      SendReadyLabelKeeps(s, a);
    } else if a.TakePending? {
      TakePendingLabelKeeps(s, a);
    } else if a.BeginScan? {
      BeginScanLabelKeeps(s, a);
    } else if a.StopWorker? {
      StopWorkerLabelKeeps(s, a);
    } else if a.Mark? {
      MarkKeeps(s, a.sid);
    } else if a.WaitAcquire? || a.WaitCheck? {
      WaitLabelKeeps(s, a);
    } else {
      CallLabelKeeps(s, a);
    }
  }
}
