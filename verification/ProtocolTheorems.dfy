/** What the protocol promises over every run. */
module ProtocolTheorems {
  import opened Types
  import opened Engine
  import opened Detect
  import opened ProcessWords
  import opened Protocol
  import opened ProtocolInvariant
  import opened ProtocolSteps

  lemma {:induction false} RunInv(states: seq<Process>, labels: seq<Label>, i: nat)
    requires IsRun(states, labels) && KeepsHandles(states, labels) && i < |states|
    ensures Inv(states[i])
  {
    if i == 0 {
      InitInv();
    } else {
      RunInv(states, labels, i - 1);
      assert StepOf(states, labels, i - 1);
      StepKeeps(states[i - 1], labels[i - 1]);
    }
  }

  lemma RunEnabled(states: seq<Process>, labels: seq<Label>, i: nat)
    requires IsRun(states, labels) && i < |labels|
    ensures Enabled(states[i], labels[i])
  {
    assert StepOf(states, labels, i);
  }

  // ----- the two latches

  /**
   The engine latch is inside the process word at every step, hook panics included, and equal to it
   whenever the state lock is free and no hook of this runtime panicked.
   */
  lemma LatchesNeverDisagree(states: seq<Process>, labels: seq<Label>, i: nat, sid: Sid)
    requires IsRun(states, labels) && KeepsHandles(states, labels) && i < |states|
    requires sid in states[i].starts && Live(states[i].starts[sid].pc)
    ensures states[i].owner == Some(sid)
    ensures states[i].starts[sid].engine.latched <= states[i].words.latched
    ensures states[i].starts[sid].lock.None? && !states[i].starts[sid].hookPanicked ==>
              states[i].starts[sid].engine.latched == states[i].words.latched
  {
    RunInv(states, labels, i);
    OwnerOf(states[i], sid);
  }

  // ----- the slot

  /** At most one start owns the slot, the slot word says whether one does, and a free slot is clean. */
  lemma SlotHasOneOwner(states: seq<Process>, labels: seq<Label>, i: nat)
    requires IsRun(states, labels) && KeepsHandles(states, labels) && i < |states|
    ensures forall a, b | a in states[i].starts && b in states[i].starts ::
              Owning(states[i].starts[a].pc) && Owning(states[i].starts[b].pc) ==> a == b
    ensures states[i].words.running <==>
              exists a :: a in states[i].starts && Owning(states[i].starts[a].pc)
    ensures !states[i].words.running ==> states[i].words == CLEAN_WORDS
  {
    RunInv(states, labels, i);
    var s := states[i];
    forall a | a in s.starts && Owning(s.starts[a].pc) ensures s.owner == Some(a) { assert StartInv(s, a); }
    if s.owner.Some? { assert StartInv(s, s.owner.value); }
  }

  // ----- how one step moves one start

  /** How far a start has come. It never goes back. */
  function Stage(pc: StartPc): nat {
    match pc
    case Idle => 0
    case Claimed => 1
    case Opened => 2
    case Initial(_) => 3
    case Recorded(_) => 4
    case Waiting => 5
    case Committed => 6
    case ClearDeny => 7
    case ClearWord => 8
    case WantWait => 9
    case ClearWait => 10
    case ClearScan => 11
    case ReleaseSlot => 12
    case DropWait => 13
    case Failed => 14
    case Lost => 15
  }

  ghost predicate Evolves(st: Start, st': Start) {
    && Stage(st.pc) <= Stage(st'.pc)
    && (Stage(st.pc) == 6 ==> Stage(st'.pc) == 6)
    && st'.policy == st.policy && st'.optIn == st.optIn
    && (st.ready ==> st'.ready && (Serving(st.pc) ==> Serving(st'.pc)))
    && (st.scan.Some? ==> st'.scan == st.scan)
    && (st.hookPanicked ==> st'.hookPanicked)
    && (Live(st.pc) ==> EngineGrows(st.engine, st'.engine))
  }

  lemma StayEvolves(s: Process, sid: Sid, locus: Locus, step: SectionStep)
    requires Inv(s) && SectionEnabled(s, sid, locus, step) && !step.Release? && !step.PanicHook?
    ensures var s' := ApplySection(s, sid, locus, step);
      && s'.starts.Keys == s.starts.Keys
      && Evolves(s.starts[sid], s'.starts[sid])
      && s.words.latched <= s'.words.latched
      && (forall t :: t in s.starts && t != sid ==> s'.starts[t] == s.starts[t])
  {
    hide Inv, StayStep, EngineGrows, SectionOk, OwnerInv, OpInv;
    StaySection(s, sid, locus, step);
  }

  /** What a step that stays inside the section leaves to its runtime, without the rest of the invariant. */
  lemma StaySection(s: Process, sid: Sid, locus: Locus, step: SectionStep)
    requires Inv(s) && SectionEnabled(s, sid, locus, step) && !step.Release? && !step.PanicHook?
    ensures var st, sec := s.starts[sid], SectionAt(s, sid, locus).value;
      var (e', _, word') := StayStep(st, sec, s.words.latched, step);
      EngineGrows(st.engine, e') && s.words.latched <= word'
  {
    hide Inv, StayStep, EngineGrows;
    SectionFacts(s, sid, locus);
    StayMoves(s.starts[sid], SectionAt(s, sid, locus).value, s.words.latched, step);
  }

  lemma LeaveEvolves(s: Process, sid: Sid, locus: Locus, step: SectionStep)
    requires Inv(s) && SectionEnabled(s, sid, locus, step) && (step.Release? || step.PanicHook?)
    ensures var s' := ApplySection(s, sid, locus, step);
      && s'.starts.Keys == s.starts.Keys
      && Evolves(s.starts[sid], s'.starts[sid])
      && s.words.latched <= s'.words.latched
      && (forall t :: t in s.starts && t != sid ==> s'.starts[t] == s.starts[t])
  {
    hide Inv, EngineGrows, SectionOk, OwnerInv, OpInv;
    SectionFacts(s, sid, locus);
    EngineGrowsSelf(s.starts[sid].engine);
  }

  lemma EngineGrowsSelf(e: EngineState)
    ensures EngineGrows(e, e)
  {
  }

  lemma SectionEvolves(s: Process, sid: Sid, locus: Locus, step: SectionStep)
    requires Inv(s) && SectionEnabled(s, sid, locus, step)
    ensures var s' := ApplySection(s, sid, locus, step);
      && s'.starts.Keys == s.starts.Keys
      && Evolves(s.starts[sid], s'.starts[sid])
      && s.words.latched <= s'.words.latched
      && (forall t :: t in s.starts && t != sid ==> s'.starts[t] == s.starts[t])
  {
    if step.Release? || step.PanicHook? {
      LeaveEvolves(s, sid, locus, step);
    } else {
      StayEvolves(s, sid, locus, step);
    }
  }

  /** The label runs at this start. */
  function TouchedStart(s: Process, a: Label): Option<Sid> {
    match a
    case BeginOp(_, _, _, _) => None
    case Enqueue(h) => if h in s.ops then Some(s.ops[h].sid) else None
    case Load(_) => None
    case WaitAcquire(_) => None
    case WaitCheck(_, _) => None
    case _ => Some(a.sid)
  }

  lemma OtherStartsStay(s: Process, a: Label, t: Sid)
    requires Inv(s) && Enabled(s, a) && t in s.starts && TouchedStart(s, a) != Some(t)
    ensures t in Apply(s, a).starts && Apply(s, a).starts[t] == s.starts[t]
  {
    hide Inv, ApplySection, SectionEnabled, ClearEnabled, Evolves;
    if a.InSection? { SectionEvolves(s, a.sid, a.locus, a.step); }
  }

  lemma ForwardLabelEvolves(s: Process, a: Label, t: Sid)
    requires Inv(s) && Enabled(s, a) && t in s.starts && TouchedStart(s, a) == Some(t)
    requires a.Claim? || a.OpenWindow? || a.BeginRecord? || a.Spawn? || a.Commit?
    ensures t in Apply(s, a).starts && Evolves(s.starts[t], Apply(s, a).starts[t])
  {
    hide Inv, EngineGrows;
    EngineGrowsSelf(s.starts[t].engine);
    StartHolds(s, t);
  }

  lemma ClearEvolves(s: Process, sid: Sid)
    requires Inv(s) && sid in s.starts && ClearEnabled(s, sid)
    ensures sid in ApplyClear(s, sid).starts && Evolves(s.starts[sid], ApplyClear(s, sid).starts[sid])
  {
    hide Inv, EngineGrows, CoverageInv, LockInv;
    EngineGrowsSelf(s.starts[sid].engine);
    StartHolds(s, sid);
  }

  lemma MarkEvolves(s: Process, sid: Sid)
    requires Inv(s) && sid in s.starts && MarkEnabled(s, sid)
    ensures sid in ApplyMark(s, sid).starts && Evolves(s.starts[sid], ApplyMark(s, sid).starts[sid])
  {
    hide Inv, EngineGrows, CoverageInv, LockInv;
    EngineGrowsSelf(s.starts[sid].engine);
    StartHolds(s, sid);
  }

  lemma FailLabelEvolves(s: Process, a: Label, t: Sid)
    requires Inv(s) && Enabled(s, a) && t in s.starts && TouchedStart(s, a) == Some(t)
    requires a.FailStart? || a.WorkerStopped?
    ensures t in Apply(s, a).starts && Evolves(s.starts[t], Apply(s, a).starts[t])
  {
    hide Inv, EngineGrows;
    EngineGrowsSelf(s.starts[t].engine);
    StartHolds(s, t);
  }

  lemma CallbackLabelEvolves(s: Process, a: Label, t: Sid)
    requires Inv(s) && Enabled(s, a) && t in s.starts && TouchedStart(s, a) == Some(t)
    requires a.Dispatch? || a.Leak? || a.LeaveCallback? || a.SendReady?
    ensures t in Apply(s, a).starts && Evolves(s.starts[t], Apply(s, a).starts[t])
  {
    hide Inv, EngineGrows;
    EngineGrowsSelf(s.starts[t].engine);
    StartHolds(s, t);
  }

  lemma LoopLabelEvolves(s: Process, a: Label, t: Sid)
    requires Inv(s) && Enabled(s, a) && t in s.starts && TouchedStart(s, a) == Some(t)
    requires a.TakePending? || a.BeginScan? || a.StopWorker? || a.Enqueue?
    ensures t in Apply(s, a).starts && Evolves(s.starts[t], Apply(s, a).starts[t])
  {
    hide Inv, EngineGrows;
    EngineGrowsSelf(s.starts[t].engine);
    StartHolds(s, t);
  }

  lemma TouchedStartEvolves(s: Process, a: Label, t: Sid)
    requires Inv(s) && Enabled(s, a) && t in s.starts && TouchedStart(s, a) == Some(t)
    ensures t in Apply(s, a).starts && Evolves(s.starts[t], Apply(s, a).starts[t])
  {
    if a.InSection? {
      SectionEvolves(s, a.sid, a.locus, a.step);
    } else if a.Claim? || a.OpenWindow? || a.BeginRecord? || a.Spawn? || a.Commit? {
      ForwardLabelEvolves(s, a, t);
    } else if a.FailStart? || a.WorkerStopped? {
      FailLabelEvolves(s, a, t);
    } else if a.Clear? {
      ClearEvolves(s, t);
    } else if a.Mark? {
      MarkEvolves(s, t);
    } else if a.Dispatch? || a.Leak? || a.LeaveCallback? || a.SendReady? {
      CallbackLabelEvolves(s, a, t);
    } else {
      LoopLabelEvolves(s, a, t);
    }
  }

  lemma StepEvolves(s: Process, a: Label, t: Sid)
    requires Inv(s) && Enabled(s, a) && t in s.starts
    ensures t in Apply(s, a).starts && Evolves(s.starts[t], Apply(s, a).starts[t])
  {
    if TouchedStart(s, a) == Some(t) { TouchedStartEvolves(s, a, t); } else { OtherStartsStay(s, a, t); }
  }

  /** Only the abandonment of a start takes a category out of the word. */
  lemma WordShrinksOnlyInAbandon(s: Process, a: Label)
    requires Inv(s) && Enabled(s, a)
    ensures s.words.latched <= Apply(s, a).words.latched || (a.Clear? && s.starts[a.sid].pc.ClearWord?)
  {
    hide Inv, ApplySection, SectionEnabled, ClearEnabled, Evolves;
    if a.InSection? { SectionEvolves(s, a.sid, a.locus, a.step); }
  }

  lemma WordGrows(s: Process, a: Label, t: Sid)
    requires Inv(s) && Enabled(s, a) && t in s.starts && Live(s.starts[t].pc)
    ensures s.words.latched <= Apply(s, a).words.latched
  {
    hide Inv;
    WordShrinksOnlyInAbandon(s, a);
    if a.Clear? {
      StartHolds(s, t);
      StartHolds(s, a.sid);
    }
  }

  // ----- a start over a run

  /** Every start stays, keeps its configuration, and never goes back to an earlier stage. */
  lemma {:induction false} RunEvolves(states: seq<Process>, labels: seq<Label>, i: nat, j: nat, t: Sid)
    requires IsRun(states, labels) && KeepsHandles(states, labels) && i <= j < |states| && t in states[i].starts
    ensures t in states[j].starts && Stage(states[i].starts[t].pc) <= Stage(states[j].starts[t].pc)
    ensures states[i].starts[t].pc.Committed? ==> states[j].starts[t].pc.Committed?
    ensures states[i].starts[t].ready && Serving(states[i].starts[t].pc) ==>
              states[j].starts[t].ready && Serving(states[j].starts[t].pc)
    ensures states[j].starts[t].policy == states[i].starts[t].policy
      && states[j].starts[t].optIn == states[i].starts[t].optIn
    ensures states[i].starts[t].scan.Some? ==> states[j].starts[t].scan == states[i].starts[t].scan
    ensures states[i].starts[t].hookPanicked ==> states[j].starts[t].hookPanicked
    decreases j
  {
    hide Inv, Apply, Enabled, EngineGrows;
    if i < j {
      RunEvolves(states, labels, i, j - 1, t);
      RunInv(states, labels, j - 1);
      assert StepOf(states, labels, j - 1);
      StepEvolves(states[j - 1], labels[j - 1], t);
    }
  }

  /** A start runs under the policy and the opt-in that it was made with. */
  lemma ConfigurationIsKept(states: seq<Process>, labels: seq<Label>, i: nat, j: nat, sid: Sid, policy: Policy,
                            optIn: bool)
    requires IsRun(states, labels) && KeepsHandles(states, labels) && i < |labels| && i < j < |states|
    requires labels[i] == NewStart(sid, policy, optIn)
    ensures sid in states[j].starts && states[j].starts[sid].policy == policy && states[j].starts[sid].optIn == optIn
    ensures Live(states[j].starts[sid].pc) ==> states[j].words.denyUntil == optIn
  {
    hide Inv;
    assert StepOf(states, labels, i);
    RunEvolves(states, labels, i + 1, j, sid);
    if Live(states[j].starts[sid].pc) {
      RunInv(states, labels, j);
      OwnerOf(states[j], sid);
    }
  }

  /** While a runtime lives, the word and its engine latch only grow. */
  lemma {:induction false} LiveRunGrows(states: seq<Process>, labels: seq<Label>, i: nat, j: nat, t: Sid)
    requires IsRun(states, labels) && KeepsHandles(states, labels) && i <= j < |states| && t in states[i].starts
    requires Live(states[i].starts[t].pc) && t in states[j].starts && Live(states[j].starts[t].pc)
    ensures states[i].words.latched <= states[j].words.latched
    ensures states[i].starts[t].engine.latched <= states[j].starts[t].engine.latched
    decreases j
  {
    hide Inv, Apply, Enabled;
    if i < j {
      RunEvolves(states, labels, i, j - 1, t);
      RunEvolves(states, labels, j - 1, j, t);
      LiveRunGrows(states, labels, i, j - 1, t);
      RunInv(states, labels, j - 1);
      assert StepOf(states, labels, j - 1);
      StepEvolves(states[j - 1], labels[j - 1], t);
      WordGrows(states[j - 1], labels[j - 1], t);
    }
  }

  /** After a commit the slot never frees, no other start ever owns it, and no latch ever clears. */
  lemma CommitIsForever(states: seq<Process>, labels: seq<Label>, i: nat, j: nat, sid: Sid)
    requires IsRun(states, labels) && KeepsHandles(states, labels) && i <= j < |states|
    requires sid in states[i].starts && states[i].starts[sid].pc.Committed?
    ensures states[j].words.running && states[j].owner == Some(sid)
    ensures sid in states[j].starts && states[j].starts[sid].pc.Committed?
    ensures states[i].words.latched <= states[j].words.latched
  {
    RunEvolves(states, labels, i, j, sid);
    LiveRunGrows(states, labels, i, j, sid);
    RunInv(states, labels, j);
    OwnerOf(states[j], sid);
  }

  /** A start that lost the claim is never touched by a step again. */
  lemma LostStartIsStill(s: Process, a: Label, sid: Sid)
    requires Inv(s) && Enabled(s, a) && sid in s.starts && s.starts[sid].pc.Lost?
    ensures TouchedStart(s, a) != Some(sid)
  {
    hide Inv;
    StartHolds(s, sid);
    if a.Enqueue? { CallHolds(s, a.h); }
    if a.InSection? { SectionFacts(s, a.sid, a.locus); }
  }

  lemma LosingClaim(s: Process, sid: Sid)
    requires Enabled(s, Claim(sid)) && s.words.running
    ensures Apply(s, Claim(sid)) == PutStart(s, sid, s.starts[sid].(pc := Lost))
  {
  }

  /** A losing claim changes no word. */
  lemma LosingClaimChangesNoWord(states: seq<Process>, labels: seq<Label>, i: nat, sid: Sid)
    requires IsRun(states, labels) && i < |labels| && labels[i] == Claim(sid) && states[i].words.running
    ensures states[i + 1].words == states[i].words
    ensures sid in states[i + 1].starts && states[i + 1].starts[sid].pc.Lost?
  {
    assert StepOf(states, labels, i);
    LosingClaim(states[i], sid);
  }

  /** No later step of the run ever runs at a start that lost its claim. */
  lemma LoserNeverActs(states: seq<Process>, labels: seq<Label>, i: nat, j: nat, sid: Sid)
    requires IsRun(states, labels) && KeepsHandles(states, labels) && i <= j < |labels|
    requires sid in states[i].starts && states[i].starts[sid].pc.Lost?
    ensures TouchedStart(states[j], labels[j]) != Some(sid)
  {
    hide Inv, Apply, Enabled, TouchedStart;
    RunEvolves(states, labels, i, j, sid);
    RunInv(states, labels, j);
    RunEnabled(states, labels, j);
    LostStartIsStill(states[j], labels[j], sid);
  }

  // ----- a check and a snapshot, in either order

  /** Step `i` of the run is the word load of an `ensure_allowed` call on this runtime. */
  ghost predicate ReadsWord(states: seq<Process>, labels: seq<Label>, i: nat, sid: Sid)
    requires i < |labels| < |states|
  {
    labels[i].Load? && labels[i].h in states[i].ops && states[i].ops[labels[i].h].pc.LoadWord?
    && states[i].ops[labels[i].h].sid == sid
  }

  /** Step `i` of the run copies the engine latch into the snapshot of a call on this runtime. */
  ghost predicate CopiesLatch(states: seq<Process>, labels: seq<Label>, i: nat, sid: Sid)
    requires i < |labels| < |states|
  {
    labels[i].InSection? && labels[i].sid == sid && labels[i].locus.AtOp? && labels[i].step.RunInstr?
    && SectionAt(states[i], sid, labels[i].locus).Some?
    && var sec := SectionAt(states[i], sid, labels[i].locus).value;
       sec.phase.Ready? && |sec.todo| > 0 && sec.todo[0] == Copy
  }

  lemma ReaderIsServed(states: seq<Process>, labels: seq<Label>, i: nat, sid: Sid)
    requires IsRun(states, labels) && KeepsHandles(states, labels) && i < |labels|
    requires ReadsWord(states, labels, i, sid)
    ensures sid in states[i].starts && Live(states[i].starts[sid].pc)
    ensures states[i].starts[sid].engine.latched <= states[i].words.latched
  {
    RunInv(states, labels, i);
    assert CallInv(states[i], labels[i].h);
    OwnerOf(states[i], sid);
  }

  lemma CopierIsServed(states: seq<Process>, labels: seq<Label>, i: nat, sid: Sid)
    requires IsRun(states, labels) && KeepsHandles(states, labels) && i < |labels|
    requires CopiesLatch(states, labels, i, sid)
    ensures sid in states[i].starts && Live(states[i].starts[sid].pc)
    ensures states[i].starts[sid].engine.latched <= states[i].words.latched
    ensures !states[i].starts[sid].hookPanicked ==> states[i].starts[sid].engine.latched == states[i].words.latched
  {
    RunInv(states, labels, i);
    SectionFacts(states[i], sid, labels[i].locus);
  }

  /** A denial that a check reads is explained by every later snapshot, unless a hook panicked. */
  lemma LaterSnapshotExplainsTheCheck(states: seq<Process>, labels: seq<Label>, i: nat, j: nat, sid: Sid)
    requires IsRun(states, labels) && KeepsHandles(states, labels) && i < j < |labels|
    requires ReadsWord(states, labels, i, sid) && CopiesLatch(states, labels, j, sid)
    ensures sid in states[j].starts
    ensures !states[j].starts[sid].hookPanicked ==> states[i].words.latched <= states[j].starts[sid].engine.latched
  {
    ReaderIsServed(states, labels, i, sid);
    CopierIsServed(states, labels, j, sid);
    LiveRunGrows(states, labels, i, j, sid);
  }

  /** A latch that a snapshot shows denies every later check, hook panics included. */
  lemma LaterCheckDeniesTheSnapshot(states: seq<Process>, labels: seq<Label>, i: nat, j: nat, sid: Sid)
    requires IsRun(states, labels) && KeepsHandles(states, labels) && i < j < |labels|
    requires CopiesLatch(states, labels, i, sid) && ReadsWord(states, labels, j, sid)
    ensures sid in states[i].starts && states[i].starts[sid].engine.latched <= states[j].words.latched
  {
    CopierIsServed(states, labels, i, sid);
    ReaderIsServed(states, labels, j, sid);
    LiveRunGrows(states, labels, i, j, sid);
  }

  // ----- the first full scan

  /** What the flag promises: who set it, that every scanned detector ran, and that its denials are latched. */
  ghost predicate FullyScanned(s: Process, sid: Sid, scan: seq<(Detector, Outcome)>)
    requires sid in s.starts
  {
    var st := s.starts[sid];
    && st.ready && Serving(st.pc) && st.scan == Some(scan)
    && CoversInventory(scan)
    && |st.engine.slots| == |INVENTORY|
    && (forall i :: 0 <= i < |INVENTORY| && INVENTORY[i].id != HOST_REPORT.id ==> !st.engine.slots[i].outcome.NotRun?)
    && (forall k :: 0 <= k < |scan| && SelectsDeny(st.engine, st.policy, scan[k].0, scan[k].1) ==>
          scan[k].1.finding.category in s.words.latched)
  }

  lemma ReachedSlotRan(st: Start, scan: seq<(Detector, Outcome)>, i: nat)
    requires Covered(st.engine, st.policy, scan) && InventorySlots(st.engine)
    requires i < |INVENTORY| && INVENTORY[i].id != HOST_REPORT.id
    ensures !st.engine.slots[i].outcome.NotRun?
  {
    var id := INVENTORY[i].id;
    assert Reaches(scan, id);
    var k :| 0 <= k < |scan| && scan[k].0.id == id;
    assert Settled(st.engine, st.policy, scan[k], {});
    assert forall j :: 0 <= j < i ==> INVENTORY[j].id != id;
    FindSlotUnique(st.engine.slots, id, i);
  }

  lemma FlagMeansFullyScanned(s: Process)
    requires Inv(s) && s.words.scanDone
    ensures s.owner.Some? && s.owner.value in s.starts && s.starts[s.owner.value].scan.Some?
    ensures FullyScanned(s, s.owner.value, s.starts[s.owner.value].scan.value)
  {
    var sid := s.owner.value;
    StartHolds(s, sid);
    OwnerOf(s, sid);
    var st := s.starts[sid];
    forall i | 0 <= i < |INVENTORY| && INVENTORY[i].id != HOST_REPORT.id ensures !st.engine.slots[i].outcome.NotRun? {
      ReachedSlotRan(st, st.scan.value, i);
    }
    forall k | 0 <= k < |st.scan.value| && SelectsDeny(st.engine, st.policy, st.scan.value[k].0, st.scan.value[k].1)
      ensures st.scan.value[k].1.finding.category in s.words.latched
    {
      assert Settled(st.engine, st.policy, st.scan.value[k], {});
    }
  }

  /**
   Once the flag is set it stays set, and from then on, at every step, the same scan of the same
   ready runtime covers the inventory with its denials in the word.
   */
  lemma FullScanFlagIsForGood(states: seq<Process>, labels: seq<Label>, i: nat, j: nat)
    requires IsRun(states, labels) && KeepsHandles(states, labels) && i <= j < |states| && states[i].words.scanDone
    ensures states[j].words.scanDone
    ensures states[i].owner.Some? && states[i].owner.value in states[i].starts
      && states[i].owner.value in states[j].starts
    ensures var sid := states[i].owner.value;
      states[i].starts[sid].scan.Some? && FullyScanned(states[j], sid, states[i].starts[sid].scan.value)
  {
    RunInv(states, labels, i);
    FlagMeansFullyScanned(states[i]);
    var sid := states[i].owner.value;
    RunEvolves(states, labels, i, j, sid);
    RunInv(states, labels, j);
    OwnerOf(states[j], sid);
    FlagMeansFullyScanned(states[j]);
  }

  // ----- the check and the wait

  /**
   A check that returns `Ok` on a runtime that opted in read the flag set with its last load; and a
   check whose first load already had the flag set returned `Ok` only because the scan denied nothing.
   */
  lemma AllowedCheckSawCoverage(states: seq<Process>, labels: seq<Label>, i: nat, h: Hid)
    requires IsRun(states, labels) && KeepsHandles(states, labels) && i < |states|
    requires h in states[i].ops && states[i].ops[h].pc.Finished? && states[i].ops[h].pc.result.Allowed?
    ensures states[i].ops[h].sid in states[i].starts
    ensures states[i].starts[states[i].ops[h].sid].optIn ==> states[i].ops[h].pc.result.checked
    ensures states[i].ops[h].pc.result.since ==>
      var st := states[i].starts[states[i].ops[h].sid];
      st.scan.Some? && forall k :: 0 <= k < |st.scan.value| ==>
        !SelectsDeny(st.engine, st.policy, st.scan.value[k].0, st.scan.value[k].1)
  {
    RunInv(states, labels, i);
    assert CallInv(states[i], h);
  }

  /** A wait that reports completion returns only after the flag is set. */
  lemma WaitReturnsAfterTheFlag(states: seq<Process>, labels: seq<Label>, i: nat, h: Hid)
    requires IsRun(states, labels) && KeepsHandles(states, labels) && i < |labels|
    requires labels[i] == Load(h) || (labels[i].WaitCheck? && labels[i].h == h)
    requires h in states[i + 1].ops && states[i + 1].ops[h].pc == Finished(Waited(true))
    ensures states[i].words.scanDone
  {
    RunInv(states, labels, i);
    assert StepOf(states, labels, i);
    assert CallInv(states[i], h);
    OwnerOf(states[i], states[i].ops[h].sid);
  }
}
