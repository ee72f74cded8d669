/**
 What a host sees of the two latches: the answers of one call against those of a call that begins after it returned.
 */
module ProtocolCalls {
  import opened Types
  import opened Engine
  import opened Protocol
  import opened ProtocolInvariant
  import opened ProtocolSteps
  import opened ProtocolTheorems

  /** The step is a step of this call. */
  predicate Involves(a: Label, h: Hid) {
    match a
    case InSection(_, locus, _) => locus == AtOp(h)
    case BeginOp(g, _, _, _) => g == h
    case Enqueue(g) => g == h
    case Load(g) => g == h
    case WaitAcquire(g) => g == h
    case WaitCheck(g, _) => g == h
    case _ => false
  }

  /** A call appears only when it begins, and changes only by its own steps. */
  lemma CallStays(s: Process, a: Label, h: Hid)
    requires Enabled(s, a) && !Involves(a, h)
    ensures (h in Apply(s, a).ops <==> h in s.ops) && (h in s.ops ==> Apply(s, a).ops[h] == s.ops[h])
  {
    hide ApplySection, SectionEnabled;
    if a.InSection? { SectionKeepsCall(s, a.sid, a.locus, a.step, h); }
  }

  lemma SectionKeepsCall(s: Process, sid: Sid, locus: Locus, step: SectionStep, h: Hid)
    requires SectionEnabled(s, sid, locus, step) && locus != AtOp(h)
    ensures var s' := ApplySection(s, sid, locus, step);
      (h in s'.ops <==> h in s.ops) && (h in s.ops ==> s'.ops[h] == s.ops[h])
  {
    hide StayStep;
  }

  // ----- a snapshot, step by step

  /** A snapshot call on this runtime has not copied yet, or its copy holds at least these categories. */
  ghost predicate SnapsAtLeast(s: Process, g: Hid, sid: Sid, c: set<Category>) {
    g in s.ops && s.ops[g].sid == sid ==>
      match s.ops[g].pc
      case Critical(sec) => s.ops[g].kind.SnapshotOp? ==> sec.todo == [Copy] || (sec.todo == [] && c <= sec.copied)
      case Finished(Snapped(l)) => c <= l
      case _ => true
  }

  /** The step that copies the latch of this runtime for this call. */
  predicate Copies(s: Process, a: Label, g: Hid, sid: Sid) {
    && a == InSection(sid, AtOp(g), RunInstr) && SectionAt(s, sid, AtOp(g)).Some?
    && SectionAt(s, sid, AtOp(g)).value.phase.Ready?
    && |SectionAt(s, sid, AtOp(g)).value.todo| > 0 && SectionAt(s, sid, AtOp(g)).value.todo[0] == Copy
  }

  lemma SnapStep(s: Process, a: Label, g: Hid, sid: Sid, c: set<Category>)
    requires Enabled(s, a) && SnapsAtLeast(s, g, sid, c)
    requires Copies(s, a, g, sid) ==> c <= s.starts[sid].engine.latched
    ensures SnapsAtLeast(Apply(s, a), g, sid, c)
  {
    hide ApplySection, SectionEnabled;
    if Involves(a, g) {
      if a.InSection? { SnapSectionStep(s, a.sid, g, a.step, sid, c); }
    } else {
      CallStays(s, a, g);
    }
  }

  lemma SnapSectionStep(s: Process, t: Sid, g: Hid, step: SectionStep, sid: Sid, c: set<Category>)
    requires SectionEnabled(s, t, AtOp(g), step) && SnapsAtLeast(s, g, sid, c)
    requires Copies(s, InSection(t, AtOp(g), step), g, sid) ==> c <= s.starts[sid].engine.latched
    ensures SnapsAtLeast(ApplySection(s, t, AtOp(g), step), g, sid, c)
  {
    hide RecordOutcome, Selected;
  }

  /** From the word load of one call on, a snapshot call that begins later copies at least what the load read. */
  lemma {:induction false} LaterSnapshots(states: seq<Process>, labels: seq<Label>, i: nat, j: nat, sid: Sid, g: Hid)
    requires IsRun(states, labels) && KeepsHandles(states, labels) && i < j < |states|
    requires ReadsWord(states, labels, i, sid) && g !in states[i + 1].ops
    requires sid in states[j].starts && !states[j].starts[sid].hookPanicked
    ensures SnapsAtLeast(states[j], g, sid, states[i].words.latched)
    decreases j
  {
    hide Inv, Enabled, Apply, Copies;
    if j > i + 1 {
      ReaderIsServed(states, labels, i, sid);
      RunEvolves(states, labels, i, j - 1, sid);
      RunEvolves(states, labels, j - 1, j, sid);
      LaterSnapshots(states, labels, i, j - 1, sid, g);
      assert StepOf(states, labels, j - 1);
      if Copies(states[j - 1], labels[j - 1], g, sid) {
        CopyIsACopy(states, labels, j - 1, sid, g);
        LaterSnapshotExplainsTheCheck(states, labels, i, j - 1, sid);
      }
      SnapStep(states[j - 1], labels[j - 1], g, sid, states[i].words.latched);
    }
  }

  lemma CopyIsACopy(states: seq<Process>, labels: seq<Label>, j: nat, sid: Sid, g: Hid)
    requires j < |labels| < |states| && Copies(states[j], labels[j], g, sid)
    ensures CopiesLatch(states, labels, j, sid)
  {
  }

  /**
   A check that returned a denial is explained by every snapshot call that begins after it and returns, unless a hook of
   the runtime panicked: what the snapshot returns contains what the check returned.
   */
  lemma DenialIsExplained(states: seq<Process>, labels: seq<Label>, i: nat, k: nat, h: Hid, g: Hid,
                          c: set<Category>, l: set<Category>)
    requires IsRun(states, labels) && KeepsHandles(states, labels) && i < |labels| && i < k < |states|
    requires labels[i] == Load(h) && h in states[i].ops && !states[i].ops[h].pc.Finished?
    requires h in states[i + 1].ops && states[i + 1].ops[h].pc == Finished(Denied(c))
    requires g !in states[i + 1].ops && g in states[k].ops && states[k].ops[g].sid == states[i].ops[h].sid
    requires states[k].ops[g].pc == Finished(Snapped(l))
    ensures states[k].ops[g].sid in states[k].starts
    ensures !states[k].starts[states[k].ops[g].sid].hookPanicked ==> c <= l
  {
    hide Inv;
    var sid := states[i].ops[h].sid;
    assert StepOf(states, labels, i);
    assert ReadsWord(states, labels, i, sid) && c == states[i].words.latched;
    ReaderIsServed(states, labels, i, sid);
    RunEvolves(states, labels, i, k, sid);
    if !states[k].starts[sid].hookPanicked { LaterSnapshots(states, labels, i, k, sid, g); }
  }

  // ----- a check, step by step

  /** What a call has copied so far is in the engine latch of its runtime. */
  ghost predicate CopiedIsLatched(s: Process, g: Hid) {
    g in s.ops && s.ops[g].pc.Critical? ==>
      s.ops[g].sid in s.starts && s.ops[g].pc.sec.copied <= s.starts[s.ops[g].sid].engine.latched
  }

  lemma CopiedStep(s: Process, a: Label, g: Hid)
    requires Inv(s) && Enabled(s, a) && CopiedIsLatched(s, g)
    ensures CopiedIsLatched(Apply(s, a), g)
  {
    hide Inv, ApplySection, SectionEnabled, ApplyClear, ApplyMark;
    if a.InSection? && Involves(a, g) {
      CopiedSectionStep(s, a.sid, g, a.step);
    } else if !Involves(a, g) {
      CallStays(s, a, g);
      if g in s.ops && s.ops[g].pc.Critical? { CriticalGrows(s, a, g); }
    }
  }

  /** The engine latch of a runtime that serves a call only grows. */
  lemma CriticalGrows(s: Process, a: Label, g: Hid)
    requires Inv(s) && Enabled(s, a) && g in s.ops && s.ops[g].pc.Critical?
    ensures s.ops[g].sid in s.starts && s.ops[g].sid in Apply(s, a).starts
    ensures s.starts[s.ops[g].sid].engine.latched <= Apply(s, a).starts[s.ops[g].sid].engine.latched
  {
    hide Inv, Apply, Enabled;
    CallHolds(s, g);
    StepEvolves(s, a, s.ops[g].sid);
  }

  lemma CopiedSectionStep(s: Process, t: Sid, g: Hid, step: SectionStep)
    requires Inv(s) && SectionEnabled(s, t, AtOp(g), step) && CopiedIsLatched(s, g)
    ensures CopiedIsLatched(ApplySection(s, t, AtOp(g), step), g)
  {
    hide Inv, RecordOutcome, Selected, OwnerInv, OpInv;
    SectionFacts(s, t, AtOp(g));
    SectionEvolves(s, t, AtOp(g), step);
  }

  lemma {:induction false} RunCopied(states: seq<Process>, labels: seq<Label>, i: nat, g: Hid)
    requires IsRun(states, labels) && KeepsHandles(states, labels) && i < |states|
    ensures CopiedIsLatched(states[i], g)
    decreases i
  {
    hide Inv, Enabled, Apply;
    if i > 0 {
      RunCopied(states, labels, i - 1, g);
      RunInv(states, labels, i - 1);
      assert StepOf(states, labels, i - 1);
      CopiedStep(states[i - 1], labels[i - 1], g);
    }
  }

  /** A check on this runtime has not read the word yet, or it returned a denial of at least these categories. */
  ghost predicate DeniesAtLeast(s: Process, h: Hid, sid: Sid, l: set<Category>) {
    h in s.ops && s.ops[h].sid == sid && s.ops[h].kind.EnsureOp? ==>
      s.ops[h].pc.LoadWord?
      || (s.ops[h].pc.Finished? && s.ops[h].pc.result.Denied? && l <= s.ops[h].pc.result.categories)
  }

  lemma DenyStep(s: Process, a: Label, h: Hid, sid: Sid, l: set<Category>)
    requires Enabled(s, a) && DeniesAtLeast(s, h, sid, l) && l != {}
    requires a == Load(h) && s.ops[h].pc.LoadWord? && s.ops[h].sid == sid ==> l <= s.words.latched
    ensures DeniesAtLeast(Apply(s, a), h, sid, l)
  {
    hide ApplySection, SectionEnabled;
    if Involves(a, h) {
      if a.InSection? { DenySectionStep(s, a.sid, h, a.step, sid, l); }
    } else {
      CallStays(s, a, h);
    }
  }

  lemma DenySectionStep(s: Process, t: Sid, h: Hid, step: SectionStep, sid: Sid, l: set<Category>)
    requires SectionEnabled(s, t, AtOp(h), step) && DeniesAtLeast(s, h, sid, l)
    ensures DeniesAtLeast(ApplySection(s, t, AtOp(h), step), h, sid, l)
  {
    hide StayStep;
  }

  lemma {:induction false} LaterChecks(states: seq<Process>, labels: seq<Label>, i: nat, j: nat, sid: Sid, h: Hid,
                                       l: set<Category>)
    requires IsRun(states, labels) && KeepsHandles(states, labels) && i < j < |states|
    requires sid in states[i].starts && Live(states[i].starts[sid].pc) && l <= states[i].starts[sid].engine.latched
    requires l != {} && h !in states[i + 1].ops
    ensures DeniesAtLeast(states[j], h, sid, l)
    decreases j
  {
    hide Inv, Enabled, Apply;
    if j > i + 1 {
      LaterChecks(states, labels, i, j - 1, sid, h, l);
      assert StepOf(states, labels, j - 1);
      var s, a := states[j - 1], labels[j - 1];
      if a == Load(h) && h in s.ops && s.ops[h].pc.LoadWord? && s.ops[h].sid == sid {
        assert ReadsWord(states, labels, j - 1, sid);
        ReaderIsServed(states, labels, j - 1, sid);
        LiveRunGrows(states, labels, i, j - 1, sid);
      }
      LoadOfACall(s, a);
      DenyStep(s, a, h, sid, l);
    }
  }

  lemma LoadOfACall(s: Process, a: Label)
    requires Enabled(s, a)
    ensures a.Load? ==> a.h in s.ops
  {
  }

  /**
   A latch that a snapshot returned denies every check that begins after it and returns, hook panics included: the check
   returns a denial that contains what the snapshot returned, and never an Ok or a coverage gap.
   */
  lemma SnapshotIsDenied(states: seq<Process>, labels: seq<Label>, i: nat, k: nat, g: Hid, h: Hid, l: set<Category>)
    requires IsRun(states, labels) && KeepsHandles(states, labels) && i < |labels| && i < k < |states|
    requires g in states[i].ops && labels[i] == InSection(states[i].ops[g].sid, AtOp(g), Release)
    requires g in states[i + 1].ops && states[i + 1].ops[g].pc == Finished(Snapped(l)) && l != {}
    requires h !in states[i + 1].ops && h in states[k].ops && states[k].ops[h].sid == states[i].ops[g].sid
    requires states[k].ops[h].kind.EnsureOp? && states[k].ops[h].pc.Finished?
    ensures states[k].ops[h].pc.result.Denied? && l <= states[k].ops[h].pc.result.categories
  {
    hide Inv;
    var sid := states[i].ops[g].sid;
    assert StepOf(states, labels, i);
    RunInv(states, labels, i);
    RunCopied(states, labels, i, g);
    SectionFacts(states[i], sid, AtOp(g));
    ReleaseReturns(states[i], sid, g);
    LaterChecks(states, labels, i, k, sid, h, l);
  }

  /** What a snapshot returns is what its section copied. */
  lemma ReleaseReturns(s: Process, sid: Sid, g: Hid)
    requires SectionEnabled(s, sid, AtOp(g), Release)
    ensures var s' := ApplySection(s, sid, AtOp(g), Release);
      && g in s'.ops
      && (s'.ops[g].pc.Finished? && s'.ops[g].pc.result.Snapped? ==>
            s'.ops[g].pc.result.latched == SectionAt(s, sid, AtOp(g)).value.copied)
  {
  }

  // ----- what the last step of a check or of a wait says

  /** The call returns with this step. */
  ghost predicate Returns(states: seq<Process>, labels: seq<Label>, i: nat, h: Hid)
    requires i < |labels| < |states|
  {
    h in states[i].ops && !states[i].ops[h].pc.Finished? && h in states[i + 1].ops && states[i + 1].ops[h].pc.Finished?
  }

  /** A call that does not hold the state lock is at one of its loads, or at its wait. */
  predicate Loads(op: Op) {
    match op.kind
    case EnsureOp =>
      op.pc.LoadWord? || op.pc.LoadDeny? || op.pc.LoadScan?
      || (op.pc.Finished? && (op.pc.result.Denied? || op.pc.result.Incomplete? || op.pc.result.Allowed?))
    case WaitOp =>
      op.pc.WaitLoad? || op.pc.WaitWant? || op.pc.WaitHold? || (op.pc.Finished? && op.pc.result.Waited?)
    case _ => true
  }

  lemma LoadsStep(s: Process, a: Label, h: Hid)
    requires Enabled(s, a) && (h in s.ops ==> Loads(s.ops[h]))
    ensures h in Apply(s, a).ops ==> Loads(Apply(s, a).ops[h])
  {
    hide ApplySection, SectionEnabled;
    if !Involves(a, h) {
      CallStays(s, a, h);
    } else if a.InSection? {
      SectionOfACall(s, a.sid, h, a.step);
      LoadsSectionStep(s, a.sid, h, a.step);
    }
  }

  lemma SectionOfACall(s: Process, t: Sid, h: Hid, step: SectionStep)
    requires SectionEnabled(s, t, AtOp(h), step)
    ensures t in s.starts && h in s.ops && s.ops[h].sid == t && s.ops[h].pc.Critical?
  {
  }

  lemma LoadsSectionStep(s: Process, t: Sid, h: Hid, step: SectionStep)
    requires SectionEnabled(s, t, AtOp(h), step) && Loads(s.ops[h])
    ensures h in ApplySection(s, t, AtOp(h), step).ops && Loads(ApplySection(s, t, AtOp(h), step).ops[h])
  {
    hide StayStep;
  }

  lemma {:induction false} RunLoads(states: seq<Process>, labels: seq<Label>, i: nat, h: Hid)
    requires IsRun(states, labels) && i < |states|
    ensures h in states[i].ops ==> Loads(states[i].ops[h])
    decreases i
  {
    hide Enabled, Apply, Loads;
    if i > 0 {
      RunLoads(states, labels, i - 1, h);
      assert StepOf(states, labels, i - 1);
      LoadsStep(states[i - 1], labels[i - 1], h);
    }
  }

  /** A check loads the flag only on a runtime that opted in. */
  ghost predicate ScanLoadOptsIn(s: Process, h: Hid) {
    h in s.ops && s.ops[h].pc.LoadScan? ==> s.ops[h].sid in s.starts && s.starts[s.ops[h].sid].optIn
  }

  lemma ScanLoadStep(s: Process, a: Label, h: Hid)
    requires Inv(s) && Enabled(s, a) && ScanLoadOptsIn(s, h)
    ensures ScanLoadOptsIn(Apply(s, a), h)
  {
    hide Inv, ApplySection, SectionEnabled, ApplyClear, ApplyMark;
    if !Involves(a, h) {
      CallStays(s, a, h);
      if h in s.ops && s.ops[h].pc.LoadScan? { StepEvolves(s, a, s.ops[h].sid); }
    } else if a.InSection? {
      SectionIsNoLoad(s, a.sid, h, a.step);
    } else if a == Load(h) {
      WindowIsOptIn(s, h);
    }
  }

  lemma SectionIsNoLoad(s: Process, t: Sid, h: Hid, step: SectionStep)
    requires SectionEnabled(s, t, AtOp(h), step)
    ensures h in ApplySection(s, t, AtOp(h), step).ops && !ApplySection(s, t, AtOp(h), step).ops[h].pc.LoadScan?
  {
    hide StayStep;
  }

  lemma {:induction false} RunScanLoads(states: seq<Process>, labels: seq<Label>, i: nat, h: Hid)
    requires IsRun(states, labels) && KeepsHandles(states, labels) && i < |states|
    ensures ScanLoadOptsIn(states[i], h)
    decreases i
  {
    hide Inv, Enabled, Apply;
    if i > 0 {
      RunScanLoads(states, labels, i - 1, h);
      RunInv(states, labels, i - 1);
      assert StepOf(states, labels, i - 1);
      ScanLoadStep(states[i - 1], labels[i - 1], h);
    }
  }

  /**
   What a check says at the step it returns: a denial lists exactly the word, and that is not empty; a coverage gap is
   answered only under the opt-in and while the flag is not set, and never once the first full scan is complete.
   */
  lemma CheckAnswers(states: seq<Process>, labels: seq<Label>, i: nat, h: Hid)
    requires IsRun(states, labels) && KeepsHandles(states, labels) && i < |labels| && Returns(states, labels, i, h)
    requires states[i].ops[h].kind.EnsureOp?
    ensures states[i].ops[h].sid in states[i].starts
    ensures var result, w := states[i + 1].ops[h].pc.result, states[i].words;
      match result
      case Denied(c) => c == w.latched && c != {}
      case Incomplete => states[i].starts[states[i].ops[h].sid].optIn && !w.scanDone
      case Allowed(_, checked) => checked || !states[i].starts[states[i].ops[h].sid].optIn
      case _ => false
  {
    hide Inv, OwnerInv;
    RunInv(states, labels, i);
    RunLoads(states, labels, i, h);
    RunScanLoads(states, labels, i, h);
    assert StepOf(states, labels, i);
    WindowIsOptIn(states[i], h);
    ReturningStep(states[i], labels[i], h);
  }

  /** While a call is open, the word of the startup window is the opt-in of its runtime. */
  lemma WindowIsOptIn(s: Process, h: Hid)
    requires Inv(s) && h in s.ops && !s.ops[h].pc.Finished?
    ensures s.ops[h].sid in s.starts && s.words.denyUntil == s.starts[s.ops[h].sid].optIn
    ensures s.words.scanDone ==> s.words.waitDone
  {
    hide Inv;
    CallHolds(s, h);
    OwnerOf(s, s.ops[h].sid);
  }

  lemma ReturningStep(s: Process, a: Label, h: Hid)
    requires Enabled(s, a) && h in s.ops && !s.ops[h].pc.Finished? && h in Apply(s, a).ops
      && Apply(s, a).ops[h].pc.Finished?
    requires Loads(s.ops[h]) && (s.ops[h].kind.EnsureOp? || s.ops[h].kind.WaitOp?)
    ensures a == Load(h) || (a.WaitCheck? && a.h == h)
  {
    hide ApplySection;
    if !Involves(a, h) { CallStays(s, a, h); }
  }

  /**
   What a wait says at the step it returns: completion exactly when the scan is marked, and otherwise it timed out. So
   once the flag is set, every wait that returns answers completion.
   */
  lemma WaitAnswers(states: seq<Process>, labels: seq<Label>, i: nat, h: Hid)
    requires IsRun(states, labels) && KeepsHandles(states, labels) && i < |labels| && Returns(states, labels, i, h)
    requires states[i].ops[h].kind.WaitOp?
    ensures states[i + 1].ops[h].pc.result.Waited?
    ensures states[i].words.scanDone ==> states[i + 1].ops[h].pc.result == Waited(true)
    ensures states[i + 1].ops[h].pc.result == Waited(false)
      ==> labels[i] == WaitCheck(h, true) && !states[i].words.waitDone
  {
    hide Inv, OwnerInv;
    RunInv(states, labels, i);
    RunLoads(states, labels, i, h);
    assert StepOf(states, labels, i);
    WindowIsOptIn(states[i], h);
    ReturningStep(states[i], labels[i], h);
  }

  /** Once the flag is set, no later wait times out and no later check reports a coverage gap. */
  lemma CompleteAfterTheFlag(states: seq<Process>, labels: seq<Label>, i: nat, j: nat, h: Hid)
    requires IsRun(states, labels) && KeepsHandles(states, labels) && i <= j < |labels| && Returns(states, labels, j, h)
    requires states[i].words.scanDone
    ensures states[j].ops[h].kind.WaitOp? ==> states[j + 1].ops[h].pc.result == Waited(true)
    ensures states[j].ops[h].kind.EnsureOp? ==> !states[j + 1].ops[h].pc.result.Incomplete?
  {
    hide Inv;
    FullScanFlagIsForGood(states, labels, i, j);
    if states[j].ops[h].kind.WaitOp? { WaitAnswers(states, labels, j, h); }
    if states[j].ops[h].kind.EnsureOp? { CheckAnswers(states, labels, j, h); }
  }
}
