/**
 What a recording section records, over every run of the process: the outcomes of the scan that began it, each of them
 once and in order, and all of them before the runtime goes on.
 */
module ProtocolScans {
  import opened Types
  import opened Engine
  import opened Detect
  import opened Protocol
  import opened ProtocolInvariant
  import opened ProtocolSteps
  import opened ProtocolTheorems
  import opened ProtocolHistory
  import ProtocolDeny

  /** The scan that a runtime records, and how many of its outcomes reached the retained state. */
  datatype Recording = Recording(scan: seq<(Detector, Outcome)>, recorded: nat)

  /** The outcome that a step of the starting thread or of the worker delivers, if it delivers one. */
  function OutcomeOf(s: Process, a: Label, sid: Sid): Option<(Detector, Outcome)> {
    var e := EventOf(s, a, sid);
    if a.InSection? && !a.locus.AtOp? && e.Some? && e.value.Scanned? then Some((e.value.detector, e.value.outcome))
    else None
  }

  function RecordingAfter(s: Process, a: Label, sid: Sid, r: Recording): Recording {
    match a
    case BeginRecord(t, outcomes) => if t == sid then Recording(outcomes, 0) else r
    case BeginScan(t, outcomes) => if t == sid then Recording(outcomes, 0) else r
    case _ => if OutcomeOf(s, a, sid).Some? then r.(recorded := r.recorded + 1) else r
  }

  function RecordingOf(states: seq<Process>, labels: seq<Label>, i: nat, sid: Sid): Recording
    requires i <= |labels| <= |states|
  {
    if i == 0 then Recording([], 0)
    else RecordingAfter(states[i - 1], labels[i - 1], sid, RecordingOf(states, labels, i - 1, sid))
  }

  /** The section has the rest of the scan still to record. */
  predicate Rests(sec: Section, r: Recording) {
    && r.recorded <= |r.scan| && |sec.todo| == |r.scan| - r.recorded
    && forall k :: 0 <= k < |sec.todo| ==>
         sec.todo[k] == Rec(r.scan[r.recorded + k].0, r.scan[r.recorded + k].1)
  }

  predicate Records(st: Start, r: Recording) {
    && (st.pc.Initial? ==> Rests(st.pc.sec, r))
    && (st.worker.ScanSection? ==> Rests(st.worker.sec, r))
    && (st.worker.HealthSection? ==>
          (st.worker.sec.todo != [] ==> st.worker.sec.todo[0].HealthRec? && |st.worker.sec.todo| == 1))
    && (st.pc.Recorded? || (Working(st.worker) && !st.worker.ScanSection?) ==> r.recorded == |r.scan|)
  }

  lemma RestsOnward(st: Start, sec: Section, word: set<Category>, step: SectionStep, r: Recording)
    requires Rests(sec, r)
    requires step.RunInstr? ==> sec.todo != []
    requires step.CallHook? ==> sec.phase.Hooking?
    requires step.Insert? ==> sec.phase.Latching?
    ensures Rests(StayStep(st, sec, word, step).1, if step.RunInstr? then r.(recorded := r.recorded + 1) else r)
  {
    hide RecordOutcome, Selected;
  }

  lemma StartSectionRecords(s: Process, sid: Sid, step: SectionStep, r: Recording)
    requires SectionEnabled(s, sid, AtStart, step) && Records(s.starts[sid], r) && s.starts[sid].worker.NoWorker?
    ensures sid in ApplySection(s, sid, AtStart, step).starts
    ensures Records(ApplySection(s, sid, AtStart, step).starts[sid],
                    RecordingAfter(s, InSection(sid, AtStart, step), sid, r))
  {
    hide StayStep, Rests;
    var st := s.starts[sid];
    RestsHead(st.pc.sec, r);
    if !step.Release? && !step.PanicHook? { RestsOnward(st, st.pc.sec, s.words.latched, step, r); }
  }

  /** The next instruction of the section records the next outcome of the scan, and there is one while there is more. */
  lemma RestsHead(sec: Section, r: Recording)
    requires Rests(sec, r)
    ensures sec.todo != [] ==>
      r.recorded < |r.scan| && sec.todo[0] == Rec(r.scan[r.recorded].0, r.scan[r.recorded].1)
    ensures sec.todo == [] ==> r.recorded == |r.scan|
  {
  }

  lemma ScanSectionRecords(s: Process, sid: Sid, step: SectionStep, r: Recording)
    requires SectionEnabled(s, sid, AtWorker, step) && Records(s.starts[sid], r) && s.starts[sid].worker.ScanSection?
    requires Serving(s.starts[sid].pc)
    ensures sid in ApplySection(s, sid, AtWorker, step).starts
    ensures Records(ApplySection(s, sid, AtWorker, step).starts[sid],
                    RecordingAfter(s, InSection(sid, AtWorker, step), sid, r))
  {
    hide StayStep, Rests;
    var st := s.starts[sid];
    RestsHead(st.worker.sec, r);
    if !step.Release? && !step.PanicHook? { RestsOnward(st, st.worker.sec, s.words.latched, step, r); }
  }

  lemma HealthSectionRecords(s: Process, sid: Sid, step: SectionStep, r: Recording)
    requires SectionEnabled(s, sid, AtWorker, step) && Records(s.starts[sid], r) && s.starts[sid].worker.HealthSection?
    requires Serving(s.starts[sid].pc)
    ensures sid in ApplySection(s, sid, AtWorker, step).starts
    ensures Records(ApplySection(s, sid, AtWorker, step).starts[sid],
                    RecordingAfter(s, InSection(sid, AtWorker, step), sid, r))
  {
    hide Rests, RecordOutcome, Selected;
  }

  lemma CallSectionRecords(s: Process, sid: Sid, h: Hid, step: SectionStep, r: Recording)
    requires SectionEnabled(s, sid, AtOp(h), step) && Records(s.starts[sid], r)
    ensures sid in ApplySection(s, sid, AtOp(h), step).starts
    ensures Records(ApplySection(s, sid, AtOp(h), step).starts[sid], r)
  {
    hide StayStep, Rests;
  }

  lemma SectionRecords(s: Process, sid: Sid, locus: Locus, step: SectionStep, r: Recording)
    requires Inv(s) && SectionEnabled(s, sid, locus, step) && Records(s.starts[sid], r)
    ensures sid in ApplySection(s, sid, locus, step).starts
    ensures Records(ApplySection(s, sid, locus, step).starts[sid],
                    RecordingAfter(s, InSection(sid, locus, step), sid, r))
  {
    hide Inv, ApplySection, Rests, CoverageInv, LockInv, Records, EventOf;
    ProtocolDeny.SectionOfAStart(s, sid, locus, step);
    StartHolds(s, sid);
    match locus
    case AtStart => StartSectionRecords(s, sid, step, r);
    case AtOp(h) => CallSectionRecords(s, sid, h, step, r);
    case AtWorker =>
      if s.starts[sid].worker.ScanSection? {
        ScanSectionRecords(s, sid, step, r);
      } else {
        HealthSectionRecords(s, sid, step, r);
      }
  }

  /** The steps that begin a section. */
  lemma BeginRecords(s: Process, a: Label, sid: Sid, r: Recording)
    requires Inv(s) && Enabled(s, a) && (a.BeginRecord? || a.BeginScan? || a.LeaveCallback?) && a.sid == sid
    requires Records(s.starts[sid], r)
    ensures sid in Apply(s, a).starts && Records(Apply(s, a).starts[sid], RecordingAfter(s, a, sid, r))
  {
    hide Inv, CoverageInv, LockInv;
    StartHolds(s, sid);
  }

  /** Neither the starting thread nor the worker begins or leaves a section, and only a recorded start gets a worker. */
  predicate KeepsPlaces(st: Start, st': Start) {
    && (st'.pc == st.pc || (!st'.pc.Initial? && (st'.pc.Recorded? ==> st.pc.Recorded?)))
    && (st'.worker == st.worker || (!HasSection(st.worker) && !HasSection(st'.worker)))
    && (Working(st'.worker) ==> Working(st.worker) || st.pc.Recorded?)
  }

  lemma KeepsPlacesRecords(st: Start, st': Start, r: Recording)
    requires KeepsPlaces(st, st') && Records(st, r)
    ensures Records(st', r)
  {
    hide Rests;
  }

  lemma StartKeepsPlaces(s: Process, a: Label, sid: Sid)
    requires Enabled(s, a) && TouchedStart(s, a) == Some(sid) && sid in s.starts
    requires a.Claim? || a.OpenWindow? || a.Spawn? || a.FailStart? || a.WorkerStopped? || a.Commit?
    requires s.starts[sid].pc.Recorded? ==> s.starts[sid].worker.NoWorker?
    ensures sid in Apply(s, a).starts && KeepsPlaces(s.starts[sid], Apply(s, a).starts[sid])
  {
  }

  lemma WorkerKeepsPlaces(s: Process, a: Label, sid: Sid)
    requires Enabled(s, a) && TouchedStart(s, a) == Some(sid) && sid in s.starts
    requires a.Dispatch? || a.Leak? || a.SendReady? || a.TakePending? || a.StopWorker? || a.Enqueue?
    ensures sid in Apply(s, a).starts && KeepsPlaces(s.starts[sid], Apply(s, a).starts[sid])
  {
  }

  lemma MarkKeepsPlaces(s: Process, sid: Sid)
    requires sid in s.starts && MarkEnabled(s, sid)
    ensures sid in ApplyMark(s, sid).starts && KeepsPlaces(s.starts[sid], ApplyMark(s, sid).starts[sid])
  {
  }

  lemma StepRecords(s: Process, a: Label, sid: Sid, r: Recording)
    requires Inv(s) && Enabled(s, a) && sid in s.starts && Records(s.starts[sid], r)
    ensures sid in Apply(s, a).starts && Records(Apply(s, a).starts[sid], RecordingAfter(s, a, sid, r))
  {
    hide Inv, ApplySection, SectionEnabled, ApplyClear, ClearEnabled, ApplyMark, MarkEnabled, Records, KeepsPlaces;
    if TouchedStart(s, a) != Some(sid) {
      OtherStartsStay(s, a, sid);
    } else if a.InSection? {
      SectionRecords(s, sid, a.locus, a.step, r);
    } else if a.BeginRecord? || a.BeginScan? || a.LeaveCallback? {
      BeginRecords(s, a, sid, r);
    } else {
      OtherKeepsPlaces(s, a, sid);
      KeepsPlacesRecords(s.starts[sid], Apply(s, a).starts[sid], r);
    }
  }

  lemma OtherKeepsPlaces(s: Process, a: Label, sid: Sid)
    requires Inv(s) && Enabled(s, a) && TouchedStart(s, a) == Some(sid) && sid in s.starts
    requires !a.InSection? && !a.BeginRecord? && !a.BeginScan? && !a.LeaveCallback?
    ensures sid in Apply(s, a).starts && KeepsPlaces(s.starts[sid], Apply(s, a).starts[sid])
  {
    hide Inv, ApplyClear, ClearEnabled, ApplyMark, MarkEnabled, KeepsPlaces;
    if a.Mark? {
      MarkKeepsPlaces(s, sid);
    } else if a.Clear? {
      ClearKeepsPlaces(s, sid);
    } else if a.Dispatch? || a.Leak? || a.SendReady? || a.TakePending? || a.StopWorker? || a.Enqueue? {
      WorkerKeepsPlaces(s, a, sid);
    } else {
      LockHolds(s, sid);
      StartKeepsPlaces(s, a, sid);
    }
  }

  lemma ClearKeepsPlaces(s: Process, sid: Sid)
    requires sid in s.starts && ClearEnabled(s, sid)
    ensures sid in ApplyClear(s, sid).starts && KeepsPlaces(s.starts[sid], ApplyClear(s, sid).starts[sid])
  {
  }

  lemma {:induction false} RunRecords(states: seq<Process>, labels: seq<Label>, i: nat, sid: Sid)
    requires IsRun(states, labels) && KeepsHandles(states, labels) && i < |states|
    ensures sid in states[i].starts ==> Records(states[i].starts[sid], RecordingOf(states, labels, i, sid))
    decreases i
  {
    hide Inv, Enabled, Apply, Records, RecordingAfter;
    if i > 0 {
      var s, a := states[i - 1], labels[i - 1];
      RunRecords(states, labels, i - 1, sid);
      RunInv(states, labels, i - 1);
      assert StepOf(states, labels, i - 1);
      if sid in s.starts {
        StepRecords(s, a, sid, RecordingOf(states, labels, i - 1, sid));
      } else if sid in states[i].starts {
        NewRecords(s, a, sid, RecordingOf(states, labels, i, sid));
      }
    }
  }

  lemma NewRecords(s: Process, a: Label, sid: Sid, r: Recording)
    requires Inv(s) && Enabled(s, a) && sid !in s.starts && sid in Apply(s, a).starts
    ensures Records(Apply(s, a).starts[sid], r)
  {
    hide Inv, Apply, Enabled;
    ProtocolDeny.NewHasNoWorker(s, a, sid);
  }

  /** Each outcome that a recording delivers is the next one of the scan that began it. */
  lemma RecordsInOrder(states: seq<Process>, labels: seq<Label>, i: nat, sid: Sid)
    requires IsRun(states, labels) && KeepsHandles(states, labels) && i < |labels|
    requires OutcomeOf(states[i], labels[i], sid).Some?
    ensures var r := RecordingOf(states, labels, i, sid);
      r.recorded < |r.scan| && OutcomeOf(states[i], labels[i], sid).value == r.scan[r.recorded]
  {
    hide Inv, Apply, Rests;
    RunRecords(states, labels, i, sid);
    assert StepOf(states, labels, i);
    var sec := SectionAt(states[i], sid, labels[i].locus).value;
    if !(labels[i].locus.AtWorker? && states[i].starts[sid].worker.HealthSection?) {
      RestsHead(sec, RecordingOf(states, labels, i, sid));
    }
  }

  /** And the whole scan is recorded before the worker is spawned, dispatches, reports, scans again or marks. */
  lemma RecordingIsOver(states: seq<Process>, labels: seq<Label>, i: nat, sid: Sid)
    requires IsRun(states, labels) && KeepsHandles(states, labels) && i < |labels|
    requires labels[i] == Spawn(sid) || labels[i] == Dispatch(sid) || labels[i] == SendReady(sid)
      || labels[i] == Mark(sid) || labels[i] == TakePending(sid) || (labels[i].BeginScan? && labels[i].sid == sid)
    ensures var r := RecordingOf(states, labels, i, sid); r.recorded == |r.scan|
  {
    hide Inv, Apply, Rests;
    RunRecords(states, labels, i, sid);
    assert StepOf(states, labels, i);
  }
}
