/**
 The callbacks that panic, over every run of the process: each of them becomes one health record of the finding that was
 dispatched, before its worker does anything else.
 */
module ProtocolPanics {
  import opened Types
  import opened Engine
  import opened Protocol
  import opened ProtocolInvariant
  import opened ProtocolTheorems
  import opened ProtocolHistory
  import opened ProtocolDispatch
  import opened ProtocolScans
  import ProtocolDeny

  /** The finding and the time of a callback panic, when the step is one. */
  function PanicOf(a: Label, sid: Sid, r: Round): Option<(Finding, nat)> {
    if a.LeaveCallback? && a.sid == sid && a.panicked && 0 < r.taken <= |r.expected|
    then Some((r.expected[r.taken - 1].0, a.now)) else None
  }

  /** The callback panics of a runtime before some index, in order. */
  function Panics(states: seq<Process>, labels: seq<Label>, i: nat, sid: Sid): seq<(Finding, nat)>
    requires i <= |labels| <= |states|
  {
    if i == 0 then []
    else
      var before := Panics(states, labels, i - 1, sid);
      var p := PanicOf(labels[i - 1], sid, RoundOf(states, labels, i - 1, sid));
      if p.Some? then before + [p.value] else before
  }

  /** The callback panics that reached the retained state. */
  function PanicsIn(events: seq<Event>): seq<(Finding, nat)> {
    if events == [] then []
    else
      var before, e := PanicsIn(events[..|events| - 1]), events[|events| - 1];
      if e.CallbackPanicked? then before + [(e.finding, e.now)] else before
  }

  lemma PanicsInMore(events: seq<Event>, e: Event)
    ensures PanicsIn(events + [e]) == PanicsIn(events) + if e.CallbackPanicked? then [(e.finding, e.now)] else []
  {
    assert (events + [e])[..|events|] == events;
  }

  predicate OnlyRecords(todo: seq<Instr>) { forall k :: 0 <= k < |todo| ==> todo[k].Rec? }

  /** The health record that the worker still has to write. */
  function Unwritten(worker: WorkerPc): seq<(Finding, nat)> {
    if worker.HealthSection? && worker.sec.todo != [] && worker.sec.todo[0].HealthRec?
    then [(worker.sec.todo[0].finding, worker.sec.todo[0].now)] else []
  }

  /** A health record is written in its own section and nowhere else. */
  predicate HealthInPlace(st: Start) {
    && (st.pc.Initial? ==> OnlyRecords(st.pc.sec.todo))
    && (st.worker.ScanSection? ==> OnlyRecords(st.worker.sec.todo))
    && (st.worker.HealthSection? ==>
          && (st.worker.sec.phase.Wanting? || st.worker.sec.phase.Ready?)
          && |st.worker.sec.todo| <= 1
          && (st.worker.sec.todo != [] ==> st.worker.sec.todo[0].HealthRec?))
  }

  function PanicEvent(e: Option<Event>): seq<(Finding, nat)> {
    if e.Some? && e.value.CallbackPanicked? then [(e.value.finding, e.value.now)] else []
  }

  /**
   What one step does: what was to be written, and what this step adds to that, is written now or is to be written.
   */
  predicate Writes(st: Start, st': Start, p: Option<(Finding, nat)>, e: Option<Event>) {
    && HealthInPlace(st')
    && Unwritten(st.worker) + (if p.Some? then [p.value] else []) == PanicEvent(e) + Unwritten(st'.worker)
  }

  lemma WorkerSectionWrites(s: Process, sid: Sid, step: SectionStep)
    requires SectionEnabled(s, sid, AtWorker, step) && HealthInPlace(s.starts[sid])
    ensures sid in ApplySection(s, sid, AtWorker, step).starts
    ensures Writes(s.starts[sid], ApplySection(s, sid, AtWorker, step).starts[sid], None,
                   EventOf(s, InSection(sid, AtWorker, step), sid))
  {
    hide RecordOutcome, Selected;
  }

  lemma StartSectionWrites(s: Process, sid: Sid, step: SectionStep)
    requires SectionEnabled(s, sid, AtStart, step) && HealthInPlace(s.starts[sid])
    ensures sid in ApplySection(s, sid, AtStart, step).starts
    ensures Writes(s.starts[sid], ApplySection(s, sid, AtStart, step).starts[sid], None,
                   EventOf(s, InSection(sid, AtStart, step), sid))
  {
    hide RecordOutcome, Selected;
  }

  lemma CallSectionWrites(s: Process, sid: Sid, h: Hid, step: SectionStep)
    requires SectionEnabled(s, sid, AtOp(h), step) && HealthInPlace(s.starts[sid])
    requires ProtocolDeny.CallKeeps(s, h)
    ensures sid in ApplySection(s, sid, AtOp(h), step).starts
    ensures Writes(s.starts[sid], ApplySection(s, sid, AtOp(h), step).starts[sid], None,
                   EventOf(s, InSection(sid, AtOp(h), step), sid))
  {
    hide StayStep, OnlyRecords, Unwritten;
  }

  lemma OtherWrites(s: Process, a: Label, sid: Sid, r: Round)
    requires Inv(s) && Enabled(s, a) && !a.InSection? && sid in s.starts && HealthInPlace(s.starts[sid])
    requires Follows(s.starts[sid].worker, s.starts[sid].policy, r)
    ensures sid in Apply(s, a).starts
    ensures Writes(s.starts[sid], Apply(s, a).starts[sid], PanicOf(a, sid, r), EventOf(s, a, sid))
  {
    hide Inv, Apply, Enabled, Follows, OnlyRecords, KeepsPlaces;
    if TouchedStart(s, a) != Some(sid) {
      OtherStartsStay(s, a, sid);
    } else if a.LeaveCallback? || a.BeginRecord? || a.BeginScan? {
      SectionBeginWrites(s, a, sid, r);
    } else {
      OtherKeepsPlaces(s, a, sid);
      QuietWrites(s.starts[sid], Apply(s, a).starts[sid]);
    }
  }

  lemma QuietWrites(st: Start, st': Start)
    requires HealthInPlace(st) && KeepsPlaces(st, st')
    ensures Writes(st, st', None, None)
  {
    hide OnlyRecords;
  }

  /** The steps that begin a section. */
  lemma SectionBeginWrites(s: Process, a: Label, sid: Sid, r: Round)
    requires Enabled(s, a) && (a.LeaveCallback? || a.BeginRecord? || a.BeginScan?) && a.sid == sid
      && HealthInPlace(s.starts[sid])
    requires Follows(s.starts[sid].worker, s.starts[sid].policy, r)
    ensures sid in Apply(s, a).starts
    ensures Writes(s.starts[sid], Apply(s, a).starts[sid], PanicOf(a, sid, r), EventOf(s, a, sid))
  {
    hide Qualifying;
  }

  lemma SectionWrites(s: Process, sid: Sid, locus: Locus, step: SectionStep)
    requires SectionEnabled(s, sid, locus, step) && HealthInPlace(s.starts[sid])
    requires locus.AtOp? ==> ProtocolDeny.CallKeeps(s, locus.h)
    ensures sid in ApplySection(s, sid, locus, step).starts
    ensures Writes(s.starts[sid], ApplySection(s, sid, locus, step).starts[sid], None,
                   EventOf(s, InSection(sid, locus, step), sid))
  {
    hide ApplySection, SectionEnabled, EventOf, Writes, HealthInPlace;
    match locus
    case AtStart => StartSectionWrites(s, sid, step);
    case AtWorker => WorkerSectionWrites(s, sid, step);
    case AtOp(h) => CallSectionWrites(s, sid, h, step);
  }

  lemma OtherSectionWrites(s: Process, a: Label, sid: Sid)
    requires Inv(s) && Enabled(s, a) && a.InSection? && a.sid != sid && sid in s.starts && HealthInPlace(s.starts[sid])
    ensures sid in Apply(s, a).starts && Writes(s.starts[sid], Apply(s, a).starts[sid], None, EventOf(s, a, sid))
  {
    hide Inv, Apply, Enabled, OnlyRecords;
    OtherStartsStay(s, a, sid);
  }

  lemma StepWrites(s: Process, a: Label, sid: Sid, r: Round)
    requires Inv(s) && Enabled(s, a) && sid in s.starts && HealthInPlace(s.starts[sid])
    requires StartFollows(s.starts[sid], r)
    requires a.InSection? && a.locus.AtOp? ==> ProtocolDeny.CallKeeps(s, a.locus.h)
    ensures sid in Apply(s, a).starts
    ensures Writes(s.starts[sid], Apply(s, a).starts[sid], PanicOf(a, sid, r), EventOf(s, a, sid))
  {
    hide Inv, ApplySection, ApplyClear, ApplyMark, EventOf, Writes, HealthInPlace, Follows;
    if a.InSection? && a.sid == sid {
      SectionWrites(s, sid, a.locus, a.step);
    } else if a.InSection? {
      OtherSectionWrites(s, a, sid);
    } else {
      OtherWrites(s, a, sid, r);
    }
  }

  /** What panicked is what was recorded and what is about to be. */
  ghost predicate Accounts(st: Start, panics: seq<(Finding, nat)>, events: seq<Event>) {
    HealthInPlace(st) && panics == PanicsIn(events) + Unwritten(st.worker)
  }

  lemma AccountsOnward(st: Start, st': Start, panics: seq<(Finding, nat)>, events: seq<Event>,
                       p: Option<(Finding, nat)>,
                       e: Option<Event>)
    requires Accounts(st, panics, events) && Writes(st, st', p, e)
    ensures Accounts(st', if p.Some? then panics + [p.value] else panics, if e.Some? then events + [e.value]
                     else events)
  {
    hide HealthInPlace, Unwritten, PanicsIn;
    var before, after := Unwritten(st.worker), Unwritten(st'.worker);
    var more := if p.Some? then [p.value] else [];
    assert (if p.Some? then panics + [p.value] else panics) == panics + more;
    assert panics + more == PanicsIn(events) + (before + more);
    assert PanicsIn(events) + (PanicEvent(e) + after) == (PanicsIn(events) + PanicEvent(e)) + after;
    if e.Some? { PanicsInMore(events, e.value); } else { assert PanicsIn(events) + [] == PanicsIn(events); }
  }

  lemma NothingPanicked(states: seq<Process>, labels: seq<Label>, i: nat, sid: Sid)
    requires IsRun(states, labels) && KeepsHandles(states, labels) && i < |states| && sid !in states[i].starts
    ensures Panics(states, labels, i, sid) == [] && EventsOf(states, labels, i, sid) == []
    decreases i
  {
    hide Inv, Apply, Enabled;
    if i > 0 {
      RunInv(states, labels, i - 1);
      assert StepOf(states, labels, i - 1);
      if sid in states[i - 1].starts { RunEvolves(states, labels, i - 1, i, sid); }
      NothingPanicked(states, labels, i - 1, sid);
      NoRoundYet(states, labels, i - 1, sid);
      NoEventBefore(states[i - 1], labels[i - 1], sid);
    }
  }

  lemma {:induction false} NoRoundYet(states: seq<Process>, labels: seq<Label>, i: nat, sid: Sid)
    requires IsRun(states, labels) && KeepsHandles(states, labels) && i < |states| && sid !in states[i].starts
    ensures RoundOf(states, labels, i, sid) == Round([], 0)
    decreases i
  {
    hide Inv, Apply, Enabled;
    if i > 0 {
      if sid in states[i - 1].starts { RunEvolves(states, labels, i - 1, i, sid); }
      NoRoundYet(states, labels, i - 1, sid);
    }
  }

  lemma {:induction false} RunAccounts(states: seq<Process>, labels: seq<Label>, i: nat, sid: Sid)
    requires IsRun(states, labels) && KeepsHandles(states, labels) && i < |states| && sid in states[i].starts
    ensures Accounts(states[i].starts[sid], Panics(states, labels, i, sid), EventsOf(states, labels, i, sid))
    decreases i
  {
    hide Inv, Enabled, Apply, StartFollows, RoundAfter, Accounts, Writes, EventOf, PanicOf;
    if i > 0 {
      var s, a := states[i - 1], labels[i - 1];
      RunInv(states, labels, i - 1);
      assert StepOf(states, labels, i - 1);
      if sid in s.starts {
        var r := RoundOf(states, labels, i - 1, sid);
        RunAccounts(states, labels, i - 1, sid);
        RunFollows(states, labels, i - 1, sid);
        if a.InSection? && a.locus.AtOp? { ProtocolDeny.RunKeepsCall(states, labels, i - 1, a.locus.h); }
        AccountsPlace(s.starts[sid], Panics(states, labels, i - 1, sid), EventsOf(states, labels, i - 1, sid));
        StepWrites(s, a, sid, r);
        AccountsOnward(s.starts[sid], states[i].starts[sid], Panics(states, labels, i - 1, sid),
                       EventsOf(states, labels, i - 1, sid), PanicOf(a, sid, r), EventOf(s, a, sid));
      } else {
        NewAccounts(states, labels, i, sid);
      }
    }
  }

  lemma AccountsPlace(st: Start, panics: seq<(Finding, nat)>, events: seq<Event>)
    requires Accounts(st, panics, events)
    ensures HealthInPlace(st)
  {
  }

  lemma NewAccounts(states: seq<Process>, labels: seq<Label>, i: nat, sid: Sid)
    requires IsRun(states, labels) && KeepsHandles(states, labels) && 0 < i < |states|
    requires sid in states[i].starts && sid !in states[i - 1].starts
    ensures Accounts(states[i].starts[sid], Panics(states, labels, i, sid), EventsOf(states, labels, i, sid))
  {
    hide Inv, Apply, Enabled;
    RunInv(states, labels, i - 1);
    assert StepOf(states, labels, i - 1);
    ProtocolDeny.NewHasNoWorker(states[i - 1], labels[i - 1], sid);
    NothingPanicked(states, labels, i - 1, sid);
    NoRoundYet(states, labels, i - 1, sid);
    NoEventBefore(states[i - 1], labels[i - 1], sid);
  }

  /**
   Every callback panic is recorded as a health event of the finding that was dispatched, in order and once, before the
   worker takes its next step of dispatching, reporting, scanning or marking.
   */
  lemma CallbackPanicsAreRecorded(states: seq<Process>, labels: seq<Label>, i: nat, sid: Sid)
    requires IsRun(states, labels) && KeepsHandles(states, labels) && i < |labels| && sid in states[i].starts
    ensures PanicsIn(EventsOf(states, labels, i, sid)) <= Panics(states, labels, i, sid)
    ensures labels[i] == Dispatch(sid) || labels[i] == SendReady(sid) || labels[i] == Mark(sid)
            || labels[i] == TakePending(sid) || (labels[i].BeginScan? && labels[i].sid == sid) ==>
              PanicsIn(EventsOf(states, labels, i, sid)) == Panics(states, labels, i, sid)
  {
    hide Inv, Apply, HealthInPlace;
    RunAccounts(states, labels, i, sid);
    assert StepOf(states, labels, i);
  }
}
