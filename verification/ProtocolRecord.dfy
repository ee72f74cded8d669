/** The single steps of a critical section, run without a hook panic, are the `record` call that they stand for. */
module ProtocolRecord {
  import opened Types
  import opened Engine
  import opened Protocol

  datatype Local = Local(engine: EngineState, sec: Section, word: set<Category>)

  /** One step that stays inside the section. */
  function Step(st: Start, l: Local, step: SectionStep): Local
    requires step.RunInstr? ==> l.sec.todo != []
    requires step.CallHook? ==> l.sec.phase.Hooking?
    requires step.Insert? ==> l.sec.phase.Latching?
  {
    var (engine, sec, word) := StayStep(st.(engine := l.engine), l.sec, l.word, step);
    Local(engine, sec, word)
  }

  /** All steps up to the release: each instruction, and for a denial the hook and then the engine. */
  function RunSection(st: Start, l: Local): Local
    requires l.sec.phase.Ready?
    decreases |l.sec.todo|
  {
    if l.sec.todo == [] then l
    else
      var ran := Step(st, l, RunInstr);
      if ran.sec.phase.Hooking? then RunSection(st, Step(st, Step(st, ran, CallHook), Insert))
      else RunSection(st, ran)
  }

  lemma {:induction false} RecordAllFront(st: EngineState, policy: Policy, first: (Detector, Outcome),
                                          rest: seq<(Detector, Outcome)>)
    ensures RecordAll(st, policy, [first] + rest) == RecordAll(RecordOne(st, policy, first.0, first.1), policy, rest)
    ensures QualifiedOf(st, policy, [first] + rest)
         == QualifiedOf(st, policy, [first]) + QualifiedOf(st, policy, rest)
  {
    hide RecordOne, Selected;
    var all := [first] + rest;
    if rest == [] {
      assert all == [first] && all[..0] == [];
    } else {
      var n := |rest| - 1;
      RecordAllFront(st, policy, first, rest[..n]);
      assert all[..|all| - 1] == [first] + rest[..n] && all[|all| - 1] == rest[n];
    }
  }

  /** Selection looks at which detectors have a slot, which recording never changes. */
  lemma {:induction false} QualifiedKeeps(a: EngineState, b: EngineState, policy: Policy,
                                          outcomes: seq<(Detector, Outcome)>)
    requires SameDetectors(a.slots, b.slots)
    ensures QualifiedOf(a, policy, outcomes) == QualifiedOf(b, policy, outcomes)
  {
    if outcomes != [] {
      var n := |outcomes| - 1;
      QualifiedKeeps(a, b, policy, outcomes[..n]);
      SameDetectorsFind(a.slots, b.slots, outcomes[n].0.id);
    }
  }

  /**
   A section over some outcomes leaves the engine that `record` leaves and collects what `record` returns, and a word
   that agreed with the engine agrees with it again.
   */
  lemma {:induction false} SectionIsRecord(st: Start, l: Local, outcomes: seq<(Detector, Outcome)>)
    requires l.sec.phase.Ready? && l.sec.todo == Instrs(outcomes)
    ensures var r := RunSection(st, l);
      && r.engine == RecordAll(l.engine, st.policy, outcomes)
      && r.sec.qualified == l.sec.qualified + QualifiedOf(l.engine, st.policy, outcomes)
      && r.sec.todo == [] && r.sec.phase.Ready?
      && (l.word == l.engine.latched ==> r.word == r.engine.latched)
      && l.word <= r.word
    decreases |outcomes|
  {
    hide RunSection, RecordOne, RecordAll, QualifiedOf, SameDetectors;
    if outcomes == [] {
      NothingToRecord(st, l);
      return;
    }
    var first, rest := outcomes[0], outcomes[1..];
    var next := AfterFirst(st, l, first, rest);
    SectionIsRecord(st, next, rest);
    assert [first] + rest == outcomes;
    RecordAllFront(l.engine, st.policy, first, rest);
    QualifiedKeeps(l.engine, next.engine, st.policy, rest);
  }

  lemma NothingToRecord(st: Start, l: Local)
    requires l.sec.phase.Ready? && l.sec.todo == []
    ensures RunSection(st, l) == l && RecordAll(l.engine, st.policy, []) == l.engine
    ensures QualifiedOf(l.engine, st.policy, []) == []
  {
  }

  /** The steps of one outcome are one pass of the loop. */
  lemma AfterFirst(st: Start, l: Local, first: (Detector, Outcome), rest: seq<(Detector, Outcome)>)
    returns (next: Local)
    requires l.sec.phase.Ready? && l.sec.todo == Instrs([first] + rest)
    ensures next.sec.phase.Ready? && next.sec.todo == Instrs(rest)
    ensures RunSection(st, l) == RunSection(st, next)
    ensures next.engine == RecordOne(l.engine, st.policy, first.0, first.1)
    ensures SameDetectors(l.engine.slots, next.engine.slots)
    ensures next.sec.qualified == l.sec.qualified + QualifiedOf(l.engine, st.policy, [first])
    ensures l.word == l.engine.latched ==> next.word == next.engine.latched
    ensures l.word <= next.word
  {
    assert Instrs([first] + rest)[1..] == Instrs(rest);
    var ran := Step(st, l, RunInstr);
    next := if ran.sec.phase.Hooking? then Step(st, Step(st, ran, CallHook), Insert) else ran;
    assert [first][..0] == [];
    assert QualifiedOf(l.engine, st.policy, [first][..0]) == [];
  }
}
