/** Why the hypothesis on leaked handles is there: a run without it in which a free slot is not clean. */
module ProtocolLeak {
  import opened Types
  import opened Engine
  import opened Detect
  import opened ProcessWords
  import opened Protocol
  import opened ProtocolTheorems

  // ----- the run of a list of steps

  ghost function Trail(s: Process, labels: seq<Label>): (states: seq<Process>)
    requires Steps(s, labels).Some?
    ensures |states| == |labels| + 1 && states[0] == s && states[|labels|] == Steps(s, labels).value
    decreases |labels|
  {
    if labels == [] then [s] else [s] + Trail(Apply(s, labels[0]), labels[1..])
  }

  lemma {:induction false} TrailSteps(s: Process, labels: seq<Label>, i: nat)
    requires Steps(s, labels).Some? && i < |labels|
    ensures StepOf(Trail(s, labels), labels, i)
    decreases |labels|
  {
    hide Enabled, Apply;
    var rest := Trail(Apply(s, labels[0]), labels[1..]);
    if i > 0 {
      TrailSteps(Apply(s, labels[0]), labels[1..], i - 1);
      assert StepOf(rest, labels[1..], i - 1);
      assert Trail(s, labels)[i] == rest[i - 1] && Trail(s, labels)[i + 1] == rest[i]
        && labels[i] == labels[1..][i - 1];
    } else {
      assert Trail(s, labels)[1] == rest[0];
    }
  }

  lemma TrailIsRun(labels: seq<Label>)
    requires Steps(INIT, labels).Some?
    ensures IsRun(Trail(INIT, labels), labels)
  {
    hide StepOf;
    forall i | 0 <= i < |labels| ensures StepOf(Trail(INIT, labels), labels, i) { TrailSteps(INIT, labels, i); }
  }

  lemma {:induction false} StepsJoin(s: Process, front: seq<Label>, back: seq<Label>)
    requires Steps(s, front).Some?
    ensures Steps(s, front + back) == Steps(Steps(s, front).value, back)
    decreases |front|
  {
    hide Enabled, Apply;
    if front == [] {
      assert front + back == back;
    } else {
      StepsJoin(Apply(s, front[0]), front[1..], back);
      assert (front + back)[1..] == front[1..] + back;
    }
  }

  lemma OneStep(s: Process, a: Label, t: Process)
    requires Enabled(s, a) && t == Apply(s, a)
    ensures Steps(s, [a]) == Some(t)
  {
    hide Enabled, Apply;
    assert [a][1..] == [];
  }

  lemma ThenStep(s: Process, path: seq<Label>, t: Process, a: Label, u: Process)
    requires Steps(s, path) == Some(t) && Enabled(t, a) && u == Apply(t, a)
    ensures Steps(s, path + [a]) == Some(u)
  {
    hide Enabled, Apply, Steps;
    OneStep(t, a, u);
    StepsJoin(s, path, [a]);
  }

  // ----- a process of one start and at most one call

  const FOUND := Finding(PLATFORM_TRUST, Integrity, Low, Observed("a signature is missing"), 0)
  const ENTRY := Entry(Callback, Low)
  const POLICY := Policy(ENTRY, ENTRY, ENTRY, ENTRY, ENTRY, ENTRY)

  function One(words: Words, waitLock: WaitHolder, st: Start, owner: Option<Sid>): Process {
    Process(words, waitLock, map[0 := st], map[], owner)
  }

  lemma PutOne(words: Words, waitLock: WaitHolder, st: Start, owner: Option<Sid>, st': Start)
    ensures PutStart(One(words, waitLock, st, owner), 0, st') == One(words, waitLock, st', owner)
  {
    assert map[0 := st][0 := st'] == map[0 := st'];
  }

  function At(pc: StartPc, engine: EngineState, lock: Option<Locus>, worker: WorkerPc, leaked: bool): Start {
    Start(pc, POLICY, false, engine, lock, [], worker, false, leaked, false, None)
  }

  const TAKEN := Words(true, {}, false, false, false)
  const OUTCOMES: seq<(Detector, Outcome)> := [(PLATFORM_TRUST, Found(FOUND))]
  const BLANK := NewState([])
  const FRESH := NewState(INVENTORY)
  const SEEN := RecordOutcome(FRESH, PLATFORM_TRUST, Found(FOUND))
  const CALLED: seq<Qualified> := [(FOUND, Callback)]

  lemma Claimed() returns (path: seq<Label>)
    ensures Steps(INIT, path) == Some(One(TAKEN, WFree, At(Opened, BLANK, None, NoWorker, false), Some(0)))
  {
    var s1 := One(CLEAN_WORDS, WFree, At(Idle, BLANK, None, NoWorker, false), None);
    var s2 := One(TAKEN, WFree, At(StartPc.Claimed, BLANK, None, NoWorker, false), Some(0));
    var s3 := One(TAKEN, WFree, At(Opened, BLANK, None, NoWorker, false), Some(0));
    hide Steps;
    OneStep(INIT, NewStart(0, POLICY, false), s1);
    PutOne(CLEAN_WORDS, WFree, s1.starts[0], None, s2.starts[0]);
    ThenStep(INIT, [NewStart(0, POLICY, false)], s1, Claim(0), s2);
    PutOne(TAKEN, WFree, s2.starts[0], Some(0), s3.starts[0]);
    path := [NewStart(0, POLICY, false)] + [Claim(0)];
    ThenStep(INIT, path, s2, OpenWindow(0), s3);
    path := path + [OpenWindow(0)];
  }

  lemma Selects()
    ensures Selected(FRESH, POLICY, PLATFORM_TRUST, Found(FOUND)) == Some(Callback)
  {
    assert FRESH.slots[0].detector == INVENTORY[0];
  }

  lemma Recorded(path0: seq<Label>) returns (path: seq<Label>)
    requires Steps(INIT, path0) == Some(One(TAKEN, WFree, At(Opened, BLANK, None, NoWorker, false), Some(0)))
    ensures Steps(INIT, path)
      == Some(One(TAKEN, WFree, At(StartPc.Recorded(CALLED), SEEN, None, NoWorker, false), Some(0)))
  {
    hide Steps;
    var todo := Instrs(OUTCOMES);
    assert todo == [Rec(PLATFORM_TRUST, Found(FOUND))] && todo[1..] == [];
    Selects();
    var s0 := One(TAKEN, WFree, At(Opened, BLANK, None, NoWorker, false), Some(0));
    var s1 := One(TAKEN, WFree, At(Initial(NewSection(todo)), FRESH, None, NoWorker, false), Some(0));
    PutOne(TAKEN, WFree, s0.starts[0], Some(0), s1.starts[0]);
    ThenStep(INIT, path0, s0, BeginRecord(0, OUTCOMES), s1);
    path := path0 + [BeginRecord(0, OUTCOMES)];
    var s2 := One(TAKEN, WFree, At(Initial(Section(todo, Ready, [], {})), FRESH, Some(AtStart), NoWorker, false),
                  Some(0));
    PutOne(TAKEN, WFree, s1.starts[0], Some(0), s2.starts[0]);
    ThenStep(INIT, path, s1, InSection(0, AtStart, Acquire), s2);
    path := path + [InSection(0, AtStart, Acquire)];
    var s3 := One(TAKEN, WFree, At(Initial(Section([], Ready, CALLED, {})), SEEN, Some(AtStart), NoWorker, false),
                  Some(0));
    PutOne(TAKEN, WFree, s2.starts[0], Some(0), s3.starts[0]);
    assert [] + [(FOUND, Callback)] == CALLED;
    ThenStep(INIT, path, s2, InSection(0, AtStart, RunInstr), s3);
    path := path + [InSection(0, AtStart, RunInstr)];
    var s4 := One(TAKEN, WFree, At(StartPc.Recorded(CALLED), SEEN, None, NoWorker, false), Some(0));
    PutOne(TAKEN, WFree, s3.starts[0], Some(0), s4.starts[0]);
    ThenStep(INIT, path, s3, InSection(0, AtStart, Release), s4);
    path := path + [InSection(0, AtStart, Release)];
  }

  lemma Escaped(path0: seq<Label>) returns (path: seq<Label>)
    requires Steps(INIT, path0)
      == Some(One(TAKEN, WFree, At(StartPc.Recorded(CALLED), SEEN, None, NoWorker, false), Some(0)))
    ensures Steps(INIT, path)
      == Some(One(TAKEN, WFree, At(Waiting, SEEN, None, InCallback(FOUND, [], ThenReady), true), Some(0)))
  {
    hide Steps, RecordOutcome;
    assert CALLED[1..] == [];
    var s0 := One(TAKEN, WFree, At(StartPc.Recorded(CALLED), SEEN, None, NoWorker, false), Some(0));
    var s1 := One(TAKEN, WFree, At(Waiting, SEEN, None, Dispatching(CALLED, ThenReady), false), Some(0));
    PutOne(TAKEN, WFree, s0.starts[0], Some(0), s1.starts[0]);
    ThenStep(INIT, path0, s0, Spawn(0), s1);
    path := path0 + [Spawn(0)];
    var s2 := One(TAKEN, WFree, At(Waiting, SEEN, None, InCallback(FOUND, [], ThenReady), false), Some(0));
    PutOne(TAKEN, WFree, s1.starts[0], Some(0), s2.starts[0]);
    ThenStep(INIT, path, s1, Dispatch(0), s2);
    path := path + [Dispatch(0)];
    var s3 := One(TAKEN, WFree, At(Waiting, SEEN, None, InCallback(FOUND, [], ThenReady), true), Some(0));
    PutOne(TAKEN, WFree, s2.starts[0], Some(0), s3.starts[0]);
    ThenStep(INIT, path, s2, Leak(0), s3);
    path := path + [Leak(0)];
  }

  lemma Stopped(path0: seq<Label>) returns (path: seq<Label>)
    requires Steps(INIT, path0)
      == Some(One(TAKEN, WFree, At(Waiting, SEEN, None, InCallback(FOUND, [], ThenReady), true), Some(0)))
    ensures Steps(INIT, path) == Some(One(TAKEN, WFree, At(ClearDeny, SEEN, None, Dead, true), Some(0)))
  {
    hide Steps, RecordOutcome;
    var s3 := One(TAKEN, WFree, At(Waiting, SEEN, None, InCallback(FOUND, [], ThenReady), true), Some(0));
    var s4 := One(TAKEN, WFree, At(Waiting, SEEN, None, Dispatching([], ThenReady), true), Some(0));
    PutOne(TAKEN, WFree, s3.starts[0], Some(0), s4.starts[0]);
    ThenStep(INIT, path0, s3, LeaveCallback(0, false, 0), s4);
    path := path0 + [LeaveCallback(0, false, 0)];
    var s5 := One(TAKEN, WFree, At(Waiting, SEEN, None, Dead, true), Some(0));
    PutOne(TAKEN, WFree, s4.starts[0], Some(0), s5.starts[0]);
    ThenStep(INIT, path, s4, StopWorker(0), s5);
    path := path + [StopWorker(0)];
    var s6 := One(TAKEN, WFree, At(ClearDeny, SEEN, None, Dead, true), Some(0));
    PutOne(TAKEN, WFree, s5.starts[0], Some(0), s6.starts[0]);
    ThenStep(INIT, path, s5, WorkerStopped(0), s6);
    path := path + [WorkerStopped(0)];
  }

  lemma ClearNext(path0: seq<Label>, w: Words, lock: WaitHolder, pc: StartPc, owner: Option<Sid>,
                  w': Words, lock': WaitHolder, pc': StartPc, owner': Option<Sid>) returns (path: seq<Label>)
    requires Steps(INIT, path0) == Some(One(w, lock, At(pc, SEEN, None, Dead, true), owner))
    requires ClearEnabled(One(w, lock, At(pc, SEEN, None, Dead, true), owner), 0)
    requires ClearsTo(0, pc, w, lock, pc', w', lock') && owner' == if pc.ReleaseSlot? then None else owner
    ensures Steps(INIT, path) == Some(One(w', lock', At(pc', SEEN, None, Dead, true), owner'))
  {
    hide Steps, RecordOutcome;
    var s := One(w, lock, At(pc, SEEN, None, Dead, true), owner);
    var s' := One(w', lock', At(pc', SEEN, None, Dead, true), owner');
    PutOne(w, lock, s.starts[0], owner, s'.starts[0]);
    ThenStep(INIT, path0, s, Clear(0), s');
    path := path0 + [Clear(0)];
  }

  lemma Abandoned(path0: seq<Label>) returns (path: seq<Label>)
    requires Steps(INIT, path0) == Some(One(TAKEN, WFree, At(ClearDeny, SEEN, None, Dead, true), Some(0)))
    ensures Steps(INIT, path) == Some(One(CLEAN_WORDS, WFree, At(Failed, SEEN, None, Dead, true), None))
  {
    hide Steps, RecordOutcome;
    path := ClearNext(path0, TAKEN, WFree, ClearDeny, Some(0), TAKEN, WFree, ClearWord, Some(0));
    path := ClearNext(path, TAKEN, WFree, ClearWord, Some(0), TAKEN, WFree, WantWait, Some(0));
    path := ClearNext(path, TAKEN, WFree, WantWait, Some(0), TAKEN, WStart(0), ClearWait, Some(0));
    path := ClearNext(path, TAKEN, WStart(0), ClearWait, Some(0), TAKEN, WStart(0), ClearScan, Some(0));
    path := ClearNext(path, TAKEN, WStart(0), ClearScan, Some(0), TAKEN, WStart(0), ReleaseSlot, Some(0));
    path := ClearNext(path, TAKEN, WStart(0), ReleaseSlot, Some(0), CLEAN_WORDS, WStart(0), DropWait, None);
    path := ClearNext(path, CLEAN_WORDS, WStart(0), DropWait, None, CLEAN_WORDS, WFree, Failed, None);
  }

  lemma Denied(path0: seq<Label>) returns (path: seq<Label>, last: Process)
    requires Steps(INIT, path0) == Some(One(CLEAN_WORDS, WFree, At(Failed, SEEN, None, Dead, true), None))
    ensures Steps(INIT, path) == Some(last) && !last.words.running && last.words.latched == {Integrity}
  {
    hide Steps, RecordOutcome;
    var s0 := One(CLEAN_WORDS, WFree, At(Failed, SEEN, None, Dead, true), None);
    var s1 := Apply(s0, BeginOp(0, 0, false, DenyOp(Integrity)));
    ThenStep(INIT, path0, s0, BeginOp(0, 0, false, DenyOp(Integrity)), s1);
    path := path0 + [BeginOp(0, 0, false, DenyOp(Integrity))];
    assert SectionAt(s1, 0, AtOp(0)) == Some(NewSection([HostDeny(Integrity)]));
    var s2 := Apply(s1, InSection(0, AtOp(0), Acquire));
    ThenStep(INIT, path, s1, InSection(0, AtOp(0), Acquire), s2);
    path := path + [InSection(0, AtOp(0), Acquire)];
    assert SectionAt(s2, 0, AtOp(0)) == Some(Section([HostDeny(Integrity)], Ready, [], {}));
    var s3 := Apply(s2, InSection(0, AtOp(0), RunInstr));
    ThenStep(INIT, path, s2, InSection(0, AtOp(0), RunInstr), s3);
    path := path + [InSection(0, AtOp(0), RunInstr)];
    assert [HostDeny(Integrity)][1..] == [];
    assert SectionAt(s3, 0, AtOp(0)) == Some(Section([], Hooking(Integrity, true), [], {}));
    last := Apply(s3, InSection(0, AtOp(0), CallHook));
    ThenStep(INIT, path, s3, InSection(0, AtOp(0), CallHook), last);
    path := path + [InSection(0, AtOp(0), CallHook)];
  }

  /**
   A run in which a start leaks its handle from a callback and then fails: after the slot is free and clean again, one
   denial through that handle dirties the word. So a free slot is clean only under the hypothesis.
   */
  lemma LeakedHandleDirtiesAFreeSlot() returns (states: seq<Process>, labels: seq<Label>)
    ensures IsRun(states, labels) && !KeepsHandles(states, labels)
    ensures var last := states[|labels|]; !last.words.running && last.words.latched == {Integrity}
  {
    hide Steps;
    var p1 := Claimed();
    var p2 := Recorded(p1);
    var p3 := Escaped(p2);
    var p4 := Stopped(p3);
    var p5 := Abandoned(p4);
    var last: Process;
    labels, last := Denied(p5);
    states := Trail(INIT, labels);
    TrailIsRun(labels);
    assert !KeepsHandles(states, labels) by {
      if KeepsHandles(states, labels) {
        SlotHasOneOwner(states, labels, |labels|);
        assert false;
      }
    }
  }
}
