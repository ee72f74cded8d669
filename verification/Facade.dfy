/**
 The functions of the facade that change the process words, each as the uninterrupted run of the protocol's own
 steps: one store of the function for one step, in the same order.
 */
module Facade {
  import opened Types
  import opened CategorySets
  import opened ProcessWords
  import opened Protocol

  lemma {:induction false} StepsSnoc(s: Process, labels: seq<Label>, a: Label)
    requires Steps(s, labels).Some? && Enabled(Steps(s, labels).value, a)
    ensures Steps(s, labels + [a]) == Some(Apply(Steps(s, labels).value, a))
    decreases |labels|
  {
    hide Enabled, Apply;
    if labels == [] {
      assert labels + [a] == [a] && [a][1..] == [];
    } else {
      StepsSnoc(Apply(s, labels[0]), labels[1..], a);
      assert (labels + [a])[1..] == labels[1..] + [a];
    }
  }

  // ----- the slot and the latch

  method ClaimSlot(w: Statics, ghost s: Process, ghost sid: Sid) returns (claimed: bool)
    requires s.words == w.View() && Enabled(s, Claim(sid))
    modifies w`running
    ensures w.View() == Apply(s, Claim(sid)).words
    ensures claimed <==> Apply(s, Claim(sid)).starts[sid].pc.Claimed?
    ensures !claimed ==> w.View() == old(w.View())
  {
    hide Abs;
    claimed := !w.running;
    if claimed { w.running := true; }
  }

  /** The hook that a critical section calls. */
  method Latch(w: Statics, category: Category, ghost s: Process, ghost sid: Sid, ghost locus: Locus)
    requires w.Valid() && s.words == w.View() && SectionEnabled(s, sid, locus, CallHook)
    requires SectionAt(s, sid, locus).value.phase.category == category
    modifies w`latched
    ensures w.Valid() && w.View() == Apply(s, InSection(sid, locus, CallHook)).words
  {
    hide Abs, NoStrays;
    w.Latch(category);
  }

  // ----- the abandoned start

  /** The same step some number of times. */
  function Times(a: Label, n: nat): seq<Label> { seq(n, _ => a) }

  lemma NoTimes(s: Process, a: Label)
    ensures Steps(s, Times(a, 0)) == Some(s)
  {
  }

  /** One more step of the same kind. */
  lemma OnceMore(s: Process, a: Label, n: nat, t: Process)
    requires Steps(s, Times(a, n)) == Some(t) && Enabled(t, a)
    ensures Steps(s, Times(a, n + 1)) == Some(Apply(t, a))
  {
    hide Steps, Enabled, Apply;
    StepsSnoc(s, Times(a, n), a);
    assert Times(a, n) + [a] == Times(a, n + 1);
  }

  /** The words that an uninterrupted run of one kind of step passes through are those of the trace. */
  ghost predicate Traces(s: Process, a: Label, trace: seq<Words>) {
    forall k :: 0 <= k < |trace| ==>
      Steps(s, Times(a, k + 1)).Some? && Steps(s, Times(a, k + 1)).value.words == trace[k]
  }

  /** The holder of the wait mutex is this one after each of these steps. */
  ghost predicate HeldBetween(s: Process, a: Label, from: nat, to: nat, holder: WaitHolder) {
    forall k :: from <= k <= to ==> Steps(s, Times(a, k)).Some? && Steps(s, Times(a, k)).value.waitLock == holder
  }

  /**
   The trace holds the words after each store, and after the lock and the unlock: they are the words after each of the
   seven clear steps. The wait mutex is held from the third step to the sixth, and the slot goes with the sixth.
   */
  method AbandonStart(w: Statics, ghost s: Process, ghost sid: Sid) returns (ghost trace: seq<Words>)
    requires s.words == w.View() && sid in s.starts && s.starts[sid].pc.ClearDeny? && s.waitLock.WFree?
    modifies w
    ensures w.Valid() && w.View() == CLEAN_WORDS
    ensures |trace| == 7 && trace[6] == w.View() && Traces(s, Clear(sid), trace)
    ensures forall k :: 0 <= k < 5 ==> trace[k].running == old(w.running)
    ensures HeldBetween(s, Clear(sid), 3, 6, WStart(sid))
    ensures var t := Steps(s, Times(Clear(sid), 7)).value;
      sid in t.starts && t.starts[sid].pc.Failed? && t.waitLock.WFree?
  {
    hide Abs, Steps, Times, NoStrays, Traces, HeldBetween;
    EmptyIsClean();
    ghost var words := ClearTrace(s, sid);
    w.denyUntil := false;
    trace := [w.View()];
    w.latched := 0;
    trace := trace + [w.View()] + [w.View()];
    w.waitDone := false;
    trace := trace + [w.View()];
    w.scanDone := false;
    trace := trace + [w.View()];
    w.running := false;
    trace := trace + [w.View()] + [w.View()];
    assert trace == words;
  }

  /** The words after each of the seven steps. */
  lemma ClearTrace(s: Process, sid: Sid) returns (words: seq<Words>)
    requires sid in s.starts && s.starts[sid].pc.ClearDeny? && s.waitLock.WFree?
    ensures |words| == 7 && Traces(s, Clear(sid), words) && HeldBetween(s, Clear(sid), 3, 6, WStart(sid))
    ensures words[0] == s.words.(denyUntil := false) && words[1] == words[0].(latched := {}) && words[2] == words[1]
    ensures words[3] == words[2].(waitDone := false) && words[4] == words[3].(scanDone := false)
    ensures words[5] == words[4].(running := false) && words[6] == words[5]
    ensures Steps(s, Times(Clear(sid), 7)).Some?
    ensures var t := Steps(s, Times(Clear(sid), 7)).value;
      sid in t.starts && t.starts[sid].pc.Failed? && t.waitLock.WFree?
  {
    hide Steps, Times, ClearEnabled;
    var t1, t2, t3 := FirstClears(s, sid);
    var t4, t5, t6, t7 := LastClears(s, sid, t3);
    words := [t1.words, t2.words, t3.words, t4.words, t5.words, t6.words, t7.words];
  }

  /** The flag and the word go first, and then the start takes the wait mutex. */
  lemma FirstClears(s: Process, sid: Sid) returns (t1: Process, t2: Process, t3: Process)
    requires sid in s.starts && s.starts[sid].pc.ClearDeny? && s.waitLock.WFree?
    ensures Steps(s, Times(Clear(sid), 1)) == Some(t1) && t1.words == s.words.(denyUntil := false)
    ensures Steps(s, Times(Clear(sid), 2)) == Some(t2) && t2.words == t1.words.(latched := {})
    ensures Steps(s, Times(Clear(sid), 3)) == Some(t3) && t3.words == t2.words
    ensures sid in t3.starts && t3.starts[sid].pc.ClearWait? && t3.waitLock == WStart(sid)
  {
    hide Steps, Times;
    NoTimes(s, Clear(sid));
    t1 := Cleared(s, sid, 0, s);
    t2 := Cleared(s, sid, 1, t1);
    t3 := Cleared(s, sid, 2, t2);
  }

  /** Under the mutex both scan flags go, then the slot, and the mutex is dropped at the end. */
  lemma LastClears(s: Process, sid: Sid, t3: Process) returns (t4: Process, t5: Process, t6: Process, t7: Process)
    requires Steps(s, Times(Clear(sid), 3)) == Some(t3)
    requires sid in t3.starts && t3.starts[sid].pc.ClearWait? && t3.waitLock == WStart(sid)
    ensures Steps(s, Times(Clear(sid), 4)) == Some(t4) && t4.words == t3.words.(waitDone := false)
    ensures Steps(s, Times(Clear(sid), 5)) == Some(t5) && t5.words == t4.words.(scanDone := false)
    ensures Steps(s, Times(Clear(sid), 6)) == Some(t6) && t6.words == t5.words.(running := false)
    ensures t4.waitLock == t5.waitLock == t6.waitLock == WStart(sid)
    ensures Steps(s, Times(Clear(sid), 7)) == Some(t7) && t7.words == t6.words && t7.waitLock.WFree?
    ensures sid in t7.starts && t7.starts[sid].pc.Failed?
  {
    hide Steps, Times;
    t4 := Cleared(s, sid, 3, t3);
    t5 := Cleared(s, sid, 4, t4);
    t6 := Cleared(s, sid, 5, t5);
    t7 := Cleared(s, sid, 6, t6);
  }

  /** The state after one more clear step. */
  lemma Cleared(s: Process, sid: Sid, n: nat, t: Process) returns (u: Process)
    requires Steps(s, Times(Clear(sid), n)) == Some(t) && sid in t.starts && ClearEnabled(t, sid)
    ensures Steps(s, Times(Clear(sid), n + 1)) == Some(u) && sid in u.starts
    ensures ClearsTo(sid, t.starts[sid].pc, t.words, t.waitLock, u.starts[sid].pc, u.words, u.waitLock)
  {
    hide Steps, Times;
    OnceMore(s, Clear(sid), n, t);
    u := ApplyClear(t, sid);
  }

  // ----- the full scan

  /**
   The trace is the words after each of the four mark steps, and the wait mutex is held from the first to the third.
   */
  method MarkFullScanComplete(w: Statics, ghost s: Process, ghost sid: Sid) returns (ghost trace: seq<Words>)
    requires s.words == w.View() && sid in s.starts && s.starts[sid].worker.MarkWant? && s.waitLock.WFree?
    modifies w`waitDone, w`scanDone
    ensures w.View() == old(w.View()).(waitDone := true, scanDone := true)
    ensures |trace| == 4 && trace[3] == w.View() && Traces(s, Mark(sid), trace)
    ensures HeldBetween(s, Mark(sid), 1, 3, WWorker(sid))
    ensures var t := Steps(s, Times(Mark(sid), 4)).value;
      sid in t.starts && t.starts[sid].worker.Looping? && t.waitLock.WFree?
  {
    hide Abs, Steps, Times, MarkEnabled;
    ghost var t1, t2, t3, t4 := Marks(s, sid);
    trace := [w.View()];
    w.waitDone := true;
    trace := trace + [w.View()];
    w.scanDone := true;
    trace := trace + [w.View()] + [w.View()];
    assert trace == [t1.words, t2.words, t3.words, t4.words];
  }

  lemma Marks(s: Process, sid: Sid) returns (t1: Process, t2: Process, t3: Process, t4: Process)
    requires sid in s.starts && s.starts[sid].worker.MarkWant? && s.waitLock.WFree?
    ensures Steps(s, Times(Mark(sid), 1)) == Some(t1) && t1.words == s.words
    ensures Steps(s, Times(Mark(sid), 2)) == Some(t2) && t2.words == s.words.(waitDone := true)
    ensures Steps(s, Times(Mark(sid), 3)) == Some(t3) && t3.words == t2.words.(scanDone := true)
    ensures t1.waitLock == t2.waitLock == t3.waitLock == WWorker(sid)
    ensures Steps(s, Times(Mark(sid), 4)) == Some(t4) && t4.words == t3.words && t4.waitLock.WFree?
    ensures sid in t4.starts && t4.starts[sid].worker.Looping?
  {
    hide Steps, Times;
    NoTimes(s, Mark(sid));
    t1 := Marked(s, sid, 0, s);
    t2 := Marked(s, sid, 1, t1);
    t3 := Marked(s, sid, 2, t2);
    t4 := Marked(s, sid, 3, t3);
  }

  /** The state after one more step of the mark, and what the step did. */
  lemma Marked(s: Process, sid: Sid, n: nat, t: Process) returns (u: Process)
    requires Steps(s, Times(Mark(sid), n)) == Some(t)
    requires sid in t.starts && MarkEnabled(t, sid) && !t.starts[sid].worker.Dispatching?
    ensures Steps(s, Times(Mark(sid), n + 1)) == Some(u) && sid in u.starts
    ensures var next := u.starts[sid].worker;
      match t.starts[sid].worker
      case MarkWant(_) => next.MarkWait? && u.words == t.words && u.waitLock == WWorker(sid)
      case MarkWait(_) => next.MarkScan? && u.words == t.words.(waitDone := true) && u.waitLock == t.waitLock
      case MarkScan(_) => next.MarkDrop? && u.words == t.words.(scanDone := true) && u.waitLock == t.waitLock
      case _ => next.Looping? && u.words == t.words && u.waitLock.WFree?
  {
    hide Steps, Times;
    OnceMore(s, Mark(sid), n, t);
    u := ApplyMark(t, sid);
  }

  // ----- the check

  /** The check in its three loads is the call that runs those loads, and it answers what the call answers. */
  method EnsureAllowed(w: Statics, ghost s: Process, ghost h: Hid)
    returns (denied: bool, categories: set<Category>, ghost loads: nat)
    requires w.Valid() && s.words == w.View() && h in s.ops && s.ops[h].pc.LoadWord?
    ensures Steps(s, Times(Load(h), loads)).Some?
    ensures var t := Steps(s, Times(Load(h), loads)).value;
      && t.words == s.words && h in t.ops && t.ops[h].pc.Finished?
      && t.ops[h].pc.result ==
         if categories != {} then Denied(categories)
         else if denied then Incomplete
         else Allowed(s.words.scanDone, s.words.denyUntil)
    ensures denied <==> w.View().latched != {} || (w.View().denyUntil && !w.View().scanDone)
  {
    hide Abs, Steps, Times, NoStrays;
    NoTimes(s, Load(h));
    ghost var t1 := Loaded(s, h, 0, s);
    var held := new CategorySet.FromBits(w.latched);
    EmptyIff(held.bits);
    categories := Abs(held.bits);
    if held.bits != 0 { return true, categories, 1; }
    ghost var t2 := Loaded(s, h, 1, t1);
    if !w.denyUntil { return false, {}, 2; }
    ghost var t3 := Loaded(s, h, 2, t2);
    return !w.scanDone, {}, 3;
  }

  /** The state after one more load of a check. */
  lemma Loaded(s: Process, h: Hid, n: nat, t: Process) returns (u: Process)
    requires Steps(s, Times(Load(h), n)) == Some(t) && h in t.ops
    requires t.ops[h].pc.LoadWord? || t.ops[h].pc.LoadDeny? || t.ops[h].pc.LoadScan?
    ensures Steps(s, Times(Load(h), n + 1)) == Some(u) && h in u.ops && u.words == t.words
    ensures u.ops[h].pc == ApplyLoad(t.words, t.ops[h].pc)
  {
    hide Steps, Times;
    OnceMore(s, Load(h), n, t);
    u := Apply(t, Load(h));
  }

  // ----- the wait

  /**
   The steps of a wait: one load when the scan is done, and otherwise looks at the flag, the last one at the timeout.
   */
  function WaitPath(h: Hid, scanDone: bool, wakeups: nat): seq<Label> {
    if scanDone then [Load(h)] else [Load(h), WaitAcquire(h)] + Rounds(h, wakeups) + [WaitCheck(h, true)]
  }

  /** Each round looks at the flag, gives the mutex up, and takes it again. */
  function Rounds(h: Hid, n: nat): seq<Label> {
    if n == 0 then [] else Rounds(h, n - 1) + [WaitCheck(h, false), WaitAcquire(h)]
  }

  /** The call has run these steps and stands here, and the words are as they were. */
  ghost predicate Stands(s: Process, h: Hid, path: seq<Label>, t: Process, pc: OpPc) {
    Steps(s, path) == Some(t) && t.words == s.words && h in t.ops && t.ops[h].pc == pc
  }

  /**
   A wait that is woken some times before its timeout takes one round for each of them as long as the flag is clear,
   and answers what the call answers that takes those steps.
   */
  method WaitForFullScan(w: Statics, wakeups: nat, ghost s: Process, ghost h: Hid) returns (done: bool)
    requires s.words == w.View() && h in s.ops && s.ops[h].pc.WaitLoad? && s.waitLock.WFree?
    ensures var path := WaitPath(h, w.View().scanDone, if w.View().waitDone then 0 else wakeups);
      Steps(s, path).Some? && Stands(s, h, path, Steps(s, path).value, Finished(Waited(done)))
    ensures done <==> w.View().scanDone || w.View().waitDone
  {
    hide Abs, Steps, Enabled, Apply;
    NoSteps(s);
    ghost var t := Step(s, h, [], s, Load(h));
    assert [] + [Load(h)] == [Load(h)];
    if w.scanDone { return true; }
    t := Step(s, h, [Load(h)], t, WaitAcquire(h));
    ghost var path := [Load(h)] + [WaitAcquire(h)];
    assert path == [Load(h), WaitAcquire(h)] + Rounds(h, 0);
    var rounds := 0;
    while !w.waitDone && rounds < wakeups
      invariant rounds <= wakeups && (w.waitDone ==> rounds == 0)
      invariant path == [Load(h), WaitAcquire(h)] + Rounds(h, rounds)
      invariant Stands(s, h, path, t, WaitHold)
    {
      t := Step(s, h, path, t, WaitCheck(h, false));
      t := Step(s, h, path + [WaitCheck(h, false)], t, WaitAcquire(h));
      path := path + [WaitCheck(h, false)] + [WaitAcquire(h)];
      rounds := rounds + 1;
    }
    done := w.waitDone;
    t := Step(s, h, path, t, WaitCheck(h, true));
  }

  lemma NoSteps(s: Process)
    ensures Steps(s, []) == Some(s)
  {
  }

  /** One more step of the waiting call. */
  lemma Step(s: Process, h: Hid, path: seq<Label>, t: Process, a: Label) returns (t': Process)
    requires h in t.ops && Stands(s, h, path, t, t.ops[h].pc)
    requires
      || (a == Load(h) && t.ops[h].pc.WaitLoad?)
      || (a == WaitAcquire(h) && t.ops[h].pc.WaitWant? && t.waitLock.WFree?)
      || (a.WaitCheck? && a.h == h && t.ops[h].pc.WaitHold?)
    ensures h in t'.ops && Stands(s, h, path + [a], t', t'.ops[h].pc)
    ensures t'.ops[h].pc ==
      if a.Load? then ApplyLoad(t.words, t.ops[h].pc)
      else if a.WaitAcquire? then WaitHold
      else if t.words.waitDone then Finished(Waited(true))
      else if a.timeout then Finished(Waited(false))
      else WaitWant
    ensures t'.waitLock == if a.Load? then t.waitLock else if a.WaitAcquire? then WOp(h) else WFree
  {
    hide Steps;
    t' := Apply(t, a);
    StepsSnoc(s, path, a);
  }
}
