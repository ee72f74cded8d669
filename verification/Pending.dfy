/** The bounded queue that carries the actions of a host report to the worker. */
module Pending {
  import opened Types

  const MOST_REPORTS: nat := 16

  /** The longest prefix that the queue may hold. */
  function Keep<T>(all: seq<T>): seq<T> { if |all| <= 16 then all else all[..16] }

  // ----- the queue object: a fixed array of optional entries and a length

  class Reports {
    const entries: array<Option<Qualified>>
    var len: nat

    ghost predicate Valid() reads this, entries {
      && entries.Length == MOST_REPORTS
      && len <= MOST_REPORTS
      && (forall i :: 0 <= i < len ==> entries[i].Some?)
      && (forall i :: len <= i < MOST_REPORTS ==> entries[i].None?)
    }

    ghost function Contents(): seq<Qualified> reads this, entries requires Valid() {
      seq(len, i requires 0 <= i < len && Valid() reads this, entries => entries[i].value)
    }

    constructor ()
      ensures Valid() && Contents() == [] && fresh(entries)
    {
      entries := new Option<Qualified>[MOST_REPORTS](_ => None);
      len := 0;
    }

    method Push(report: Qualified) returns (kept: bool)
      requires Valid()
      modifies this, entries
      ensures Valid()
      ensures kept <==> |old(Contents())| < MOST_REPORTS
      ensures Contents() == if kept then old(Contents()) + [report] else old(Contents())
    {
      if len >= MOST_REPORTS { return false; }
      entries[len] := Some(report);
      len := len + 1;
      kept := true;
    }

    method Take() returns (taken: seq<Qualified>)
      requires Valid()
      modifies this, entries
      ensures Valid()
      ensures taken == old(Contents()) && Contents() == []
    {
      taken := [];
      for i := 0 to len
        modifies entries
        invariant taken == old(Contents())[..i]
        invariant forall j :: 0 <= j < i ==> entries[j].None?
        invariant forall j :: i <= j < MOST_REPORTS ==> entries[j] == old(entries[j])
      {
        if entries[i].Some? { taken := taken + [entries[i].value]; }
        entries[i] := None;
      }
      len := 0;
    }

    /** Adds the actions of one report, and drops what the queue cannot hold. */
    method Add(qualified: seq<Qualified>)
      requires Valid()
      modifies this, entries
      ensures Valid()
      ensures Contents() == Keep(old(Contents()) + qualified)
    {
      for i := 0 to |qualified|
        invariant Valid()
        invariant Contents() == Keep(old(Contents()) + qualified[..i])
      {
        var kept := Push(qualified[i]);
        assert qualified[..i + 1] == qualified[..i] + [qualified[i]];
        if !kept {
          assert Keep(old(Contents()) + qualified) == Contents();
          return;
        }
      }
      assert qualified[..|qualified|] == qualified;
    }
  }

  // ----- any interleaving of adds and takes, in the order of the queue lock

  datatype Call = Adds(qualified: seq<Qualified>) | Takes

  /** What the queue holds after the calls, and what the takes among them returned. */
  function Run(calls: seq<Call>): (seq<Qualified>, seq<Qualified>) {
    if calls == [] then ([], [])
    else
      var (held, delivered) := Run(calls[..|calls| - 1]);
      match calls[|calls| - 1]
      case Adds(q) => (Keep(held + q), delivered)
      case Takes => ([], delivered + held)
  }

  /** Everything that was added since the last take. */
  function SinceTake(calls: seq<Call>): seq<Qualified> {
    if calls == [] then []
    else match calls[|calls| - 1]
      case Adds(q) => SinceTake(calls[..|calls| - 1]) + q
      case Takes => []
  }

  /** The kept part of each completed round between two takes, in order. */
  function KeptRounds(calls: seq<Call>): seq<Qualified> {
    if calls == [] then []
    else match calls[|calls| - 1]
      case Adds(_) => KeptRounds(calls[..|calls| - 1])
      case Takes => KeptRounds(calls[..|calls| - 1]) + Keep(SinceTake(calls[..|calls| - 1]))
  }

  function Added(calls: seq<Call>): seq<Qualified> {
    if calls == [] then []
    else match calls[|calls| - 1]
      case Adds(q) => Added(calls[..|calls| - 1]) + q
      case Takes => Added(calls[..|calls| - 1])
  }

  lemma KeepConcat<T>(a: seq<T>, b: seq<T>)
    ensures Keep(Keep(a) + b) == Keep(a + b)
  {
  }

  /**
   The queue holds exactly the first sixteen reports since the last take, and the takes returned
   exactly the first sixteen of each earlier round, in order and once each.
   */
  lemma {:induction false} QueueKeepsThePrefixOfEachRound(calls: seq<Call>)
    ensures Run(calls).0 == Keep(SinceTake(calls))
    ensures Run(calls).1 == KeptRounds(calls)
  {
    if calls != [] {
      var before := calls[..|calls| - 1];
      QueueKeepsThePrefixOfEachRound(before);
      if calls[|calls| - 1].Adds? {
        KeepConcat(SinceTake(before), calls[|calls| - 1].qualified);
      }
    }
  }

  /** No round between two takes brought more reports than the queue holds. */
  ghost predicate NoOverflow(calls: seq<Call>) {
    forall n :: 0 <= n <= |calls| ==> |SinceTake(calls[..n])| <= 16
  }

  /** Without an overflow nothing is lost: delivered and held together are everything added, in order. */
  lemma {:induction false} NothingIsLostWithoutOverflow(calls: seq<Call>)
    requires NoOverflow(calls)
    ensures Run(calls).1 + Run(calls).0 == Added(calls)
  {
    if calls != [] {
      var before := calls[..|calls| - 1];
      assert forall n :: 0 <= n <= |before| ==> before[..n] == calls[..n];
      NothingIsLostWithoutOverflow(before);
      QueueKeepsThePrefixOfEachRound(before);
      assert calls[..|calls|] == calls;
      QueueKeepsThePrefixOfEachRound(calls);
    }
  }

  /** An overflow always loses: a round beyond sixteen leaves fewer reports than were added. */
  lemma {:induction false} OverflowLoses(calls: seq<Call>)
    ensures |Run(calls).1| + |Run(calls).0| <= |Added(calls)|
    ensures |Run(calls).1| + |Run(calls).0| == |Added(calls)| ==> NoOverflow(calls)
  {
    if calls != [] {
      var before := calls[..|calls| - 1];
      OverflowLoses(before);
      QueueKeepsThePrefixOfEachRound(before);
      assert calls[..|calls|] == calls;
      assert forall n :: 0 <= n <= |before| ==> before[..n] == calls[..n];
    }
  }
}
