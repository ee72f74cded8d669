/** The fixed set of detectors, and which of them a scan reaches. */
module Detect {
  import opened Types

  const PLATFORM_TRUST := Detector(1, Integrity)
  const EXPECTED_IDENTITY := Detector(2, Integrity)
  const TRACER_PRESENT := Detector(3, Debugging)
  const UNACCOUNTED_CODE := Detector(4, Instrumentation)
  const RUNTIME_BASELINE := Detector(5, Integrity)
  const SYSTEM_BUILD := Detector(6, DeviceCompromise)
  const MACHINE_HOST := Detector(7, Virtualization)
  const HOST_REPORT := Detector(8, UiAbuse)
  const DISPATCH_TARGETS := Detector(9, Instrumentation)
  const VERIFIED_BOOT := Detector(10, DeviceCompromise)
  const LOCAL_AGENT := Detector(11, Instrumentation)
  const IMAGE_CATALOG := Detector(12, Instrumentation)

  const INVENTORY: seq<Detector> := [
    PLATFORM_TRUST, EXPECTED_IDENTITY, TRACER_PRESENT, UNACCOUNTED_CODE, DISPATCH_TARGETS, IMAGE_CATALOG,
    LOCAL_AGENT, RUNTIME_BASELINE, SYSTEM_BUILD, VERIFIED_BOOT, MACHINE_HOST, HOST_REPORT]

  /** What a detector reports when it returns. No detector reports `NotRun`. */
  type Reported = o: Outcome | !o.NotRun? witness Clean

  /** How one detector call ends. */
  datatype Ending = Returned(outcome: Reported) | Panicked

  /** The entry of one detector in a scan: what it reported, or a weak finding about its own health. */
  function Guarded(detector: Detector, now: nat, ending: Ending): (Detector, Outcome) {
    match ending
    case Returned(o) => (detector, o)
    case Panicked =>
      (detector, Found(Finding(detector, detector.category, Low,
                               Health("the detector panicked, so this scan reports its health"), now)))
  }

  function ScanCheap(run: Detector -> Ending, now: nat): seq<(Detector, Outcome)> {
    [Guarded(PLATFORM_TRUST, now, run(PLATFORM_TRUST)),
     Guarded(EXPECTED_IDENTITY, now, run(EXPECTED_IDENTITY)),
     Guarded(TRACER_PRESENT, now, run(TRACER_PRESENT)),
     Guarded(UNACCOUNTED_CODE, now, run(UNACCOUNTED_CODE)),
     Guarded(DISPATCH_TARGETS, now, run(DISPATCH_TARGETS)),
     Guarded(IMAGE_CATALOG, now, run(IMAGE_CATALOG)),
     Guarded(RUNTIME_BASELINE, now, run(RUNTIME_BASELINE)),
     Guarded(SYSTEM_BUILD, now, run(SYSTEM_BUILD)),
     Guarded(VERIFIED_BOOT, now, run(VERIFIED_BOOT)),
     Guarded(MACHINE_HOST, now, run(MACHINE_HOST))]
  }

  function ScanAll(run: Detector -> Ending, now: nat): seq<(Detector, Outcome)> {
    ScanCheap(run, now) + [Guarded(LOCAL_AGENT, now, run(LOCAL_AGENT))]
  }

  /** Every outcome of the scan says that its detector was reached. */
  predicate AllReported(outcomes: seq<(Detector, Outcome)>) {
    forall k :: 0 <= k < |outcomes| ==> !outcomes[k].1.NotRun?
  }

  /** The scan holds an outcome of this detector. */
  ghost predicate Reaches(outcomes: seq<(Detector, Outcome)>, id: nat) {
    exists k :: 0 <= k < |outcomes| && outcomes[k].0.id == id
  }

  /** The scan reports on every inventory entry but the one that the host feeds. */
  ghost predicate CoversInventory(outcomes: seq<(Detector, Outcome)>) {
    && AllReported(outcomes)
    && forall i :: 0 <= i < |INVENTORY| && INVENTORY[i].id != HOST_REPORT.id ==> Reaches(outcomes, INVENTORY[i].id)
  }

  function Ids(outcomes: seq<(Detector, Outcome)>): seq<nat> {
    seq(|outcomes|, k requires 0 <= k < |outcomes| => outcomes[k].0.id)
  }

  lemma ReachesIffListed(outcomes: seq<(Detector, Outcome)>, id: nat)
    ensures Reaches(outcomes, id) <==> id in Ids(outcomes)
  {
    if id in Ids(outcomes) {
      var k :| 0 <= k < |outcomes| && Ids(outcomes)[k] == id;
      assert outcomes[k].0.id == id;
    }
    if k :| 0 <= k < |outcomes| && outcomes[k].0.id == id {
      assert Ids(outcomes)[k] == id;
    }
  }

  lemma GuardedReports(detector: Detector, now: nat, ending: Ending)
    ensures Guarded(detector, now, ending).0 == detector && !Guarded(detector, now, ending).1.NotRun?
  {
  }

  lemma CheapIds(run: Detector -> Ending, now: nat)
    ensures Ids(ScanCheap(run, now)) == [1, 2, 3, 4, 9, 12, 5, 6, 10, 7] && AllReported(ScanCheap(run, now))
  {
    hide Guarded;
    forall d: Detector ensures Guarded(d, now, run(d)).0 == d && !Guarded(d, now, run(d)).1.NotRun? {
      GuardedReports(d, now, run(d));
    }
  }

  lemma ScanIds(run: Detector -> Ending, now: nat)
    ensures Ids(ScanCheap(run, now)) == [1, 2, 3, 4, 9, 12, 5, 6, 10, 7]
    ensures Ids(ScanAll(run, now)) == [1, 2, 3, 4, 9, 12, 5, 6, 10, 7, 11]
    ensures AllReported(ScanCheap(run, now)) && AllReported(ScanAll(run, now))
  {
    hide ScanCheap;
    CheapIds(run, now);
    var cheap, all := ScanCheap(run, now), ScanAll(run, now);
    assert forall k :: 0 <= k < |cheap| ==> all[k] == cheap[k];
    assert Ids(all) == Ids(cheap) + [11];
  }

  /**
   However each detector call ends, a full scan covers the inventory; a cheap scan misses exactly
   the local agent; and neither ever reaches the host-fed entry.
   */
  lemma ScanCoverage(run: Detector -> Ending, now: nat)
    ensures CoversInventory(ScanAll(run, now))
    ensures !Reaches(ScanAll(run, now), HOST_REPORT.id)
    ensures forall i :: 0 <= i < |INVENTORY| ==>
      (Reaches(ScanCheap(run, now), INVENTORY[i].id)
       <==> INVENTORY[i].id != HOST_REPORT.id && INVENTORY[i].id != LOCAL_AGENT.id)
  {
    ScanIds(run, now);
    var cheap, all := ScanCheap(run, now), ScanAll(run, now);
    forall id: nat ensures Reaches(cheap, id) <==> id in [1, 2, 3, 4, 9, 12, 5, 6, 10, 7] {
      ReachesIffListed(cheap, id);
    }
    forall id: nat ensures Reaches(all, id) <==> id in [1, 2, 3, 4, 9, 12, 5, 6, 10, 7, 11] {
      ReachesIffListed(all, id);
    }
  }

  /**
   A detector that panics is reported as a weak finding about its own health, in its own category and at its place.
   */
  lemma PanicsAreWeak(run: Detector -> Ending, now: nat, k: nat)
    requires k < |ScanAll(run, now)| && run(ScanAll(run, now)[k].0).Panicked?
    ensures WeakHealth(ScanAll(run, now)[k].0, ScanAll(run, now)[k].1, now)
  {
    hide Guarded;
    forall d: Detector
      ensures Guarded(d, now, run(d)).0 == d
      ensures run(d).Panicked? ==> WeakHealth(d, Guarded(d, now, run(d)).1, now)
    {
      PanicIsWeak(d, now, run(d));
    }
  }

  predicate WeakHealth(d: Detector, o: Outcome, now: nat) {
    && o.Found? && o.finding.detector == d && o.finding.category == d.category && o.finding.strength == Low
    && o.finding.evidence.Health? && o.finding.observedAt == now
  }

  lemma PanicIsWeak(d: Detector, now: nat, ending: Ending)
    ensures Guarded(d, now, ending).0 == d
    ensures ending.Panicked? ==> WeakHealth(d, Guarded(d, now, ending).1, now)
  {
  }
}
