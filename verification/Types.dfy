/** The plain values that every Fidelity crate shares. */
module Types {

  datatype Option<+T> = None | Some(value: T) {
    predicate IsFailure() { None? }
    function PropagateFailure<U>(): Option<U> requires None? { None }
    function Extract(): T requires Some? { value }
    /** The first answer, or the other one when there is none. */
    function Or(other: Option<T>): Option<T> { if Some? then this else other }
  }

  const U32_MAX: nat := 0xFFFF_FFFF
  const U64_SPAN: nat := 0x1_0000_0000_0000_0000

  /** One unsigned byte. */
  type byte = x: int | 0 <= x < 256

  datatype Category =
    | Integrity | Debugging | Instrumentation | DeviceCompromise | Virtualization | UiAbuse

  datatype Strength = Low | Medium | High {
    function Rank(): nat { if Low? then 0 else if Medium? then 1 else 2 }
    predicate Reaches(threshold: Strength) { Rank() >= threshold.Rank() }
  }

  datatype Action = Report | Deny | Callback | Crash

  /** A detector. Two detectors are the same detector when their identifiers agree. */
  datatype Detector = Detector(id: nat, category: Category)

  /** Evidence of the environment, or of the detector's own health. */
  datatype Evidence = Health(detail: string) | Observed(detail: string)

  datatype Finding = Finding(detector: Detector, category: Category, strength: Strength,
                             evidence: Evidence, observedAt: nat)

  datatype Outcome =
    | NotRun
    | Clean
    | Found(finding: Finding)
    | Unsupported(reason: string)

  datatype Result<+T, +E> = Ok(value: T) | Err(error: E) {
    predicate IsFailure() { Err? }
    function PropagateFailure<U>(): Result<U, E> requires Err? { Err(error) }
    function Extract(): T requires Ok? { value }
  }

  /** The finding and the action that the policy selected for it. */
  type Qualified = (Finding, Action)
}
