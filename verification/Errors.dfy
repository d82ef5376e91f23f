/** Faults and failure-compatible results shared by every component. */
module Errors {

  datatype ErrorCode =
    | InvalidProfile
    | TimeOverflow
    | IllegalInstruction
    | InstructionMisaligned
    | InstructionAccess
    | LoadMisaligned
    | StoreMisaligned
    | LoadAccess
    | StoreAccess
    | EnvironmentCall
    | Breakpoint
    | UnsupportedSynchronization
    | InvalidPort
    | InvalidCodeword
    | InvalidOperand
    | Capacity
    | LateAdmission
    | ManifestMismatch
    | Protocol
    | ResourceConflict
    | GateInputMismatch
    | UnsupportedCapability
    | InvalidMeasurement
    | DuplicateResult
    | BackendFailure

  datatype Option<+T> = None | Some(value: T)

  /** A value, or the fault that ends the run. */
  datatype Result<+T> = Ok(value: T) | Err(error: ErrorCode) {
    predicate IsFailure() { Err? }

    function PropagateFailure<U>(): Result<U>
      requires Err?
    {
      Err(error)
    }

    function Extract(): T
      requires Ok?
    {
      value
    }
  }

  /** The source's `require(condition, code, message)`. */
  function Require(condition: bool, code: ErrorCode): Result<()> {
    if condition then Ok(()) else Err(code)
  }

  function Max(a: int, b: int): int { if a < b then b else a }
}
