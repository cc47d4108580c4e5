/** Failure-compatible wrappers and the error values the tuning engine reports. */
module Results {

  /** A value that may be absent; `None` plays the role of a nil error. */
  datatype Option<+T> = None | Some(value: T)

  /** Every error the engine can report, carrying the offending text. */
  datatype Error =
    | InvalidType(text: string)       // workload type not in the supported list
    | InvalidVersion(text: string)    // version not in the supported list
    | InvalidPlatform(text: string)   // platform not in the supported list
    | BadMemory(text: string)         // memory quantity does not match the grammar
    | BadInteger(text: string)        // connections or CPU count is not an integer
    | InvalidStorage(text: string)    // storage class not in the supported list
    | UnknownSetting(name: string)    // accessor asked for a parameter that is not derived

  /** Either a value or the error that prevented computing it; usable with `:-`. */
  datatype Result<+T> = Ok(value: T) | Err(error: Error) {

    predicate IsFailure() {
      Err?
    }

    function PropagateFailure<U>(): Result<U>
      requires Err?
    {
      Err(error)
    }

    function Extract(): T
      requires Ok?
    {
      value
    }
  }
}
