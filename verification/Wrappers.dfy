/** The two result types the other modules share. */
module Wrappers {
  datatype Option<+T> = None | Some(value: T)

  /** What a scanner or a parser method yields: a value and the position after it, or the position
      and text of a thrown error. */
  datatype Scan<+T> = Ok(value: T, next: nat) | Err(at: nat, why: string) {
    predicate IsFailure() {
      Err?
    }

    function PropagateFailure<U>(): Scan<U>
      requires Err?
    {
      Err(at, why)
    }

    function Extract(): T
      requires Ok?
    {
      value
    }

    /** Where the cursor stands once the scan is over, whichever way it ended. */
    function Position(): nat {
      if Ok? then next else at
    }
  }
}
