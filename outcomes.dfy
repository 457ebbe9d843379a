/** Values, errors and outcomes shared by the dice model.

    The Python code signals failure by raising; here every raise becomes an
    `Err` (for a call that returns a value) or a `Raise` (for a call that
    only changes state), carrying the kind of exception. */
module Outcomes {

  datatype Option<+T> = None | Some(value: T)

  /** The Python exceptions the modelled code can raise. */
  datatype Error =
    | ValueError      // invalid die configuration, or a negative read count
    | AttributeError  // rolling a weighted die whose `sides` was never assigned
    | IndexError      // `pop(0)` on an empty history array

  datatype Result<+T> = Ok(value: T) | Err(error: Error)

  /** The completion of a call that returns nothing useful. */
  datatype Outcome = Pass | Raise(error: Error)

  function Min(a: int, b: int): int { if a <= b then a else b }

  function Max(a: int, b: int): int { if a <= b then b else a }
}
