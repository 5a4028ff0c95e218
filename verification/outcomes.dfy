/** Result types shared by every stochastic operation of the simulation. */
module Outcomes {

  /** Python's `None` or a value. */
  datatype Option<+T> = None | Some(value: T)

  /** Why an operation produced no value. */
  datatype Failure =
    | DrawsExhausted  // the supplied uniform draws ran out before the geometric process stopped
    | ZeroDivision    // a win rate was asked for over zero trials (`wins / times` with times == 0)

  /** A value together with the number of uniform draws consumed to produce it. */
  datatype Outcome<+T> = Ok(value: T, used: nat) | Fail(failure: Failure)
}
