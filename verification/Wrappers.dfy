/** Optional values and fallible results. */
module Wrappers {

  datatype Option<+T> = None | Some(value: T)

  /** Why a service call was refused, one constructor per exception class the services raise.
      `Integrity` stands for a violated unique or primary key. */
  datatype Error =
    | NotFound
    | Validation
    | InsufficientFunds
    | Conflict
    | Forbidden
    | Idempotency
    | BetNotAvailable
    | BetExpired
    | SelfBet
    | PredictionConflict
    | MatchNotAvailable
    | AccountIneligible
    | Integrity

  datatype Result<+T> = Ok(value: T) | Err(error: Error)
}
