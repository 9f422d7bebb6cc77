/** The application's error values: the error class, the description that
    becomes the error's message, and optional internal details that are
    logged but never shown. Each error class supplies a default description
    used when the constructor is given none. */
module Errors {

  import opened Common

  datatype ErrorName = BettingError | CashoutError | GameError

  datatype AppError = AppError(name: ErrorName, description: string, internalDetails: Option<string>)

  function DefaultDescription(name: ErrorName): string
  {
    match name
    case BettingError => "Unable to process your bet"
    case CashoutError => "Unable to process cashout"
    case GameError => "Unexpected error occured"
  }

  /** An error constructed with `internalDetails` only: the message shown to
      the caller is the class's default description. */
  function WithDetails(name: ErrorName, details: string): (e: AppError)
    ensures e.name == name && e.description == DefaultDescription(name)
    ensures e.internalDetails == Some(details)
  {
    AppError(name, DefaultDescription(name), Some(details))
  }

  /** An error constructed with an explicit description. */
  function WithDescription(name: ErrorName, description: string): (e: AppError)
    ensures e.name == name && e.description == description && e.internalDetails.None?
  {
    AppError(name, description, None)
  }

  const USER_NOT_FOUND := "User not found"
  const INSUFFICIENT_BALANCE := "Insufficient balance"
  const BET_NOT_FOUND := "Bet not found"
  const BET_ALREADY_SETTLED := "Bet already settled"

  datatype Result<+T> = Success(value: T) | Failure(error: AppError)
}
