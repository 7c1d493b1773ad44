/** Error kinds raised by the city ledger, in place of the C++ exception classes. */
module Errors {

  datatype Option<+T> = None | Some(value: T)

  datatype Result<+T> = Success(value: T) | Failure(error: Error)

  /** Every failure the core can report. Only `InsufficientResource` and
      `LimitExceeded` are distinct exception classes in the source; the other
      kinds are plain `CityException`s told apart here by their cause, except
      `BadParameter`, which stands for the `std::invalid_argument` that
      `std::stoi`/`std::stod` throw on a token that is not a number and the
      `std::out_of_range` they throw on one too large for the target type. */
  datatype Error =
    | UnknownType(id: string)
    | BadParameter
    | NonPositiveCapacity
    | NegativeCustomers
    | NoProduction
    | NonPositiveProductionCost
    | NegativeQuantity
    | InsufficientResource(resource: string)
    | InsufficientFunds
    | LimitExceeded
    | EmptySlot
}
