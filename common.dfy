/** Shared value types of the package planner: optional values, results with an
    error, and the ways a request can fail. */
module Common {

  datatype Option<T> = None | Some(value: T)

  datatype Result<T, E> = Success(value: T) | Failure(error: E)

  /** Every way a packages request ends in a rejection. The source raises most
      of these as JavaScript exceptions; the comment says which. */
  datatype Error =
    | TooManySegments   // eval('o_' + i) for i > 5: ReferenceError
    | ProviderFailure   // a flight or hotel provider request failed
    | UnknownCarrier    // airline lookup found nothing: TypeError on undefined.get
    | NoFlightOption    // flights[0] is undefined: TypeError
    | MissingStop       // flights[0]['trip_i'] or its last stop is undefined: TypeError
    | NoHotelOption     // "No hotel option matches the price option, ..."
    | NoCombination     // stack[stack.length - 1] is undefined: TypeError
    | MissingPackage    // result['package_i'] or its hotel is undefined: TypeError

  /** The five origin/destination/date triples a query can carry. */
  const MaxSegments: nat := 5

  function Max(a: int, b: int): int {
    if a < b then b else a
  }

  function Min(a: int, b: int): int {
    if a < b then a else b
  }
}
