/** Results of the request handlers: a value, or the failure that the
    handler reports instead of it. HTTP plumbing is reduced to the status
    code each failure is sent with. */
module Outcomes {

  datatype Option<+T> = None | Some(value: T)

  /** The failures the controllers report, one per distinct early return. */
  datatype Failure =
    | MissingField     // a required request field is absent or empty
    | MissingImage     // addCar without an uploaded file
    | NotFound         // no record with the requested id
    | Unavailable      // the car's availability flag is off
    | PastPickup       // pickup date before today's midnight
    | InvalidRange     // return date not after pickup date
    | Conflict         // the car is already booked for the dates
    | Forbidden        // the caller is not the party the record names
    | InvalidStatus    // a status outside the four known ones
    | NotCancellable   // cancelling a booking that is not pending or confirmed
    | Internal         // anything the catch-all turns into a server error

  datatype Outcome<+T> = Ok(value: T) | Err(failure: Failure)

  /** The HTTP status each failure is answered with: validation failures
      are 400, authorisation failures 403, missing records 404 and the
      catch-all 500. */
  function HttpStatus(f: Failure): (code: nat)
    ensures code in {400, 403, 404, 500}
    ensures code == 403 <==> f == Forbidden
    ensures code == 404 <==> f == NotFound
    ensures code == 500 <==> f == Internal
  {
    match f
    case Forbidden => 403
    case NotFound => 404
    case Internal => 500
    case _ => 400
  }
}
