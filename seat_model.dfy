/**
 * The values the seat-reservation core passes around: the reservation
 * record, the user account, and the four-way outcome of a call to the
 * remote seat service.
 */
module SeatModel {
  import opened Clock

  /** Swift's `Optional`. */
  datatype Option<T> = None | Some(value: T)

  /** The live state of a reservation; the scheduler only tells `TempAway` apart. */
  datatype ReservationState =
    | Normal
    | TempAway(since: Instant)
    | Other(description: string)

  /**
   * One reservation record. `isStarted` and `isHistory` are derived by the
   * app from the time window and the current clock; here they are the
   * values observed at the moment of the call.
   */
  datatype SeatReservation = SeatReservation(
    start: Instant,
    end: Instant,
    message: Option<string>,
    rawLocation: string,
    currentState: ReservationState,
    awayStart: Option<Instant>,
    isStarted: bool,
    isHistory: bool)

  /** The account; its username names the account's archive file. */
  datatype UserAccount = UserAccount(username: string)

  datatype NetworkError = NetworkError(description: string)

  /** A business error the server reported with a message. */
  datatype FailedResponse = FailedResponse(code: int, message: string)

  /** The outcome a completion handler of the seat service receives. */
  datatype SeatResponse<T> =
    | Error(error: NetworkError)
    | Failed(failed: FailedResponse)
    | RequireLogin
    | Success(value: T)

  /** Re-wraps a non-success outcome for a callback of another value type, as a `switch` that returns the same case. */
  function Forwarded<T, U>(response: SeatResponse<T>): SeatResponse<U>
    requires !response.Success?
  {
    match response
    case Error(e) => Error(e)
    case Failed(r) => Failed(r)
    case RequireLogin => RequireLogin
  }
}
