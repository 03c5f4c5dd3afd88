/** JSON responses of the booking endpoints: a status and a body. */
module Http {
  import opened Schema

  /** The text of an error body: a fixed message, or the validation issues as
      `fromError(...).toString()` renders them (the rendering is not modelled). */
  datatype ErrorText = Text(s: string) | ValidationText(issues: seq<Issue>)

  datatype Payload =
    | BookingPayload(booking: DemoBooking)
    | BookingsPayload(bookings: seq<DemoBooking>)
    | ErrorPayload(key: string, text: ErrorText)

  datatype Response = Response(status: nat, payload: Payload)

  /** An error body with the single field `key`. */
  function Error(status: nat, key: string, text: ErrorText): Response
  {
    Response(status, ErrorPayload(key, text))
  }
}
