/** The Next.js route handlers of `/api/bookings` over the shared `MemStorage`.
    Errors are reported under the key `error`. `request.json()` is modelled by
    its outcome: the parsed body, or `None` when the body is not JSON and the
    call throws. A storage exception is the flag `fault`: the store call throws
    before writing. */
module NextRoute {
  import opened Wrappers
  import opened Json
  import opened Schema
  import opened JsMap
  import opened Storage
  import opened Http

  const CreateFailed := Error(500, "error", Text("Failed to create booking"))
  const FetchFailed := Error(500, "error", Text("Failed to fetch bookings"))

  /** The response to a POST and the bookings map after it. */
  datatype Outcome = Outcome(response: Response, bookings: OrderedMap<DemoBooking>)

  /** `POST(request)` as a function of the bookings map before the call. */
  function PostSpec(isEmail: EmailCheck, body: Option<Json>, fault: bool, id: string, now: Instant,
                    bookings: OrderedMap<DemoBooking>): Outcome
    requires JsMap.Valid(bookings)
  {
    if body.None? then Outcome(CreateFailed, bookings)
    else match ParseDemoBooking(isEmail, body.value)
      case Failure(issues) => Outcome(Error(400, "error", ValidationText(issues)), bookings)
      case Success(b) =>
        if fault then Outcome(CreateFailed, bookings)
        else
          var stored := StoredBooking(b, id, now);
          Outcome(Response(201, BookingPayload(stored)), Set(bookings, id, stored))
  }

  /** `GET()` given the listing the store returns, or `fault` when it throws. */
  function GetSpec(fault: bool, bookings: OrderedMap<DemoBooking>): Response
    requires JsMap.Valid(bookings)
  {
    if fault then FetchFailed else Response(200, BookingsPayload(Values(bookings)))
  }

  method Post(storage: MemStorage, isEmail: EmailCheck, body: Option<Json>, fault: bool, id: string, now: Instant)
    returns (response: Response)
    requires storage.Valid()
    modifies storage
    ensures storage.Valid() && storage.users == old(storage.users)
    ensures Outcome(response, storage.demoBookings) == PostSpec(isEmail, body, fault, id, now, old(storage.demoBookings))
  {
    if body.None? {
      return CreateFailed;
    }
    var result := ParseDemoBooking(isEmail, body.value);
    if result.Failure? {
      return Error(400, "error", ValidationText(result.error));
    }
    if fault {
      return CreateFailed;
    }
    var booking := storage.CreateDemoBooking(result.value, id, now);
    return Response(201, BookingPayload(booking));
  }

  method Get(storage: MemStorage, fault: bool) returns (response: Response)
    requires storage.Valid()
    ensures response == GetSpec(fault, storage.demoBookings)
  {
    if fault {
      return FetchFailed;
    }
    var bookings := storage.GetDemoBookings();
    return Response(200, BookingsPayload(bookings));
  }

  /** A JSON body that fails the schema gets 400 with the validation issues under `error`,
      and nothing is stored. */
  lemma PostRejectsInvalid(isEmail: EmailCheck, j: Json, fault: bool, id: string, now: Instant,
                           bookings: OrderedMap<DemoBooking>)
    requires JsMap.Valid(bookings)
    requires ParseDemoBooking(isEmail, j).Failure?
    ensures PostSpec(isEmail, Some(j), fault, id, now, bookings) ==
            Outcome(Error(400, "error", ValidationText(BodyIssues(isEmail, j, BookingShape))), bookings)
  {
  }

  /** A valid body with a working store and a fresh id adds exactly one booking, at the end of
      the listing, and the 201 body is that stored booking with the five fields as sent. */
  lemma PostStoresValid(isEmail: EmailCheck, b: InsertDemoBooking, id: string, now: Instant,
                        bookings: OrderedMap<DemoBooking>)
    requires JsMap.Valid(bookings) && id !in bookings.entries
    requires ValidDemoBooking(isEmail, b)
    ensures var out := PostSpec(isEmail, Some(BookingJson(b)), false, id, now, bookings);
            var d := DemoBooking(id, b.name, b.email, b.phone, b.grade, Some(b.message), now);
            && out.response == Response(201, BookingPayload(d))
            && Values(out.bookings) == Values(bookings) + [d]
  {
    ParseBookingJson(isEmail, b);
    StoredValidBooking(isEmail, b, id, now);
    SetFresh(bookings, id, StoredBooking(b, id, now));
  }

  /** Status 201 is answered exactly when the body is JSON, passes the schema and the store
      does not fail; otherwise the store is left as it was. */
  lemma PostStatus(isEmail: EmailCheck, body: Option<Json>, fault: bool, id: string, now: Instant,
                   bookings: OrderedMap<DemoBooking>)
    requires JsMap.Valid(bookings)
    ensures var out := PostSpec(isEmail, body, fault, id, now, bookings);
            && (out.response.status == 201 <==> body.Some? && ParseDemoBooking(isEmail, body.value).Success? && !fault)
            && (out.response.status == 400 <==> body.Some? && ParseDemoBooking(isEmail, body.value).Failure?)
            && (out.response.status != 201 ==> out.bookings == bookings)
  {
  }

  /** A body that is not JSON makes `request.json()` throw inside the `try`: the answer is
      500 "Failed to create booking", not 400. */
  lemma PostNotJson(isEmail: EmailCheck, fault: bool, id: string, now: Instant, bookings: OrderedMap<DemoBooking>)
    requires JsMap.Valid(bookings)
    ensures PostSpec(isEmail, None, fault, id, now, bookings) == Outcome(CreateFailed, bookings)
  {
  }

  /** Every error body of this route, on POST and on GET, uses the key `error`. */
  lemma ErrorsUseErrorKey(isEmail: EmailCheck, body: Option<Json>, fault: bool, id: string, now: Instant,
                          bookings: OrderedMap<DemoBooking>)
    requires JsMap.Valid(bookings)
    ensures var r := PostSpec(isEmail, body, fault, id, now, bookings).response;
            r.status != 201 ==> r.payload.ErrorPayload? && r.payload.key == "error"
    ensures var r := GetSpec(fault, bookings);
            r.status != 200 ==> r.payload.ErrorPayload? && r.payload.key == "error"
  {
  }
}
