/** The Express handlers that `registerRoutes` installs for `/api/bookings`.
    `req.body` is the body the JSON middleware already parsed; errors are
    reported under the key `message`. The handlers use the store of
    `./storage`, which is modelled by `MemStorage`. */
module ExpressRoutes {
  import opened Wrappers
  import opened Json
  import opened Schema
  import opened JsMap
  import opened Storage
  import opened Http
  import NextRoute

  const CreateFailed := Error(500, "message", Text("Failed to create booking"))
  const FetchFailed := Error(500, "message", Text("Failed to fetch bookings"))

  /** `app.post("/api/bookings", ...)` as a function of the bookings map before the call. */
  function PostSpec(isEmail: EmailCheck, body: Json, fault: bool, id: string, now: Instant,
                    bookings: OrderedMap<DemoBooking>): NextRoute.Outcome
    requires JsMap.Valid(bookings)
  {
    match ParseDemoBooking(isEmail, body)
    case Failure(issues) => NextRoute.Outcome(Error(400, "message", ValidationText(issues)), bookings)
    case Success(b) =>
      if fault then NextRoute.Outcome(CreateFailed, bookings)
      else
        var stored := StoredBooking(b, id, now);
        NextRoute.Outcome(Response(201, BookingPayload(stored)), Set(bookings, id, stored))
  }

  /** `app.get("/api/bookings", ...)`: `res.json` answers with the default status 200. */
  function GetSpec(fault: bool, bookings: OrderedMap<DemoBooking>): Response
    requires JsMap.Valid(bookings)
  {
    if fault then FetchFailed else Response(200, BookingsPayload(Values(bookings)))
  }

  method Post(storage: MemStorage, isEmail: EmailCheck, body: Json, fault: bool, id: string, now: Instant)
    returns (response: Response)
    requires storage.Valid()
    modifies storage
    ensures storage.Valid() && storage.users == old(storage.users)
    ensures NextRoute.Outcome(response, storage.demoBookings) == PostSpec(isEmail, body, fault, id, now, old(storage.demoBookings))
  {
    var result := ParseDemoBooking(isEmail, body);
    if result.Failure? {
      return Error(400, "message", ValidationText(result.error));
    }
    if fault {
      return CreateFailed;
    }
    var booking := storage.CreateDemoBooking(result.value, id, now);
    return Response(201, BookingPayload(booking));
  }

  method Get(storage: MemStorage, fault: bool) returns (response: Response)
    requires storage.Valid()
    ensures response == GetSpec(fault, storage.demoBookings)
  {
    if fault {
      return FetchFailed;
    }
    var bookings := storage.GetDemoBookings();
    return Response(200, BookingsPayload(bookings));
  }

  /** The same response with an error body's key replaced. */
  function Rekey(r: Response, key: string): Response
  {
    if r.payload.ErrorPayload? then Error(r.status, key, r.payload.text) else r
  }

  /** On a parsed body the Express and the Next.js handlers give the same status, the same
      body up to the error key, and the same store; they differ only on bodies that are not
      JSON, which never reach the Express handler. */
  lemma AgreesWithNextRoute(isEmail: EmailCheck, body: Json, fault: bool, id: string, now: Instant,
                            bookings: OrderedMap<DemoBooking>)
    requires JsMap.Valid(bookings)
    ensures var e := PostSpec(isEmail, body, fault, id, now, bookings);
            var n := NextRoute.PostSpec(isEmail, Some(body), fault, id, now, bookings);
            e.bookings == n.bookings && e.response == Rekey(n.response, "message")
    ensures GetSpec(fault, bookings) == Rekey(NextRoute.GetSpec(fault, bookings), "message")
  {
  }

  /** An invalid body gets 400 with the issues under `message`, and nothing is stored; a store
      failure gets 500 and nothing is stored; a valid body with a working store gets 201 with the
      stored record, which is appended to the listing when the id is fresh. */
  lemma PostOutcomes(isEmail: EmailCheck, body: Json, fault: bool, id: string, now: Instant,
                     bookings: OrderedMap<DemoBooking>)
    requires JsMap.Valid(bookings)
    ensures var out := PostSpec(isEmail, body, fault, id, now, bookings);
            && (ParseDemoBooking(isEmail, body).Failure? ==>
                  out == NextRoute.Outcome(Error(400, "message", ValidationText(BodyIssues(isEmail, body, BookingShape))), bookings))
            && (ParseDemoBooking(isEmail, body).Success? && !fault ==>
                  var d := StoredBooking(ParseDemoBooking(isEmail, body).value, id, now);
                  && out.response == Response(201, BookingPayload(d))
                  && (id !in bookings.entries ==> Values(out.bookings) == Values(bookings) + [d]))
            && (ParseDemoBooking(isEmail, body).Success? && fault ==> out == NextRoute.Outcome(CreateFailed, bookings))
  {
    if ParseDemoBooking(isEmail, body).Success? {
      var b := ParseDemoBooking(isEmail, body).value;
      if id !in bookings.entries {
        SetFresh(bookings, id, StoredBooking(b, id, now));
      }
    }
  }

  /** Every error body of these handlers uses the key `message`. */
  lemma ErrorsUseMessageKey(isEmail: EmailCheck, body: Json, fault: bool, id: string, now: Instant,
                            bookings: OrderedMap<DemoBooking>)
    requires JsMap.Valid(bookings)
    ensures var r := PostSpec(isEmail, body, fault, id, now, bookings).response;
            r.status != 201 ==> r.payload.ErrorPayload? && r.payload.key == "message"
    ensures var r := GetSpec(fault, bookings);
            r.status != 200 ==> r.payload.ErrorPayload? && r.payload.key == "message"
  {
  }
}
