/** The Cloud Functions `createBooking`, `getBookings` and the `api` dispatcher.
    The Firestore collection `demoBookings` is modelled as the sequence of its
    documents; `docRef.id` and `Timestamp.now()` are passed in, and a failing
    `set` or `get` is the flag `fails`. Errors use the key `message`. */
module CloudFunctions {
  import opened Wrappers
  import opened Json
  import opened Schema
  import opened Http

  /** `req.method`, `req.path` and `req.body`. */
  datatype Request = Request(verb: string, path: string, body: Json)

  /** The response and the documents of the collection after the call. */
  datatype Outcome = Outcome(response: Response, docs: seq<DemoBooking>)

  const NotAllowed := Error(405, "message", Text("Method not allowed"))
  const NotFound := Error(404, "message", Text("Endpoint not found"))
  const CreateFailed := Error(500, "message", Text("Failed to create booking"))
  const FetchFailed := Error(500, "message", Text("Failed to fetch bookings"))

  /** `.limit(100)` of the listing query. */
  const PageLimit: nat := 100

  /** The document written: `{ ...result.data, createdAt: Timestamp.now(), id: docRef.id }`. */
  function BookingData(b: InsertDemoBooking, docId: string, now: Instant): DemoBooking
  {
    DemoBooking(docId, b.name, b.email, b.phone, b.grade, Some(b.message), now)
  }

  /** `createBooking` */
  function CreateBooking(isEmail: EmailCheck, req: Request, docs: seq<DemoBooking>, docId: string, now: Instant,
                         fails: bool): (out: Outcome)
    ensures out.response.status in {201, 400, 405, 500}
    ensures out.response.status == 201 ==>
              out.response.payload.BookingPayload? && out.docs == docs + [out.response.payload.booking]
    ensures out.response.status != 201 ==> out.docs == docs
  {
    if req.verb != "POST" then Outcome(NotAllowed, docs)
    else match ParseDemoBooking(isEmail, req.body)
      case Failure(issues) => Outcome(Error(400, "message", ValidationText(issues)), docs)
      case Success(b) =>
        var data := BookingData(b, docId, now);
        if fails then Outcome(CreateFailed, docs)
        else Outcome(Response(201, BookingPayload(data)), docs + [data])
  }

  predicate NewestFirstOrder(s: seq<DemoBooking>)
  {
    forall i, j :: 0 <= i < j < |s| ==> s[i].createdAt >= s[j].createdAt
  }

  /** How many leading documents of a newest-first list are strictly newer than `d`. */
  function NewerPrefix(d: DemoBooking, s: seq<DemoBooking>): (k: nat)
    requires NewestFirstOrder(s)
    ensures k <= |s|
    ensures forall i :: 0 <= i < k ==> s[i].createdAt > d.createdAt
    ensures forall i :: k <= i < |s| ==> s[i].createdAt <= d.createdAt
  {
    if s == [] || d.createdAt >= s[0].createdAt then 0
    else
      var k := 1 + NewerPrefix(d, s[1..]);
      assert forall i :: 1 <= i < |s| ==> s[i] == s[1..][i - 1];
      k
  }

  /** Putting `d` between the documents newer than it and the others keeps the order. */
  lemma SplitInsertOrdered(d: DemoBooking, s: seq<DemoBooking>, k: nat)
    requires NewestFirstOrder(s) && k <= |s|
    requires forall i :: 0 <= i < k ==> s[i].createdAt > d.createdAt
    requires forall i :: k <= i < |s| ==> s[i].createdAt <= d.createdAt
    ensures NewestFirstOrder(s[..k] + [d] + s[k..])
  {
    var r := s[..k] + [d] + s[k..];
    forall i, j | 0 <= i < j < |r|
      ensures r[i].createdAt >= r[j].createdAt
    {
      var si := if i < k then i else i - 1;
      var sj := if j < k then j else j - 1;
      if i < k { assert r[i] == s[i]; }
      if i > k { assert r[i] == s[i - 1]; }
      if j < k { assert r[j] == s[j]; }
      if j > k { assert r[j] == s[j - 1]; }
    }
  }

  /** Places `d` before the first document that is not newer than it. */
  function InsertNewestFirst(d: DemoBooking, s: seq<DemoBooking>): (r: seq<DemoBooking>)
    requires NewestFirstOrder(s)
    ensures NewestFirstOrder(r)
    ensures multiset(r) == multiset(s) + multiset{d}
  {
    var k := NewerPrefix(d, s);
    SplitInsertOrdered(d, s, k);
    assert s == s[..k] + s[k..];
    s[..k] + [d] + s[k..]
  }

  /** The documents ordered by `createdAt`, newest first. */
  function SortNewestFirst(docs: seq<DemoBooking>): (r: seq<DemoBooking>)
    ensures NewestFirstOrder(r)
    ensures multiset(r) == multiset(docs)
  {
    if docs == [] then []
    else
      assert docs == [docs[0]] + docs[1..];
      InsertNewestFirst(docs[0], SortNewestFirst(docs[1..]))
  }

  function Min(a: nat, b: nat): nat
  {
    if a <= b then a else b
  }

  /** `orderBy("createdAt", "desc").limit(limit)`: the `limit` newest documents, newest first. */
  function NewestFirst(docs: seq<DemoBooking>, limit: nat): (r: seq<DemoBooking>)
    ensures |r| == Min(limit, |docs|)
    ensures NewestFirstOrder(r)
    ensures multiset(r) <= multiset(docs)
  {
    var s := SortNewestFirst(docs);
    var k := Min(limit, |s|);
    assert |s| == |docs| by {
      assert |multiset(s)| == |multiset(docs)|;
    }
    assert multiset(s) == multiset(s[..k]) + multiset(s[k..]) by {
      assert s == s[..k] + s[k..];
    }
    assert forall i :: 0 <= i < k ==> s[..k][i] == s[i];
    s[..k]
  }

  /** A document left out of the listing is no newer than any document listed. */
  lemma OmittedAreOlder(docs: seq<DemoBooking>, limit: nat, d: DemoBooking, e: DemoBooking)
    requires d in docs && d !in NewestFirst(docs, limit) && e in NewestFirst(docs, limit)
    ensures e.createdAt >= d.createdAt
  {
    var s := SortNewestFirst(docs);
    var k := Min(limit, |s|);
    assert |s| == |multiset(s)| == |docs|;
    assert d in multiset(docs);
    assert d in s;
    var i :| 0 <= i < |s| && s[i] == d;
    var j :| 0 <= j < k && s[..k][j] == e;
    assert s[j] == e;
  }

  /** `getBookings`: each listed item is `{ id: doc.id, ...doc.data() }`, which is the document
      itself since the stored data carries the same id. */
  function GetBookings(req: Request, docs: seq<DemoBooking>, fails: bool): (r: Response)
    ensures r.status in {200, 405, 500}
    ensures req.verb == "GET" && fails ==> r == FetchFailed
    ensures r.status == 200 ==>
              && r.payload.BookingsPayload?
              && |r.payload.bookings| == Min(PageLimit, |docs|)
              && NewestFirstOrder(r.payload.bookings)
              && multiset(r.payload.bookings) <= multiset(docs)
  {
    if req.verb != "GET" then NotAllowed
    else if fails then FetchFailed
    else Response(200, BookingsPayload(NewestFirst(docs, PageLimit)))
  }

  predicate BookingsPath(path: string)
  {
    path == "/bookings" || path == "/bookings/"
  }

  /** `api`: routes the two booking paths by method; everything else is 404. */
  function Api(isEmail: EmailCheck, req: Request, docs: seq<DemoBooking>, docId: string, now: Instant,
               fails: bool): (out: Outcome)
    ensures out.response.status != 405
    ensures out.docs != docs ==> BookingsPath(req.path) && req.verb == "POST" && out.response.status == 201
  {
    if BookingsPath(req.path) && req.verb == "POST" then CreateBooking(isEmail, req, docs, docId, now, fails)
    else if BookingsPath(req.path) && req.verb == "GET" then Outcome(GetBookings(req, docs, fails), docs)
    else Outcome(NotFound, docs)
  }

  /** `createBooking` refuses every method but POST with 405 and writes nothing. */
  lemma CreateBookingOnlyPost(isEmail: EmailCheck, req: Request, docs: seq<DemoBooking>, docId: string,
                              now: Instant, fails: bool)
    requires req.verb != "POST"
    ensures CreateBooking(isEmail, req, docs, docId, now, fails) == Outcome(NotAllowed, docs)
  {
  }

  /** A POST whose body fails the schema gets 400 with the issues and writes nothing; a valid one
      writes exactly one document, the parsed body with the document id and the server clock as
      `createdAt`, whose five fields are the strings the body sent, and answers 201 with exactly
      that document; a failed write answers 500 and writes nothing. */
  lemma CreateBookingOutcomes(isEmail: EmailCheck, req: Request, docs: seq<DemoBooking>, docId: string,
                              now: Instant, fails: bool)
    requires req.verb == "POST"
    ensures var out := CreateBooking(isEmail, req, docs, docId, now, fails);
            && (ParseDemoBooking(isEmail, req.body).Failure? ==>
                  out == Outcome(Error(400, "message", ValidationText(BodyIssues(isEmail, req.body, BookingShape))), docs))
            && (ParseDemoBooking(isEmail, req.body).Success? && !fails ==>
                  var b := ParseDemoBooking(isEmail, req.body).value;
                  var d := BookingData(b, docId, now);
                  && out == Outcome(Response(201, BookingPayload(d)), docs + [d])
                  && d.id == docId && d.createdAt == now && ValidDemoBooking(isEmail, b)
                  && HasString(req.body, "name", d.name) && HasString(req.body, "email", d.email)
                  && HasString(req.body, "phone", d.phone) && HasString(req.body, "grade", d.grade)
                  && HasString(req.body, "message", d.message.value))
            && (ParseDemoBooking(isEmail, req.body).Success? && fails ==> out == Outcome(CreateFailed, docs))
  {
    if ParseDemoBooking(isEmail, req.body).Success? {
      ParseDemoBookingAccepts(isEmail, req.body);
      var b := ParseDemoBooking(isEmail, req.body).value;
      assert InsertDemoBooking(b.name, b.email, b.phone, b.grade, b.message) == b;
      var d := BookingData(b, docId, now);
      if !fails {
        assert CreateBooking(isEmail, req, docs, docId, now, fails) == Outcome(Response(201, BookingPayload(d)), docs + [d]);
      }
    }
  }

  /** `getBookings` refuses every method but GET with 405; for GET it lists at most 100 documents,
      newest first, each a stored document, and leaves out only documents no newer than those listed. */
  lemma GetBookingsListing(req: Request, docs: seq<DemoBooking>, fails: bool)
    ensures req.verb != "GET" ==> GetBookings(req, docs, fails) == NotAllowed
    ensures req.verb == "GET" && fails ==> GetBookings(req, docs, fails) == FetchFailed
    ensures req.verb == "GET" && !fails ==>
              var r := GetBookings(req, docs, fails);
              && r.status == 200
              && |r.payload.bookings| == Min(PageLimit, |docs|)
              && NewestFirstOrder(r.payload.bookings)
              && multiset(r.payload.bookings) <= multiset(docs)
              && forall d, e :: d in docs && d !in r.payload.bookings && e in r.payload.bookings ==> e.createdAt >= d.createdAt
  {
    if req.verb == "GET" && !fails {
      forall d, e | d in docs && d !in NewestFirst(docs, PageLimit) && e in NewestFirst(docs, PageLimit)
        ensures e.createdAt >= d.createdAt
      {
        OmittedAreOlder(docs, PageLimit, d, e);
      }
    }
  }

  /** `api` answers 404 exactly when the path is not `/bookings` or `/bookings/` or the method is
      neither POST nor GET; it never answers 405, because it only forwards the method each handler accepts. */
  lemma ApiRouting(isEmail: EmailCheck, req: Request, docs: seq<DemoBooking>, docId: string, now: Instant,
                   fails: bool)
    ensures var r := Api(isEmail, req, docs, docId, now, fails).response;
            && (r == NotFound <==> !(BookingsPath(req.path) && (req.verb == "POST" || req.verb == "GET")))
            && r.status != 405
    ensures BookingsPath(req.path) && req.verb == "POST" ==>
              Api(isEmail, req, docs, docId, now, fails) == CreateBooking(isEmail, req, docs, docId, now, fails)
    ensures BookingsPath(req.path) && req.verb == "GET" ==>
              Api(isEmail, req, docs, docId, now, fails) == Outcome(GetBookings(req, docs, fails), docs)
  {
  }

  /** Two documents at increasing instants sort newer first. */
  lemma SortTwo(d1: DemoBooking, d2: DemoBooking)
    requires d1.createdAt < d2.createdAt
    ensures SortNewestFirst([d1, d2]) == [d2, d1]
  {
    assert [d1, d2][1..] == [d2];
    assert SortNewestFirst([d2]) == [d2] by {
      assert [d2][1..] == [];
      assert NewerPrefix(d2, []) == 0;
    }
    assert NewerPrefix(d1, [d2]) == 1 by {
      assert [d2][1..] == [];
      assert NewerPrefix(d1, []) == 0;
    }
    assert [d2][..1] + [d1] + [d2][1..] == [d2, d1];
  }

  /** Two documents at increasing instants are listed newer first. */
  lemma ListTwo(d1: DemoBooking, d2: DemoBooking)
    requires d1.createdAt < d2.createdAt
    ensures NewestFirst([d1, d2], PageLimit) == [d2, d1]
  {
    SortTwo(d1, d2);
    assert [d2, d1][..2] == [d2, d1];
  }

  /** A valid booking posted to `/bookings` through `api` appends its document. */
  lemma PostAppends(isEmail: EmailCheck, b: InsertDemoBooking, docs: seq<DemoBooking>, id: string, t: Instant)
    requires ValidDemoBooking(isEmail, b)
    ensures Api(isEmail, Request("POST", "/bookings", BookingJson(b)), docs, id, t, false).docs ==
            docs + [BookingData(b, id, t)]
  {
    ParseBookingJson(isEmail, b);
    assert BookingsPath("/bookings");
  }

  /** A GET on a booking path through `api` lists the newest documents. */
  lemma GetThroughApi(isEmail: EmailCheck, path: string, docs: seq<DemoBooking>, id: string, t: Instant)
    requires BookingsPath(path)
    ensures Api(isEmail, Request("GET", path, JNull), docs, id, t, false).response ==
            Response(200, BookingsPayload(NewestFirst(docs, PageLimit)))
  {
  }

  /** Two valid bookings posted through `api` at increasing instants into an empty collection are
      listed by a later GET newest first. */
  lemma TwoPostsThenGet(isEmail: EmailCheck, b1: InsertDemoBooking, b2: InsertDemoBooking,
                        id1: string, id2: string, t1: Instant, t2: Instant, getPath: string)
    requires ValidDemoBooking(isEmail, b1) && ValidDemoBooking(isEmail, b2)
    requires t1 < t2
    requires BookingsPath(getPath)
    ensures var s1 := Api(isEmail, Request("POST", "/bookings", BookingJson(b1)), [], id1, t1, false);
            var s2 := Api(isEmail, Request("POST", "/bookings", BookingJson(b2)), s1.docs, id2, t2, false);
            var g := Api(isEmail, Request("GET", getPath, JNull), s2.docs, id2, t2, false);
            g.response == Response(200, BookingsPayload([BookingData(b2, id2, t2), BookingData(b1, id1, t1)]))
  {
    var d1, d2 := BookingData(b1, id1, t1), BookingData(b2, id2, t2);
    var s1 := Api(isEmail, Request("POST", "/bookings", BookingJson(b1)), [], id1, t1, false);
    PostAppends(isEmail, b1, [], id1, t1);
    assert s1.docs == [d1];
    var s2 := Api(isEmail, Request("POST", "/bookings", BookingJson(b2)), s1.docs, id2, t2, false);
    PostAppends(isEmail, b2, [d1], id2, t2);
    assert s2.docs == [d1, d2];
    GetThroughApi(isEmail, getPath, [d1, d2], id2, t2);
    ListTwo(d1, d2);
  }
}
