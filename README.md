# Booking lead capture: a verified model

This project models the "book a free demo" pipeline of a math-tutoring marketing
site in Dafny:

- the shared zod schemas for a booking (`name`, `email`, `phone`, `grade`,
  `message`) and for a user (`username`, `password`), as a parser from a
  parsed JSON body to either the validated record or the list of issues;
- `MemStorage`, the in-memory store: a class whose two JavaScript `Map`s
  (users and demo bookings, keyed by id, iterated in insertion order) are
  updated in place by `createUser` and `createDemoBooking`;
- the three HTTP front ends of the booking endpoint: the Next.js route
  handlers, the Express handlers, and the Cloud Functions `createBooking`,
  `getBookings` and `api` over a Firestore collection;
- the demo HTTP server: the mocked `/api/` branch that echoes any parsable
  body, the URL-to-file mapping with its `index.html` fallback, and the
  suffix-to-Content-Type chain.

Files and modules:

| file | module | models |
|---|---|---|
| `wrappers.dfy` | `Wrappers` | `Option` and `Result` |
| `json.dfy` | `Json` | parsed JSON values, `String(n)` for a number, what `{...v}` copies |
| `schema.dfy` | `Schema` | `shared/schema.ts` |
| `js_map.dfy` | `JsMap` | the JavaScript `Map` that `MemStorage` uses |
| `storage.dfy` | `Storage` | `lib/storage.ts` |
| `http.dfy` | `Http` | status and JSON body of a response |
| `next_route.dfy` | `NextRoute` | `app/api/bookings/route.ts` |
| `express_routes.dfy` | `ExpressRoutes` | `server/routes.ts` |
| `cloud_functions.dfy` | `CloudFunctions` | `functions/src/index.ts` |
| `server_demo.dfy` | `DemoServer` | `server-demo.js` |

Everything outside the program is a parameter: zod's email pattern is the
predicate `isEmail`; `randomUUID()`, `docRef.id`, `Date.now()`,
`new Date()` and `Timestamp.now()` are values passed in; `JSON.parse`,
`request.json()`, `fs.stat` and `fs.readFile` are given by their results;
an exception thrown by a store or a Firestore call is a boolean `fault` /
`fails`, and the model takes such a call to throw before it writes.

The two `POST` handlers that use `MemStorage` are methods that call
`MemStorage.CreateDemoBooking` and are proved equal to a specification
function (`PostSpec`) of the store's previous contents; the properties of
the endpoints are lemmas about those functions. The Firestore collection of
the Cloud Functions is the sequence of its documents, and each function is a
pure transition from the documents before to the response and the documents
after.

Where the code departs from what a client of a REST booking API would expect,
the model follows the code:

- `message` is required with a `length` of at least 5 by the shared schema;
  `MemStorage` nevertheless turns an empty message into `null`, so a stored
  booking's message is nullable. Through the endpoints, which validate first,
  it is never `null`.
- A client would expect 405 for other methods and 404 for unknown paths under
  the API. In the code only the Cloud Functions have these answers: the two
  single-purpose functions answer 405, while the combined `api` function
  answers 404 for every other method or path and never 405.
- A client would expect invalid input to get 400. In the Next.js handler, a body that
  is not JSON makes `request.json()` throw inside the `try`, so the answer is
  500 "Failed to create booking".
- The Next.js handlers name the error field `error`; the Express handlers and
  the Cloud Functions name it `message`.
- Listing order: `MemStorage` lists in insertion order; `getBookings` lists the
  100 newest documents, newest first.

## Model

| member | source | states |
|---|---|---|
| `Schema.FieldIssues` | shared/schema.ts:15-21 | a field gets no issue exactly when it is present, a string and passes its check; otherwise exactly one issue, about that field |
| `Schema.ShapeIssuesEmpty` | shared/schema.ts:15-21 | an object passes a schema exactly when every field of the shape is a string passing its own check |
| `Schema.ShapeIssuesSound` | shared/schema.ts:15-21 | every reported issue names a field of the shape that is missing, not a string, or failing its check, and is exactly the one issue (with its message) that field gets |
| `Schema.FailingFieldReported` | shared/schema.ts:16-20 | a string field that fails its constraint is reported with that constraint's own message |
| `Schema.MissingFieldReported` | shared/schema.ts:15-21 | a missing field is reported as "Required" |
| `Schema.ParseDemoBooking` | shared/schema.ts:15-21 | a rejected body carries all of its issues, never an empty list; a body is accepted only when it has no issue |
| `Schema.ParseUser` | shared/schema.ts:4-7 | the same for the user schema |
| `Schema.ParseDemoBookingAccepts` | shared/schema.ts:15-23 | a body is accepted exactly when it is an object whose five fields are strings meeting their constraints (name at least 2, email passes the email check, phone at least 10 with no other format, grade non-empty with no enumeration, message at least 5); the result is exactly those five strings, other fields are dropped |
| `Schema.ParseBookingJson` | shared/schema.ts:15-23 | round trip: a booking sent as a JSON object parses back to itself exactly when it satisfies the five constraints together |
| `Schema.ParseUserJson` | shared/schema.ts:4-9 | a user parses back to itself exactly when the username has at least 3 UTF-16 code units and the password at least 6 |
| `Schema.RejectedBookingIssues` | shared/schema.ts:15-21 | the issues of a rejected booking object are only about the five booking fields |
| `Schema.AstralCharactersCountTwice` | shared/schema.ts:16-20 | `.min` counts UTF-16 code units: a one-emoji name meets the two-character minimum and "hi " plus an emoji meets the five-character one |
| `Schema.BadBookingExample` | shared/schema.ts:16-20 | the body with a one-letter name, a bad email, a 3-digit phone, an empty grade and no message gets exactly five issues, in field order, each with its own message |
| `JsMap.GetSet` | lib/storage.ts:16-29 | after `set(k, v)`, `get(k)` returns `v` and every other key keeps its value |
| `JsMap.SetFresh` | lib/storage.ts:27-39 | setting a fresh key adds one entry, appended at the end of the iteration order |
| `JsMap.SetPresent` | lib/storage.ts:27-39 | setting a present key replaces its value at the same position |
| `JsMap.ValuesListEntries` | lib/storage.ts:43-45 | each stored value appears in `values()` at the one position of its key |
| `JsMap.SizeIsCardinality` | lib/storage.ts:43-45 | `values()` lists as many values as there are entries |
| `Storage.StoredBooking` | lib/storage.ts:33-38 | the stored record has the store's id and instant and the input's name, email, phone and grade; its message is `null` exactly when the input's message is empty, and the input's message otherwise |
| `Storage.StoredValidBooking` | lib/storage.ts:31-38 | a booking that passed the schema is stored with its five fields unchanged, the store's id and instant, and its message not `null` |
| `Storage.ReplayKeys` | lib/storage.ts:31-41 | every stored booking id is the id of one of the creations |
| `Storage.ReplayLists` | lib/storage.ts:31-45 | after N creations with distinct ids, listing returns exactly N records, the stored form of each creation, in call order |
| `Storage.TwoCreations` | lib/storage.ts:31-45 | the same input created twice gives two records with two ids; creation is not deduplicated |
| `Storage.MemStorage.constructor` | lib/storage.ts:12-14 | a new store has two empty maps |
| `Storage.MemStorage.GetUser` | lib/storage.ts:16-18 | returns the user stored under the id, whose id is that id, or nothing when there is none |
| `Storage.MemStorage.GetUserByUsername` | lib/storage.ts:20-22 | returns the earliest inserted user with an equal username, or nothing exactly when no user has it |
| `Storage.MemStorage.CreateUser` | lib/storage.ts:24-29 | stores `{...input, id}` under the id, returns the stored record, leaves the bookings unchanged |
| `Storage.MemStorage.CreateDemoBooking` | lib/storage.ts:31-41 | stores the input's name, email, phone and grade with the store's id and instant and `null` for an empty message (the id and instant are written after the spread, but the input type `InsertDemoBooking` has no `id` or `createdAt` field, so the override is never exercised; both handlers pass zod's parsed data, whose unknown keys are stripped); returns the stored record; leaves the users unchanged |
| `Storage.MemStorage.GetDemoBookings` | lib/storage.ts:43-45 | returns every stored booking exactly once, in insertion order, each under its own id, and changes nothing |
| `NextRoute.Post` | app/api/bookings/route.ts:6-28 | the handler's response and new store are those of the specification function, and users are unchanged |
| `NextRoute.Get` | app/api/bookings/route.ts:30-41 | the response is the listing of the store with status 200, or 500 on a store failure; the store is not changed |
| `NextRoute.PostRejectsInvalid` | app/api/bookings/route.ts:9-17 | a body failing the schema gets 400 with the issues under `error` and stores nothing |
| `NextRoute.PostStoresValid` | app/api/bookings/route.ts:19-20 | a valid body stores exactly one booking, at the end of the listing, and answers 201 with it, its five fields as sent |
| `NextRoute.PostStatus` | app/api/bookings/route.ts:6-28 | 201 exactly when the body is JSON, valid and the store works; 400 exactly when the body is JSON and invalid; the store changes only on 201 |
| `NextRoute.PostNotJson` | app/api/bookings/route.ts:7-27 | a body that is not JSON gets 500 "Failed to create booking", not 400 |
| `NextRoute.ErrorsUseErrorKey` | app/api/bookings/route.ts:6-41 | every error body of the route uses the key `error` |
| `ExpressRoutes.Post` | server/routes.ts:12-29 | the handler's response and new store are those of the specification function, and users are unchanged |
| `ExpressRoutes.Get` | server/routes.ts:32-40 | the response is the listing with status 200, or 500 "Failed to fetch bookings"; the store is not changed |
| `ExpressRoutes.AgreesWithNextRoute` | server/routes.ts:12-40 | on a parsed body the Express and Next.js handlers give the same status, store and body, except that the error key is `message` |
| `ExpressRoutes.PostOutcomes` | server/routes.ts:13-28 | for any id: invalid body, 400 with the issues under `message` and nothing stored; valid body, 201 with the stored record, which is appended to the listing when the id is fresh; store failure, 500 "Failed to create booking" and nothing stored |
| `ExpressRoutes.ErrorsUseMessageKey` | server/routes.ts:12-40 | every error body uses the key `message` |
| `CloudFunctions.CreateBooking` | functions/src/index.ts:15-47 | the answer is 201, 400, 405 or 500; on 201 exactly the returned document is appended to the collection, and on any other answer the collection is unchanged |
| `CloudFunctions.GetBookings` | functions/src/index.ts:50-74 | the answer is 200, 405 or 500; a failed query on GET answers 500 "Failed to fetch bookings"; a 200 lists min(100, N) stored documents, newest first |
| `CloudFunctions.Api` | functions/src/index.ts:77-92 | `api` never answers 405, and it changes the collection only through a POST on a booking path that answers 201 |
| `CloudFunctions.NewestFirst` | functions/src/index.ts:57-61 | the query returns min(100, N) documents, newest first, each one a stored document |
| `CloudFunctions.OmittedAreOlder` | functions/src/index.ts:57-61 | a document left out of the listing is no newer than any listed one |
| `CloudFunctions.CreateBookingOnlyPost` | functions/src/index.ts:17-19 | any method but POST gets 405 and writes nothing |
| `CloudFunctions.CreateBookingOutcomes` | functions/src/index.ts:21-45 | invalid body: 400 with the issues, nothing written; valid body: exactly one document appended, the parsed body with the document id and the server clock as `createdAt`, its five fields the strings the body sent, and the 201 body is exactly that document; failed write: 500 and nothing written |
| `CloudFunctions.GetBookingsListing` | functions/src/index.ts:50-74 | any method but GET gets 405; a GET whose query fails gets 500 "Failed to fetch bookings"; otherwise GET lists at most 100 stored documents, newest first, omitting only documents no newer than those listed |
| `CloudFunctions.ApiRouting` | functions/src/index.ts:77-92 | `api` answers 404 exactly when the path is not `/bookings` or `/bookings/` or the method is neither POST nor GET, and never answers 405; a POST on a booking path gets exactly `createBooking`'s answer and documents, and a GET exactly `getBookings`'s answer with the documents unchanged |
| `CloudFunctions.SortTwo` | functions/src/index.ts:57-61 | two documents at increasing instants sort newer first |
| `CloudFunctions.ListTwo` | functions/src/index.ts:57-61 | two documents at increasing instants are listed newer first |
| `CloudFunctions.PostAppends` | functions/src/index.ts:82-84 | a valid POST through `api` appends its document to the collection |
| `CloudFunctions.GetThroughApi` | functions/src/index.ts:82-87 | a GET on a booking path through `api` answers 200 with the newest documents |
| `CloudFunctions.TwoPostsThenGet` | functions/src/index.ts:15-92 | two valid POSTs at increasing instants into an empty collection, then a GET, list both bookings with the most recent first |
| `Json.NatToString` | server-demo.js:32 | `String(Date.now())` is a non-empty string of decimal digits without a leading zero |
| `Json.DecimalRoundTrip` | server-demo.js:32 | reading the digits back gives the number |
| `Json.NatToStringInjective` | server-demo.js:32 | different numbers give different strings |
| `Json.Utf16Length` | shared/schema.ts:4-21 | a string's JavaScript `length`, which `.min` compares, is between its number of characters and twice that, and equals the number of characters exactly when none is astral |
| `Json.Indexed` | server-demo.js:31-35 | spreading an array gives each element under its index as a decimal key, and no other key |
| `DemoServer.ConcatAppend` | server-demo.js:24-25 | chunks delivered in two runs give the two runs' bodies joined, each chunk decoded by itself, so a character split across a chunk boundary is decoded in two pieces |
| `DemoServer.ReadBody` | server-demo.js:24-26 | the body is each chunk decoded on its own and appended in arrival order |
| `DemoServer.Echo` | server-demo.js:31-35 | the echoed booking has exactly the body's own properties plus `id` and `createdAt`, and `createdAt` is the server's |
| `DemoServer.ApiReply` | server-demo.js:21-46 | only the unanswered route gets no reply; every reply is JSON; a POST to `/api/bookings` gets 201 exactly when the body parses and 400 exactly when it does not |
| `DemoServer.ServedPath` | server-demo.js:49-55 | `/` is served from the public directory's `index.html`; another URL is served from itself under the public directory when `fs.stat` finds it; a URL `fs.stat` does not find falls back to `index.html` |
| `DemoServer.ResolveFile` | server-demo.js:49-55 | the method computes `ServedPath`: `/` maps to `index.html`; another URL maps to itself under the public directory when that exists, and to `index.html` otherwise |
| `DemoServer.LookupContentType` | server-demo.js:64-69 | the type is `text/html` or that of a listed suffix the path ends with; `text/html` when no suffix matches |
| `DemoServer.FirstSuffixWins` | server-demo.js:64-69 | the type is that of the first listed suffix the path ends with |
| `DemoServer.ContentTypeOf` | server-demo.js:64-69 | the if/else chain picks the type of the first matching suffix among `.js`, `.css`, `.png`, `.jpg`, `.json`, defaulting to `text/html` |
| `DemoServer.JpegServedAsHtml` | server-demo.js:64-69 | a `.jpeg` file matches no listed suffix and is served as `text/html` |
| `DemoServer.Handle` | server-demo.js:19-75 | a URL under `/api/` gets the mocked API reply for the body built from the decoded chunks; any other URL gets the served file with its content type, or 404 when the read fails |
| `DemoServer.EchoAcceptsAnyBody` | server-demo.js:27-35 | a POST to `/api/bookings` with any parsable body gets 201 without validation, whose JSON body is the echoed object, echoing every own property of the body, with the body's own `id` when it has one and `demo-` plus the clock otherwise, and always the server's `createdAt` |
| `DemoServer.UnparsableBody` | server-demo.js:36-39 | a POST to `/api/bookings` with an unparsable body gets 400 `{message: 'Invalid request'}`, whatever the clocks read |
| `DemoServer.ApiAnswersOnlyBookings` | server-demo.js:21-46 | under `/api/`, only POST and GET on exactly `/api/bookings` get a reply (POST takes the echo route; GET: 200 with an empty array); any other request, query strings included, gets none |

## Left out

- Asynchrony and interleaving of requests: each request is one sequential step.
- `cors`: the middleware's headers and its own answer to `OPTIONS` preflight requests are not modelled; every request reaches the handler.
- zod's email pattern is a parameter, and `fromError(...).toString()` is represented by the list of issues it formats, not by its text.
- Strings are sequences of Unicode scalar values, so a lone surrogate cannot be represented. zod's `.min` compares `length`, which counts an astral character (outside the Basic Multilingual Plane) as two UTF-16 code units; `Passes` counts it as two as well, through `Utf16Length`.
- Json.Characters: spreading a string gives one property per character, where JavaScript gives one per UTF-16 code unit, so an astral character is one property in the model and two surrogate halves in JavaScript.
- DemoServer.ReadBody: Node's UTF-8 decoding of one Buffer is the parameter `decode`; the replacement characters it produces for a character whose bytes are split across two chunks are not computed, only that each chunk is decoded on its own.
- JSON numbers keep only an integral value; floating point is not modelled. Key order of objects and `JSON.stringify` output are not modelled: objects are maps.
- `randomUUID()`, `docRef.id`, the clocks and `Timestamp` are parameters; the model does not assume that the clock is monotonic. A Firestore `Timestamp` and a `Date` are both an instant in milliseconds.
- The Firestore collection is the sequence of its documents; the automatic document ids are taken to be new, so a write appends.
- CloudFunctions.NewestFirst: the order among documents with equal `createdAt` is decided by Firestore and is not stated; the model's sort is one admissible order.
- A failing store or Firestore call is modelled as throwing before it writes; `MemStorage` itself never throws.
- server/storage.ts is not part of this model: the Express handlers are modelled against `MemStorage`.
- CloudFunctions.CreateBooking: the Cloud Functions validate with the schema they import from `functions/shared/schema.js`, which is not part of this model; it is taken to equal shared/schema.ts, so `BookingShape` (with a required `message` of length at least 5) is applied to `createBooking`.
- The Express JSON body parser is not part of this model: the handler receives the parsed body, and a malformed one never reaches it.
- Next.js and Express answers for other methods and paths are produced by the frameworks and are not modelled.
- server/firestore-storage.ts is not part of this model (a thin client over Firestore with network I/O).
- `path.join` normalisation (`.` and `..` segments, repeated separators) is not modelled: the URL is appended to the public directory as is.
- File-system errors are reduced to "exists or not" for `fs.stat` and "contents or failure" for `fs.readFile`; the served bytes are passed through.
- `DemoServer.Handle`: headers other than Content-Type, and the logging, are not modelled.
- The presentational pages, sliders, layout and lint configuration are UI and configuration.
