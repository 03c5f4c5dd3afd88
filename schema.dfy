/** The shared validation schemas (`insertUserSchema`,
    `insertDemoBookingSchema`) and the record shapes `User` and `DemoBooking`.

    A zod object schema checks that the body is an object, then checks every
    field of its shape in order and collects one issue per failing field: a
    missing field is "Required", a field that is not a string names the type
    it received, and a string that fails its check carries the message given
    in the schema. Unknown fields are dropped from the parsed value. zod's
    email pattern is not modelled: the check is a parameter `isEmail`. */
module Schema {
  import opened Wrappers
  import opened Json

  /** An instant in milliseconds since the epoch (`Date`, Firestore `Timestamp`). */
  type Instant = nat

  /** zod's `.email()` pattern, left uninterpreted. */
  type EmailCheck = string -> bool

  datatype InsertUser = InsertUser(username: string, password: string)

  /** `InsertUser & { id: string }` */
  datatype User = User(id: string, username: string, password: string)

  datatype InsertDemoBooking =
    InsertDemoBooking(name: string, email: string, phone: string, grade: string, message: string)

  /** `InsertDemoBooking & { id: string; createdAt: Date }`. The message is
      nullable because the in-memory store writes `null` for an empty one. */
  datatype DemoBooking = DemoBooking(
    id: string,
    name: string,
    email: string,
    phone: string,
    grade: string,
    message: Option<string>,
    createdAt: Instant)

  /** The check attached to one string field. */
  datatype Check = MinLength(min: nat, msg: string) | Email(msg: string)

  /** One zod issue: the field it is about ("" for the body itself) and its message. */
  datatype Issue = Issue(path: string, message: string)

  type Shape = seq<(string, Check)>

  const UserShape: Shape := [
    ("username", MinLength(3, "Username must be at least 3 characters")),
    ("password", MinLength(6, "Password must be at least 6 characters"))
  ]

  const BookingShape: Shape := [
    ("name", MinLength(2, "Name must be at least 2 characters")),
    ("email", Email("Please enter a valid email address")),
    ("phone", MinLength(10, "Please enter a valid phone number")),
    ("grade", MinLength(1, "Please select a grade")),
    ("message", MinLength(5, "Please share a brief learning goal"))
  ]

  /** One check on a string; `.min(n)` compares the JavaScript `length`, in UTF-16 code units. */
  predicate Passes(isEmail: EmailCheck, c: Check, s: string)
  {
    match c
    case MinLength(min, _) => Utf16Length(s) >= min
    case Email(_) => isEmail(s)
  }

  /** The field holds a string that passes its check. */
  predicate FieldOk(isEmail: EmailCheck, fields: map<string, Json>, key: string, c: Check)
  {
    key in fields && fields[key].JString? && Passes(isEmail, c, fields[key].s)
  }

  /** The issues zod reports for one field of the shape. */
  function FieldIssues(isEmail: EmailCheck, fields: map<string, Json>, key: string, c: Check): (r: seq<Issue>)
    ensures r == [] <==> FieldOk(isEmail, fields, key, c)
    ensures |r| <= 1
    ensures forall i :: 0 <= i < |r| ==> r[i].path == key
  {
    if key !in fields then [Issue(key, "Required")]
    else match fields[key]
      case JString(s) => if Passes(isEmail, c, s) then [] else [Issue(key, c.msg)]
      case other => [Issue(key, "Expected string, received " + TypeName(other))]
  }

  /** The issues for every field of the shape, in the shape's order. */
  function ShapeIssues(isEmail: EmailCheck, fields: map<string, Json>, shape: Shape): seq<Issue>
  {
    if shape == [] then []
    else FieldIssues(isEmail, fields, shape[0].0, shape[0].1) + ShapeIssues(isEmail, fields, shape[1..])
  }

  /** All issues of a body against an object schema. */
  function BodyIssues(isEmail: EmailCheck, body: Json, shape: Shape): seq<Issue>
  {
    if body.JObject? then ShapeIssues(isEmail, body.fields, shape)
    else [Issue("", "Expected object, received " + TypeName(body))]
  }

  /** A shape reports no issue exactly when every one of its fields is a string passing its check. */
  lemma {:induction false} ShapeIssuesEmpty(isEmail: EmailCheck, fields: map<string, Json>, shape: Shape)
    ensures ShapeIssues(isEmail, fields, shape) == [] <==>
            forall i :: 0 <= i < |shape| ==> FieldOk(isEmail, fields, shape[i].0, shape[i].1)
  {
    if shape != [] {
      ShapeIssuesEmpty(isEmail, fields, shape[1..]);
      forall i | 1 <= i < |shape|
        ensures shape[i] == shape[1..][i - 1]
      {
      }
    }
  }

  /** Every issue names a field of the shape that is missing, not a string or failing
      its check, and is the one issue zod gives that field, with its message. */
  lemma {:induction false} ShapeIssuesSound(isEmail: EmailCheck, fields: map<string, Json>, shape: Shape, k: nat)
    requires k < |ShapeIssues(isEmail, fields, shape)|
    ensures exists i :: 0 <= i < |shape| && ShapeIssues(isEmail, fields, shape)[k].path == shape[i].0
                        && !FieldOk(isEmail, fields, shape[i].0, shape[i].1)
                        && ShapeIssues(isEmail, fields, shape)[k] == FieldIssues(isEmail, fields, shape[i].0, shape[i].1)[0]
  {
    var first := FieldIssues(isEmail, fields, shape[0].0, shape[0].1);
    if k < |first| {
      assert ShapeIssues(isEmail, fields, shape)[k] == first[k];
    } else {
      ShapeIssuesSound(isEmail, fields, shape[1..], k - |first|);
      var i :| 0 <= i < |shape[1..]| && ShapeIssues(isEmail, fields, shape[1..])[k - |first|].path == shape[1..][i].0
               && !FieldOk(isEmail, fields, shape[1..][i].0, shape[1..][i].1)
               && ShapeIssues(isEmail, fields, shape[1..])[k - |first|] == FieldIssues(isEmail, fields, shape[1..][i].0, shape[1..][i].1)[0];
      assert shape[1..][i] == shape[i + 1];
    }
  }

  /** A field at position `i` of the shape that holds a string failing its check
      is reported with that check's own message. */
  lemma {:induction false} FailingFieldReported(isEmail: EmailCheck, fields: map<string, Json>, shape: Shape, i: nat)
    requires i < |shape|
    requires shape[i].0 in fields && fields[shape[i].0].JString?
    requires !Passes(isEmail, shape[i].1, fields[shape[i].0].s)
    ensures Issue(shape[i].0, shape[i].1.msg) in ShapeIssues(isEmail, fields, shape)
  {
    if i > 0 {
      FailingFieldReported(isEmail, fields, shape[1..], i - 1);
    }
  }

  /** A field at position `i` of the shape that is absent is reported as "Required". */
  lemma {:induction false} MissingFieldReported(isEmail: EmailCheck, fields: map<string, Json>, shape: Shape, i: nat)
    requires i < |shape|
    requires shape[i].0 !in fields
    ensures Issue(shape[i].0, "Required") in ShapeIssues(isEmail, fields, shape)
  {
    if i > 0 {
      MissingFieldReported(isEmail, fields, shape[1..], i - 1);
    }
  }

  /** `insertDemoBookingSchema` on a typed value: the five field constraints together. */
  predicate ValidDemoBooking(isEmail: EmailCheck, b: InsertDemoBooking)
  {
    && Utf16Length(b.name) >= 2
    && isEmail(b.email)
    && Utf16Length(b.phone) >= 10
    && Utf16Length(b.grade) >= 1
    && Utf16Length(b.message) >= 5
  }

  /** `insertUserSchema` on a typed value. */
  predicate ValidUser(u: InsertUser)
  {
    Utf16Length(u.username) >= 3 && Utf16Length(u.password) >= 6
  }

  /** The JSON object a client sends for a booking. */
  function BookingJson(b: InsertDemoBooking): Json
  {
    JObject(map[
      "name" := JString(b.name), "email" := JString(b.email), "phone" := JString(b.phone),
      "grade" := JString(b.grade), "message" := JString(b.message)])
  }

  function UserJson(u: InsertUser): Json
  {
    JObject(map["username" := JString(u.username), "password" := JString(u.password)])
  }

  /** `insertDemoBookingSchema.safeParse(body)`: the five validated strings, or the issues. */
  function ParseDemoBooking(isEmail: EmailCheck, body: Json): (r: Result<InsertDemoBooking, seq<Issue>>)
    ensures r.Failure? ==> r.error == BodyIssues(isEmail, body, BookingShape) && r.error != []
    ensures r.Success? ==> BodyIssues(isEmail, body, BookingShape) == []
  {
    var issues := BodyIssues(isEmail, body, BookingShape);
    if issues != [] then Failure(issues)
    else
      ShapeIssuesEmpty(isEmail, body.fields, BookingShape);
      assert FieldOk(isEmail, body.fields, BookingShape[0].0, BookingShape[0].1);
      assert FieldOk(isEmail, body.fields, BookingShape[1].0, BookingShape[1].1);
      assert FieldOk(isEmail, body.fields, BookingShape[2].0, BookingShape[2].1);
      assert FieldOk(isEmail, body.fields, BookingShape[3].0, BookingShape[3].1);
      assert FieldOk(isEmail, body.fields, BookingShape[4].0, BookingShape[4].1);
      var f := body.fields;
      Success(InsertDemoBooking(f["name"].s, f["email"].s, f["phone"].s, f["grade"].s, f["message"].s))
  }

  /** `insertUserSchema.safeParse(body)`. */
  function ParseUser(body: Json): (r: Result<InsertUser, seq<Issue>>)
    ensures r.Failure? ==> r.error == BodyIssues(NoEmail, body, UserShape) && r.error != []
    ensures r.Success? ==> BodyIssues(NoEmail, body, UserShape) == []
  {
    var issues := BodyIssues(NoEmail, body, UserShape);
    if issues != [] then Failure(issues)
    else
      ShapeIssuesEmpty(NoEmail, body.fields, UserShape);
      assert FieldOk(NoEmail, body.fields, UserShape[0].0, UserShape[0].1);
      assert FieldOk(NoEmail, body.fields, UserShape[1].0, UserShape[1].1);
      Success(InsertUser(body.fields["username"].s, body.fields["password"].s))
  }

  /** The user schema has no email field; this stands in for the unused check. */
  const NoEmail: EmailCheck := (s: string) => false

  /** The body is an object whose field `key` is the string `s`. */
  predicate HasString(body: Json, key: string, s: string)
  {
    body.JObject? && key in body.fields && body.fields[key] == JString(s)
  }

  /** A body is accepted exactly when it is an object whose five booking fields
      are strings meeting their constraints; the parsed value holds exactly those
      strings (other fields are dropped) and satisfies the booking predicate. */
  lemma ParseDemoBookingAccepts(isEmail: EmailCheck, body: Json)
    ensures ParseDemoBooking(isEmail, body).Success? <==>
            body.JObject? && forall i :: 0 <= i < |BookingShape| ==> FieldOk(isEmail, body.fields, BookingShape[i].0, BookingShape[i].1)
    ensures ParseDemoBooking(isEmail, body).Success? ==>
            var b := ParseDemoBooking(isEmail, body).value;
            && ValidDemoBooking(isEmail, b)
            && HasString(body, "name", b.name) && HasString(body, "email", b.email)
            && HasString(body, "phone", b.phone) && HasString(body, "grade", b.grade)
            && HasString(body, "message", b.message)
  {
    if body.JObject? {
      ShapeIssuesEmpty(isEmail, body.fields, BookingShape);
      if ParseDemoBooking(isEmail, body).Success? {
        assert FieldOk(isEmail, body.fields, BookingShape[0].0, BookingShape[0].1);
        assert FieldOk(isEmail, body.fields, BookingShape[1].0, BookingShape[1].1);
        assert FieldOk(isEmail, body.fields, BookingShape[2].0, BookingShape[2].1);
        assert FieldOk(isEmail, body.fields, BookingShape[3].0, BookingShape[3].1);
        assert FieldOk(isEmail, body.fields, BookingShape[4].0, BookingShape[4].1);
      }
    }
  }

  /** Round trip: the object a client builds from a booking parses back to that
      booking exactly when the booking satisfies the schema. */
  lemma ParseBookingJson(isEmail: EmailCheck, b: InsertDemoBooking)
    ensures ParseDemoBooking(isEmail, BookingJson(b)) ==
            if ValidDemoBooking(isEmail, b) then Success(b) else Failure(BodyIssues(isEmail, BookingJson(b), BookingShape))
  {
    var body := BookingJson(b);
    ParseDemoBookingAccepts(isEmail, body);
    if ValidDemoBooking(isEmail, b) {
      assert forall i :: 0 <= i < |BookingShape| ==> FieldOk(isEmail, body.fields, BookingShape[i].0, BookingShape[i].1);
    }
  }

  /** The user schema accepts a user exactly when the username has at least 3
      UTF-16 units and the password at least 6, and then returns it unchanged. */
  lemma ParseUserJson(u: InsertUser)
    ensures ParseUser(UserJson(u)) ==
            if ValidUser(u) then Success(u) else Failure(BodyIssues(NoEmail, UserJson(u), UserShape))
  {
    var body := UserJson(u);
    ShapeIssuesEmpty(NoEmail, body.fields, UserShape);
    if ValidUser(u) {
      assert forall i :: 0 <= i < |UserShape| ==> FieldOk(NoEmail, body.fields, UserShape[i].0, UserShape[i].1);
    } else {
      assert !FieldOk(NoEmail, body.fields, UserShape[0].0, UserShape[0].1)
          || !FieldOk(NoEmail, body.fields, UserShape[1].0, UserShape[1].1);
    }
  }

  /** A rejected booking body that is an object has one issue for each field
      that is missing, not a string or failing its check, and no other issue. */
  lemma RejectedBookingIssues(isEmail: EmailCheck, body: Json, k: nat)
    requires body.JObject?
    requires ParseDemoBooking(isEmail, body).Failure?
    requires k < |ParseDemoBooking(isEmail, body).error|
    ensures ParseDemoBooking(isEmail, body).error[k].path in {"name", "email", "phone", "grade", "message"}
  {
    ShapeIssuesSound(isEmail, body.fields, BookingShape, k);
  }

  /** The rejected example of the booking form: a one-letter name, an address the
      email check refuses, a three-digit phone, an empty grade and no message. */
  lemma BadBookingExample(isEmail: EmailCheck)
    requires !isEmail("bad-email")
    ensures var body := JObject(map["name" := JString("A"), "email" := JString("bad-email"),
                                    "phone" := JString("123"), "grade" := JString("")]);
            ParseDemoBooking(isEmail, body) == Failure([
              Issue("name", "Name must be at least 2 characters"),
              Issue("email", "Please enter a valid email address"),
              Issue("phone", "Please enter a valid phone number"),
              Issue("grade", "Please select a grade"),
              Issue("message", "Required")])
  {
    var fields := map["name" := JString("A"), "email" := JString("bad-email"),
                      "phone" := JString("123"), "grade" := JString("")];
    var sh := BookingShape;
    assert sh[4..][1..] == [] && sh[3..][1..] == sh[4..] && sh[2..][1..] == sh[3..] && sh[1..][1..] == sh[2..];
    assert FieldIssues(isEmail, fields, "message", sh[4].1) == [Issue("message", "Required")];
    assert FieldIssues(isEmail, fields, "grade", sh[3].1) == [Issue("grade", "Please select a grade")];
    assert FieldIssues(isEmail, fields, "phone", sh[2].1) == [Issue("phone", "Please enter a valid phone number")];
    assert FieldIssues(isEmail, fields, "email", sh[1].1) == [Issue("email", "Please enter a valid email address")];
    assert FieldIssues(isEmail, fields, "name", sh[0].1) == [Issue("name", "Name must be at least 2 characters")];
    assert ShapeIssues(isEmail, fields, sh[4..]) == [Issue("message", "Required")];
    assert ShapeIssues(isEmail, fields, sh[3..]) == [Issue("grade", "Please select a grade")] + ShapeIssues(isEmail, fields, sh[4..]);
    assert ShapeIssues(isEmail, fields, sh[2..]) == [Issue("phone", "Please enter a valid phone number")] + ShapeIssues(isEmail, fields, sh[3..]);
    assert ShapeIssues(isEmail, fields, sh[1..]) == [Issue("email", "Please enter a valid email address")] + ShapeIssues(isEmail, fields, sh[2..]);
    assert ShapeIssues(isEmail, fields, sh) == [Issue("name", "Name must be at least 2 characters")] + ShapeIssues(isEmail, fields, sh[1..]);
    assert BodyIssues(isEmail, JObject(fields), sh) == [
      Issue("name", "Name must be at least 2 characters"),
      Issue("email", "Please enter a valid email address"),
      Issue("phone", "Please enter a valid phone number"),
      Issue("grade", "Please select a grade"),
      Issue("message", "Required")];
  }

  /** `.min` counts UTF-16 code units, not characters: a name that is a single emoji has length 2
      and meets the two-character minimum, and "hi " followed by an emoji meets the five-character
      minimum of the message. */
  lemma AstralCharactersCountTwice(isEmail: EmailCheck)
    ensures Passes(isEmail, BookingShape[0].1, "\U{1F600}")
    ensures Passes(isEmail, BookingShape[4].1, "hi \U{1F64F}")
  {
  }
}
