/**
 * Facts that cross files and tiers: what the client makes of the server's
 * error envelope, what a refused employee request looks like on the wire,
 * and the bearer token's trip from login through the interceptor to the
 * gate.
 */
module Pipeline {
  import opened Wrappers
  import opened Text
  import opened Json
  import opened ServerErrors
  import opened ClientErrors
  import opened EmployeeValidation
  import opened EmployeeModel
  import opened EmployeeStore
  import opened AuthRoutes
  import opened AuthGate
  import opened ApiClient

  /** The rejection axios produces when the server answers with `env`; `local` is axios's own message. */
  function Received(env: Envelope, local: string): (f: Failure)
    requires env.status >= 0
    ensures EnvelopeShaped(f)
  {
    Failure(Some(Response(env.status, Some(Data(Some(ErrorBody(env.message, Some(env.code), env.details)), "")))), true, local)
  }

  /**
   * The client reads back exactly what the server's handler sent: the
   * message, the code, the status, and the details (an absent list read as
   * empty).
   */
  lemma EnvelopeRoundTrip(err: Caught, development: bool, local: string)
    requires ErrorResponse(err, development).status >= 0
    ensures var env := ErrorResponse(err, development);
      ParseError(Received(env, local)) == Parsed(env.message, Some(env.code), Some(env.details.GetOr([])), Some(env.status))
  {
  }

  /** A body the validator refuses is answered 400 VALIDATION_ERROR "Validation failed" with one detail per failed check. */
  lemma RefusedBodyOnTheWire(records: map<nat, Employee>, b: EmployeeBody, isEmail: string -> bool, id: nat, now: int, development: bool)
    requires Violations(b, isEmail) != []
    ensures var o := CreateOutcome(records, b, isEmail, id, now);
      && o.Threw?
      && var env := ErrorResponse(o.err, development);
      && env.status == 400 && env.code == "VALIDATION_ERROR" && env.message == "Validation failed"
      && env.details == Some(Violations(b, isEmail))
  {
    ThrownKeepsKind(ValidationError("Validation failed", Violations(b, isEmail)), Validation, development);
  }

  /**
   * A create whose email is already stored is answered 400 VALIDATION_ERROR
   * "email already exists. Please use a different email." with an empty
   * details list.
   */
  lemma DuplicateEmailOnTheWire(records: map<nat, Employee>, b: EmployeeBody, isEmail: string -> bool, id: nat, now: int, development: bool)
    requires Violations(b, isEmail) == [] && RequiredIssues(DraftOf(b)) == []
    requires EmailTaken(records, DraftOf(b).email.value, None)
    ensures var o := CreateOutcome(records, b, isEmail, id, now);
      && o.Threw?
      && var env := ErrorResponse(o.err, development);
      && env.status == 400 && env.code == "VALIDATION_ERROR"
      && env.message == "email already exists. Please use a different email."
      && env.details == Some([])
  {
    var o := CreateOutcome(records, b, isEmail, id, now);
    var e := Materialise(DraftOf(b), id, now);
    assert e.email == DraftOf(b).email.value;
    assert o == Threw(DuplicateKey("email"));
    DuplicateEmailClassified(development);
  }

  lemma DuplicateEmailClassified(development: bool)
    ensures var env := ErrorResponse(DuplicateKey("email"), development);
      && env.status == 400 && env.code == "VALIDATION_ERROR"
      && env.message == "email already exists. Please use a different email."
      && env.details == Some([])
  {
    assert FirstKey(["email"]) == "email";
    DuplicateEmailText();
  }

  lemma DuplicateEmailText()
    ensures DuplicateMessage("email") == "email already exists. Please use a different email."
  {
    assert "email" + " already exists. Please use a different " == "email already exists. Please use a different ";
    assert "email already exists. Please use a different " + "email" == "email already exists. Please use a different email";
  }

  /**
   * A name of white space passes `notEmpty` but is emptied by the `trim`
   * setter, so the save fails with the schema's "Name is required", reported
   * under `name`.
   */
  lemma BlankNameRefusedBySchema(records: map<nat, Employee>, b: EmployeeBody, isEmail: string -> bool, id: nat, now: int, development: bool)
    requires Violations(b, isEmail) == [] && !isEmail("")
    requires Trim(ToText(b.name)) == ""
    ensures var o := CreateOutcome(records, b, isEmail, id, now);
      && o == Threw(SchemaFailure([Issue("name", "Name is required")]))
      && var env := ErrorResponse(o.err, development);
      && env.status == 400 && env.message == "Validation failed"
      && env.details == Some([Detail("name", "Name is required", Missing)])
  {
    ValidatedDraftPresent(b, isEmail);
    var issues := [Issue("name", "Name is required")];
    assert IssueDetails(issues) == [Detail("name", "Name is required", Missing)];
    assert Classify(SchemaFailure(issues)) == ValidationError("Validation failed", IssueDetails(issues));
  }

  /** Updating an id that names no record is answered 404 NOT_FOUND "Employee not found". */
  lemma MissingRecordOnTheWire(records: map<nat, Employee>, id: nat, b: EmployeeBody, isEmail: string -> bool, now: int, development: bool)
    requires Violations(b, isEmail) == [] && id !in records
    ensures var o := UpdateOutcome(records, ObjectId(id), b, isEmail, now);
      && o.Threw?
      && var env := ErrorResponse(o.err, development);
      && env.status == 404 && env.code == "NOT_FOUND" && env.message == "Employee not found"
      && env.details.None?
  {
    ThrownKeepsKind(NotFoundError(Some("Employee")), NotFound, development);
  }

  /** The header the interceptor builds from a stored token without spaces passes the gate, which records the claims. */
  lemma InterceptedHeaderAdmitted(token: string, verify: string -> Verdict, claims: Claims, user: Option<Claims>, rest: seq<string>)
    requires token != "" && ' ' !in token && verify(token) == Verified(claims)
    ensures Admit(Request(Some(BearerHeader(token)), user, rest), verify)
              == Next(Request(Some(BearerHeader(token)), Some(claims), rest))
  {
    BearerRoundTrip(token);
  }

  /** Without a stored token the client sends no Authorization header and the gate answers 401 "No authentication token provided". */
  lemma NoStoredTokenRefused(user: Option<Claims>, rest: seq<string>, verify: string -> Verdict, development: bool)
    ensures var env := ErrorResponse(Admit(Request(None, user, rest), verify).err, development);
      && env.status == 401 && env.code == "AUTH_ERROR" && env.message == NoToken
  {
    RefusalsAre401(Request(None, user, rest), verify, development);
  }

  /**
   * Register, log in, attach the token, pass the gate: given bcrypt's
   * promise, a token without spaces, and a verifier that accepts what
   * `jwt.sign` issued, the route sees `req.user` with the new user's id.
   */
  lemma RegisteredUserAdmitted(users: map<string, User>, b: RegisterBody, c: Crypto, id: nat, verify: string -> Verdict, rest: seq<string>)
    requires Sound(c) && RegisterOutcome(users, b, c, id).Ok?
    requires var t := c.sign(Claims(id), TokenLifetime); t != "" && ' ' !in t && verify(t) == Verified(Claims(id))
    ensures var after := users[b.email := NewUser(b, c, id)];
      var login := LoginOutcome(after, LoginBody(b.email, b.password), c);
      && login.Ok?
      && Admit(Request(Some(BearerHeader(login.value.token)), None, rest), verify).Next?
      && Admit(Request(Some(BearerHeader(login.value.token)), None, rest), verify).request.user == Some(Claims(id))
  {
    RegisterThenLogin(users, b, c, id);
    InterceptedHeaderAdmitted(c.sign(Claims(id), TokenLifetime), verify, Claims(id), None, rest);
  }
}
