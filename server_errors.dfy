/**
 * The server's error taxonomy, the central classifier that turns any caught
 * failure into one of its kinds (or passes it through), and the error
 * envelope it answers with (backend/middleware/errorHandler.js).
 */
module ServerErrors {
  import opened Wrappers
  import opened Json

  /** One entry of a validation failure's `details`: field, message and the rejected value (`Missing` when none is carried). */
  datatype Detail = Detail(field: string, message: string, value: Value)

  /** One entry of a Mongoose ValidationError's `errors` object: the schema path and its message. */
  datatype Issue = Issue(path: string, message: string)

  /**
   * The fields of an error the handler reads. `statusCode` and `errorCode` are
   * `None` when the error does not carry them (or carries `null`); `errors` is
   * `None` when absent and `Some(list)` (truthy even when empty) otherwise.
   */
  datatype AppError = AppError(message: string, statusCode: Option<int>, errorCode: Option<string>, errors: Option<seq<Detail>>)

  /** The error classes derived from AppError. */
  datatype Kind = Validation | Authentication | Authorization | NotFound | Database

  function Status(k: Kind): int
  {
    match k
    case Validation => 400
    case Authentication => 401
    case Authorization => 403
    case NotFound => 404
    case Database => 500
  }

  function Code(k: Kind): string
  {
    match k
    case Validation => "VALIDATION_ERROR"
    case Authentication => "AUTH_ERROR"
    case Authorization => "AUTHORIZATION_ERROR"
    case NotFound => "NOT_FOUND"
    case Database => "DATABASE_ERROR"
  }

  /** Every kind has its own code, so the code identifies the kind. */
  lemma CodesDistinct(j: Kind, k: Kind)
    ensures Code(j) == Code(k) ==> j == k
  {
  }

  /** `e` carries the status and the code of kind `k`. */
  predicate OfKind(e: AppError, k: Kind)
  {
    e.statusCode == Some(Status(k)) && e.errorCode == Some(Code(k))
  }

  /** `new AppError(message, statusCode, errorCode)`: no `errors` field. */
  function NewAppError(message: string, statusCode: int, errorCode: Option<string>): (e: AppError)
    ensures e.message == message && e.statusCode == Some(statusCode) && e.errorCode == errorCode
    ensures e.errors.None?
  {
    AppError(message, Some(statusCode), errorCode, None)
  }

  /** `new ValidationError(message, errors)`; the class defaults `errors` to `[]`. */
  function ValidationError(message: string, errors: seq<Detail>): (e: AppError)
    ensures OfKind(e, Validation) && e.message == message && e.errors == Some(errors)
  {
    var base := NewAppError(message, 400, Some("VALIDATION_ERROR"));
    base.(errors := Some(errors))
  }

  /** `new AuthenticationError(message)`; `None` is an omitted argument. */
  function AuthenticationError(message: Option<string>): (e: AppError)
    ensures OfKind(e, Authentication) && e.errors.None?
    ensures e.message == message.GetOr("Authentication failed")
  {
    NewAppError(message.GetOr("Authentication failed"), 401, Some("AUTH_ERROR"))
  }

  /** `new AuthorizationError(message)`: defined, though no route raises it. */
  function AuthorizationError(message: Option<string>): (e: AppError)
    ensures OfKind(e, Authorization) && e.errors.None?
    ensures e.message == message.GetOr("Access denied")
  {
    NewAppError(message.GetOr("Access denied"), 403, Some("AUTHORIZATION_ERROR"))
  }

  /** `new NotFoundError(resource)`: the message names the missing resource. */
  function NotFoundError(resource: Option<string>): (e: AppError)
    ensures OfKind(e, NotFound) && e.errors.None?
    ensures e.message == resource.GetOr("Resource") + " not found"
  {
    NewAppError(resource.GetOr("Resource") + " not found", 404, Some("NOT_FOUND"))
  }

  /** `new DatabaseError(message)`: defined, though no route raises it. */
  function DatabaseError(message: Option<string>): (e: AppError)
    ensures OfKind(e, Database) && e.errors.None?
    ensures e.message == message.GetOr("Database operation failed")
  {
    NewAppError(message.GetOr("Database operation failed"), 500, Some("DATABASE_ERROR"))
  }

  /**
   * What the handler receives as `err`: its `name`, its numeric `code` (the
   * MongoDB driver's), the keys of `keyValue` in order, the values of a
   * Mongoose ValidationError's `errors` object in order, its stack trace, and
   * `own`, the fields `{ ...err, message: err.message }` copies.
   */
  datatype Caught = Caught(name: string, code: Option<int>, keyValue: seq<string>, issues: seq<Issue>, stack: string, own: AppError)

  /**
   * An AppError thrown by application code. The subclasses never set `name`,
   * so it keeps the inherited "Error"; the model gives it an empty trace.
   */
  function Thrown(e: AppError): (c: Caught)
    ensures c.name == "Error" && c.code.None? && c.own == e
  {
    Caught("Error", None, [], [], "", e)
  }

  /** `Object.keys(err.keyValue)[0]`, which is `undefined` for an empty object. */
  function FirstKey(keys: seq<string>): string
  {
    if keys == [] then "undefined" else keys[0]
  }

  function DuplicateMessage(field: string): string
  {
    field + " already exists. Please use a different " + field + "."
  }

  /** `Object.values(err.errors).map(val => ({ field: val.path, message: val.message }))`. */
  function IssueDetails(issues: seq<Issue>): (ds: seq<Detail>)
    ensures |ds| == |issues|
    ensures forall i :: 0 <= i < |issues| ==> ds[i] == Detail(issues[i].path, issues[i].message, Missing)
  {
    seq(|issues|, i requires 0 <= i < |issues| => Detail(issues[i].path, issues[i].message, Missing))
  }

  /** The names the later branches of the classifier test. */
  predicate NamedBranch(name: string)
  {
    name == "ValidationError" || name == "JsonWebTokenError" || name == "TokenExpiredError"
  }

  /** Some branch of the classifier recognises `err`. */
  predicate Recognised(err: Caught)
  {
    err.name == "CastError" || err.code == Some(11000) || NamedBranch(err.name)
  }

  /**
   * The classifier: five independent tests run in source order, each replacing
   * the error when it matches, so the last matching test decides.
   */
  function Classify(err: Caught): (e: AppError)
    ensures err.name == "TokenExpiredError" ==> e == AuthenticationError(Some("Token expired"))
    ensures err.name == "JsonWebTokenError" ==> e == AuthenticationError(Some("Invalid token"))
    ensures err.name == "ValidationError" ==> e == ValidationError("Validation failed", IssueDetails(err.issues))
    ensures !NamedBranch(err.name) && err.code == Some(11000) ==>
              e == ValidationError(DuplicateMessage(FirstKey(err.keyValue)), [])
    ensures err.name == "CastError" && err.code != Some(11000) ==> e == ValidationError("Invalid ID format", [])
    ensures !Recognised(err) ==> e == err.own
    ensures Recognised(err) ==> OfKind(e, Validation) || OfKind(e, Authentication)
  {
    var e0 := err.own;
    var e1 := if err.name == "CastError" then ValidationError("Invalid ID format", []) else e0;
    var e2 := if err.code == Some(11000) then ValidationError(DuplicateMessage(FirstKey(err.keyValue)), []) else e1;
    var e3 := if err.name == "ValidationError" then ValidationError("Validation failed", IssueDetails(err.issues)) else e2;
    var e4 := if err.name == "JsonWebTokenError" then AuthenticationError(Some("Invalid token")) else e3;
    if err.name == "TokenExpiredError" then AuthenticationError(Some("Token expired")) else e4
  }

  /** How a route handler ends: a success status with its payload, or a thrown failure for the handler. */
  datatype Outcome<T> = Ok(status: int, value: T) | Threw(err: Caught)

  /** The body `{ success: false, error: { message, code, details?, stack? } }` and the status it is sent with. */
  datatype Envelope = Envelope(status: int, success: bool, message: string, code: string, details: Option<seq<Detail>>, stack: Option<string>)

  /** JavaScript's `x || fallback` on an optional number: absent and 0 are falsy. */
  function OrStatus(x: Option<int>, fallback: int): int
  {
    if x.Some? && x.value != 0 then x.value else fallback
  }

  /** JavaScript's `x || fallback` on an optional string: absent and "" are falsy. */
  function OrText(x: Option<string>, fallback: string): string
  {
    if x.Some? && x.value != "" then x.value else fallback
  }

  /** The response the handler sends for `err`; `development` is `NODE_ENV === "development"`. */
  function ErrorResponse(err: Caught, development: bool): (env: Envelope)
    ensures !env.success && env.message != "" && env.code != ""
    ensures forall k :: OfKind(Classify(err), k) ==> env.status == Status(k) && env.code == Code(k)
    ensures Classify(err).message != "" ==> env.message == Classify(err).message
    ensures env.details == Classify(err).errors
    ensures env.stack.Some? <==> development
  {
    var error := Classify(err);
    Envelope(
      OrStatus(error.statusCode, 500), false,
      OrText(Some(error.message), "Internal Server Error"),
      OrText(error.errorCode, "INTERNAL_ERROR"),
      error.errors,
      if development then Some(err.stack) else None)
  }

  /** A failure no test recognises keeps its own status, code and message, with the handler's defaults. */
  lemma UnrecognisedPassesThrough(err: Caught, development: bool)
    requires !Recognised(err)
    ensures var env := ErrorResponse(err, development);
      && env.status == OrStatus(err.own.statusCode, 500)
      && env.code == OrText(err.own.errorCode, "INTERNAL_ERROR")
      && env.message == OrText(Some(err.own.message), "Internal Server Error")
      && env.details == err.own.errors
  {
  }

  /** An AppError thrown by the application reaches the client with its own kind, message and details. */
  lemma ThrownKeepsKind(e: AppError, k: Kind, development: bool)
    requires OfKind(e, k) && e.message != ""
    ensures var env := ErrorResponse(Thrown(e), development);
      && env.status == Status(k) && env.code == Code(k)
      && env.message == e.message && env.details == e.errors
  {
  }
}
