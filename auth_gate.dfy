/**
 * The `auth` middleware of backend/middleware/auth.js: the bearer token is
 * the second space-separated word of the Authorization header, `jwt.verify`
 * is a parameter, and each way verification can fail is answered with its
 * own 401 message.
 */
module AuthGate {
  import opened Wrappers
  import opened Text
  import opened ServerErrors
  import opened AuthRoutes

  /** What `jwt.verify` does with a token: return the decoded payload, or throw an error with the given `name`. */
  datatype Verdict = Verified(claims: Claims) | Rejected(name: string)

  /** The parts of an Express request the gate reads and writes; `rest` stands for everything else. */
  datatype Request = Request(authorization: Option<string>, user: Option<Claims>, rest: seq<string>)

  /** The gate lets the (updated) request through to the route, or throws. */
  datatype Passage = Next(request: Request) | Stop(err: Caught)

  const NoToken: string := "No authentication token provided"
  const ExpiredToken: string := "Authentication token has expired"
  const InvalidToken: string := "Invalid authentication token"
  const OtherFailure: string := "Authentication failed"

  /** `token.split(" ")[1]`, which is `undefined` when the header holds no space. */
  function BearerToken(header: string): (t: Option<string>)
    ensures t.Some? <==> |Split(header, ' ')| >= 2
    ensures t.Some? ==> t.value == Split(header, ' ')[1] && ' ' !in t.value
  {
    var words := Split(header, ' ');
    if |words| >= 2 then Some(words[1]) else None
  }

  /**
   * `jwt.verify(token, secret)` on the extracted token: `undefined` or an
   * empty token is refused by jsonwebtoken itself with a JsonWebTokenError
   * ("jwt must be provided") before the signature is looked at.
   */
  function VerifyToken(token: Option<string>, verify: string -> Verdict): (v: Verdict)
    ensures (token.None? || token == Some("")) ==> v == Rejected("JsonWebTokenError")
    ensures token.Some? && token.value != "" ==> v == verify(token.value)
  {
    if token.None? || token.value == "" then Rejected("JsonWebTokenError") else verify(token.value)
  }

  /** The AuthenticationError the catch block throws for an error of the given name. */
  function FailureMessage(name: string): (m: string)
    ensures name == "TokenExpiredError" ==> m == ExpiredToken
    ensures name == "JsonWebTokenError" ==> m == InvalidToken
    ensures name != "TokenExpiredError" && name != "JsonWebTokenError" ==> m == OtherFailure
  {
    if name == "TokenExpiredError" then ExpiredToken
    else if name == "JsonWebTokenError" then InvalidToken
    else OtherFailure
  }

  /** The gate: header presence, token extraction, verification, and `req.user = decoded` on success. */
  function Admit(req: Request, verify: string -> Verdict): (p: Passage)
    ensures (req.authorization.None? || req.authorization == Some("")) ==> p == Stop(Thrown(AuthenticationError(Some(NoToken))))
    ensures p.Next? <==> && req.authorization.Some? && req.authorization.value != ""
                         && VerifyToken(BearerToken(req.authorization.value), verify).Verified?
    ensures p.Next? ==> p.request == req.(user := Some(VerifyToken(BearerToken(req.authorization.value), verify).claims))
    ensures p.Stop? ==> OfKind(p.err.own, Authentication) && !Recognised(p.err)
    ensures p.Stop? && req.authorization.Some? && req.authorization.value != "" ==>
              p.err.own.message == FailureMessage(VerifyToken(BearerToken(req.authorization.value), verify).name)
  {
    match req.authorization
    case None => Stop(Thrown(AuthenticationError(Some(NoToken))))
    case Some(header) =>
      if header == "" then Stop(Thrown(AuthenticationError(Some(NoToken))))
      else
        match VerifyToken(BearerToken(header), verify)
        case Verified(claims) => Next(req.(user := Some(claims)))
        case Rejected(name) => Stop(Thrown(AuthenticationError(Some(FailureMessage(name)))))
  }

  /** A header with no space in it carries no token, so the gate answers "Invalid authentication token". */
  lemma HeaderWithoutSpace(req: Request, verify: string -> Verdict)
    requires req.authorization.Some? && req.authorization.value != "" && ' ' !in req.authorization.value
    ensures Admit(req, verify) == Stop(Thrown(AuthenticationError(Some(InvalidToken))))
  {
    SplitNoSeparator(req.authorization.value, ' ');
  }

  /**
   * Every refusal reaches the client as 401 AUTH_ERROR with the gate's own
   * message: none of the classifier's tests matches these errors.
   */
  lemma RefusalsAre401(req: Request, verify: string -> Verdict, development: bool)
    requires Admit(req, verify).Stop?
    ensures var env := ErrorResponse(Admit(req, verify).err, development);
      && env.status == 401 && env.code == "AUTH_ERROR"
      && env.message == Admit(req, verify).err.own.message
      && env.message in {NoToken, ExpiredToken, InvalidToken, OtherFailure}
  {
    var e := Admit(req, verify).err.own;
    ThrownKeepsKind(e, Authentication, development);
  }
}
