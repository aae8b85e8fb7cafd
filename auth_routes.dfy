/**
 * The credential routes of backend/routes/auth.js: the ordered guards of
 * `POST /register` and the insert that follows them, and `POST /login`
 * with its single failure message for an unknown email and a wrong
 * password. bcrypt and JWT signing are the functions of a `Crypto` value.
 */
module AuthRoutes {
  import opened Wrappers
  import opened Text
  import opened ServerErrors

  /** `{ username, email, password }` of a register request; "" stands for an absent or empty field. */
  datatype RegisterBody = RegisterBody(username: string, email: string, password: string)

  /** `{ email, password }` of a login request; "" stands for an absent or empty field. */
  datatype LoginBody = LoginBody(email: string, password: string)

  /** A stored user: `_id`, the username, the email and the bcrypt hash of the password. */
  datatype User = User(id: nat, username: string, email: string, passwordHash: string)

  /** The JWT payload `{ id }`. */
  datatype Claims = Claims(id: nat)

  /** The user fields a login returns: no password hash. */
  datatype PublicUser = PublicUser(id: nat, username: string, email: string)

  /** The body of a successful login. */
  datatype Session = Session(token: string, user: PublicUser)

  /**
   * bcrypt's `hash` (the salt is fixed per call and not modelled), bcrypt's
   * `compare`, and `jwt.sign` of a payload with a lifetime in seconds under
   * the server's secret.
   */
  datatype Crypto = Crypto(hash: string -> string, compare: (string, string) -> bool, sign: (Claims, nat) -> string)

  /** bcrypt's promise: a password matches its own hash. */
  ghost predicate Sound(c: Crypto)
  {
    forall p :: c.compare(p, c.hash(p))
  }

  /** `expiresIn: "1h"`. */
  const TokenLifetime: nat := 3600

  const RegisteredMessage: string := "User created successfully!"

  // ---------------------------------------------------------------- the email pattern

  predicate NoSpaceOrAt(s: string)
  {
    forall k :: 0 <= k < |s| ==> !IsSpace(s[k]) && s[k] != '@'
  }

  /**
   * `/^[^\s@]+@[^\s@]+\.[^\s@]+$/` read off the pattern: three non-empty runs
   * without white space or '@', separated by the '@' at `i` and the '.' at `j`.
   */
  ghost predicate EmailRegex(s: string)
  {
    exists i: nat, j: nat ::
      && 0 < i && i + 1 < j && j + 1 < |s| && s[i] == '@' && s[j] == '.'
      && NoSpaceOrAt(s[..i]) && NoSpaceOrAt(s[i + 1..j]) && NoSpaceOrAt(s[j + 1..])
  }

  /** `s` has exactly one '@', at index `i`. */
  predicate OnlyAt(s: string, i: nat)
  {
    0 <= i < |s| && s[i] == '@' && forall k :: 0 <= k < |s| && s[k] == '@' ==> k == i
  }

  /** A '.' sits strictly inside the part of `s` after index `i`. */
  predicate DotInside(s: string, i: nat)
  {
    exists j :: i + 1 < j < |s| - 1 && s[j] == '.'
  }

  /**
   * The pattern as a test: no white space, exactly one '@' with something
   * before it, and a '.' strictly inside what follows it.
   */
  predicate EmailShaped(s: string)
  {
    && (forall k :: 0 <= k < |s| ==> !IsSpace(s[k]))
    && exists i :: 0 < i < |s| && OnlyAt(s, i) && DotInside(s, i)
  }

  /** The test accepts exactly the strings the pattern matches. */
  lemma EmailShapedIsRegex(s: string)
    ensures EmailShaped(s) <==> EmailRegex(s)
  {
    if EmailShaped(s) {
      var i :| 0 < i < |s| && OnlyAt(s, i) && DotInside(s, i);
      var j :| i + 1 < j < |s| - 1 && s[j] == '.';
      RunsOfShaped(s, i, j);
    }
    if EmailRegex(s) {
      var i: nat, j: nat :|
        && 0 < i && i + 1 < j && j + 1 < |s| && s[i] == '@' && s[j] == '.'
        && NoSpaceOrAt(s[..i]) && NoSpaceOrAt(s[i + 1..j]) && NoSpaceOrAt(s[j + 1..]);
      ShapedOfRuns(s, i, j);
    }
  }

  lemma RunsOfShaped(s: string, i: nat, j: nat)
    requires forall k :: 0 <= k < |s| ==> !IsSpace(s[k])
    requires 0 < i && OnlyAt(s, i) && i + 1 < j < |s| - 1 && s[j] == '.'
    ensures NoSpaceOrAt(s[..i]) && NoSpaceOrAt(s[i + 1..j]) && NoSpaceOrAt(s[j + 1..])
    ensures EmailRegex(s)
  {
  }

  lemma ShapedOfRuns(s: string, i: nat, j: nat)
    requires 0 < i && i + 1 < j && j + 1 < |s| && s[i] == '@' && s[j] == '.'
    requires NoSpaceOrAt(s[..i]) && NoSpaceOrAt(s[i + 1..j]) && NoSpaceOrAt(s[j + 1..])
    ensures EmailShaped(s)
  {
    forall k | 0 <= k < |s|
      ensures !IsSpace(s[k]) && (s[k] == '@' ==> k == i)
    {
      if k < i {
        assert s[k] == s[..i][k];
      } else if i < k < j {
        assert s[k] == s[i + 1..j][k - i - 1];
      } else if j < k {
        assert s[k] == s[j + 1..][k - j - 1];
      }
    }
    assert OnlyAt(s, i) && DotInside(s, i);
  }

  // ---------------------------------------------------------------- the routes

  /** What the routes throw: a ValidationError (400) with the given message and no details. */
  function Refused(message: string): (c: Caught)
    ensures c == Thrown(ValidationError(message, []))
    ensures OfKind(c.own, Validation) && c.own.message == message && !Recognised(c)
  {
    Thrown(ValidationError(message, []))
  }

  /** `POST /register`: four guards in order, then the new user with the hash of the password. */
  function RegisterOutcome(users: map<string, User>, b: RegisterBody, c: Crypto, id: nat): (o: Outcome<string>)
    ensures (b.username == "" || b.email == "" || b.password == "") ==> o == Threw(Refused("All fields are required"))
    ensures o.Ok? <==> && b.username != "" && b.email != "" && b.password != ""
                       && EmailShaped(b.email) && |b.password| >= 6 && b.email !in users
    ensures o.Ok? ==> o == Ok(201, RegisteredMessage)
  {
    if b.username == "" || b.email == "" || b.password == "" then Threw(Refused("All fields are required"))
    else if !EmailShaped(b.email) then Threw(Refused("Please provide a valid email address"))
    else if |b.password| < 6 then Threw(Refused("Password must be at least 6 characters long"))
    else if b.email in users then Threw(Refused("User with this email already exists"))
    else Ok(201, RegisteredMessage)
  }

  /** The user a successful register saves. */
  function NewUser(b: RegisterBody, c: Crypto, id: nat): (u: User)
    ensures u.id == id && u.username == b.username && u.email == b.email && u.passwordHash == c.hash(b.password)
  {
    User(id, b.username, b.email, c.hash(b.password))
  }

  /** Which guard refuses a register body, for a body whose fields are all present. */
  lemma RegisterGuardOrder(users: map<string, User>, b: RegisterBody, c: Crypto, id: nat)
    requires b.username != "" && b.email != "" && b.password != ""
    ensures !EmailShaped(b.email) ==> RegisterOutcome(users, b, c, id) == Threw(Refused("Please provide a valid email address"))
    ensures EmailShaped(b.email) && |b.password| < 6 ==>
              RegisterOutcome(users, b, c, id) == Threw(Refused("Password must be at least 6 characters long"))
    ensures EmailShaped(b.email) && |b.password| >= 6 && b.email in users ==>
              RegisterOutcome(users, b, c, id) == Threw(Refused("User with this email already exists"))
  {
  }

  const BadCredentials: string := "Invalid email or password"

  /** `POST /login`: both fields present, then the lookup, then the hash comparison, then a token over the id. */
  function LoginOutcome(users: map<string, User>, b: LoginBody, c: Crypto): (o: Outcome<Session>)
    ensures (b.email == "" || b.password == "") ==> o == Threw(Refused("Email and password are required"))
    ensures b.email != "" && b.password != "" && (b.email !in users || !c.compare(b.password, users[b.email].passwordHash)) ==>
              o == Threw(Refused(BadCredentials))
    ensures o.Ok? <==> b.email != "" && b.password != "" && b.email in users && c.compare(b.password, users[b.email].passwordHash)
    ensures o.Ok? ==> var u := users[b.email];
              o == Ok(200, Session(c.sign(Claims(u.id), TokenLifetime), PublicUser(u.id, u.username, u.email)))
  {
    if b.email == "" || b.password == "" then Threw(Refused("Email and password are required"))
    else if b.email !in users then Threw(Refused(BadCredentials))
    else
      var u := users[b.email];
      if !c.compare(b.password, u.passwordHash) then Threw(Refused(BadCredentials))
      else Ok(200, Session(c.sign(Claims(u.id), TokenLifetime), PublicUser(u.id, u.username, u.email)))
  }

  /** An unknown email and a wrong password for a known one are answered identically. */
  lemma LoginFailuresAlike(users: map<string, User>, unknown: LoginBody, wrong: LoginBody, c: Crypto)
    requires unknown.email != "" && unknown.password != "" && unknown.email !in users
    requires wrong.email != "" && wrong.password != "" && wrong.email in users
    requires !c.compare(wrong.password, users[wrong.email].passwordHash)
    ensures LoginOutcome(users, unknown, c) == LoginOutcome(users, wrong, c)
    ensures ErrorResponse(LoginOutcome(users, unknown, c).err, false) == ErrorResponse(LoginOutcome(users, wrong, c).err, false)
  {
  }

  // ---------------------------------------------------------------- the user collection

  /** Each user is stored under its own email and has an id below `nextId`; no two share an id. */
  ghost predicate Registry(users: map<string, User>, nextId: nat)
  {
    && (forall e :: e in users ==> users[e].email == e && users[e].id < nextId)
    && (forall a, b :: a in users && b in users && users[a].id == users[b].id ==> a == b)
  }

  lemma RegistryInsert(users: map<string, User>, nextId: nat, u: User)
    requires Registry(users, nextId) && u.id == nextId && u.email !in users
    ensures Registry(users[u.email := u], nextId + 1)
  {
    var r := users[u.email := u];
    forall a, b | a in r && b in r && r[a].id == r[b].id
      ensures a == b
    {
      if a != u.email && b != u.email {
        assert users[a].id == users[b].id;
      }
    }
  }

  class UserStore {
    var users: map<string, User>
    var nextId: nat

    ghost predicate Valid()
      reads this
    {
      Registry(users, nextId)
    }

    constructor ()
      ensures Valid() && users == map[] && nextId == 0
    {
      users := map[];
      nextId := 0;
    }

    /** `POST /register`: a refusal changes nothing; success adds exactly the new user. */
    method Register(b: RegisterBody, c: Crypto) returns (o: Outcome<string>)
      requires Valid()
      modifies this
      ensures Valid()
      ensures o == RegisterOutcome(old(users), b, c, old(nextId))
      ensures o.Ok? ==> users == old(users)[b.email := NewUser(b, c, old(nextId))] && nextId == old(nextId) + 1
      ensures !o.Ok? ==> users == old(users) && nextId == old(nextId)
    {
      o := RegisterOutcome(users, b, c, nextId);
      if o.Ok? {
        RegistryInsert(users, nextId, NewUser(b, c, nextId));
        users := users[b.email := NewUser(b, c, nextId)];
        nextId := nextId + 1;
      }
    }

    /** `POST /login`: reads the users and changes nothing. */
    method Login(b: LoginBody, c: Crypto) returns (o: Outcome<Session>)
      ensures o == LoginOutcome(users, b, c)
    {
      o := LoginOutcome(users, b, c);
    }
  }

  /** Registering and then logging in with the same email and password succeeds, given bcrypt's promise. */
  lemma RegisterThenLogin(users: map<string, User>, b: RegisterBody, c: Crypto, id: nat)
    requires Sound(c)
    requires RegisterOutcome(users, b, c, id).Ok?
    ensures var after := users[b.email := NewUser(b, c, id)];
      LoginOutcome(after, LoginBody(b.email, b.password), c)
        == Ok(200, Session(c.sign(Claims(id), TokenLifetime), PublicUser(id, b.username, b.email)))
  {
    assert c.compare(b.password, c.hash(b.password));
  }
}
