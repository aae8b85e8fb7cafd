/**
 * The employee schema (backend/models/Employee.js): the stored record, the
 * casts and setters (`trim` on name, `lowercase` on email) applied to a
 * submitted body, the required-field checks run on save, and the failure
 * signals Mongoose and MongoDB raise.
 */
module EmployeeModel {
  import opened Wrappers
  import opened Text
  import opened Json
  import opened ServerErrors
  import opened EmployeeValidation

  /** A stored employee document; `id` stands for `_id`, the timestamps for clock readings. */
  datatype Employee = Employee(
    id: nat, name: string, mobile: string, email: string, position: string, salary: int,
    createdAt: int, updatedAt: int)

  /** The schema's setters have been applied: the name is trimmed and the email lower-cased. */
  predicate WellFormed(e: Employee)
  {
    Trimmed(e.name) && LowerCased(e.email)
  }

  /** A well-formed record is a fixed point of the setters: trimming its name and lower-casing its email change nothing. */
  lemma WellFormedIsFixed(e: Employee)
    requires WellFormed(e)
    ensures Trim(e.name) == e.name && ToLower(e.email) == e.email
  {
    TrimKeeps(e.name);
    LowerCasedFixed(e.email);
  }

  /** A body after casting and the setters, before validation; `None` marks an absent path. */
  datatype Draft = Draft(name: Option<string>, mobile: Option<string>, email: Option<string>, position: Option<string>, salary: Option<int>)

  /** Mongoose's cast to String: a number becomes its decimal text. */
  function CastText(v: Value): (o: Option<string>)
    ensures o.Some? <==> v != Missing
    ensures o.Some? ==> o.value == ToText(v)
  {
    match v
    case Missing => None
    case Str(s) => Some(s)
    case Num(n) => Some(IntToString(n))
  }

  /** Mongoose's cast to Number; "" and text that is not a number give no value. */
  function CastNumber(v: Value): (o: Option<int>)
    ensures o.None? <==> v == Missing || v == Str("") || NumberOf(v).None?
    ensures o.Some? ==> o == NumberOf(v)
    ensures v.Num? ==> o == Some(v.n)
  {
    if v == Str("") then None else NumberOf(v)
  }

  /** The name path after its cast and the `trim` setter. */
  function CastName(v: Value): (o: Option<string>)
    ensures o == if v.Missing? then None else Some(Trim(ToText(v)))
    ensures o.Some? ==> Trimmed(o.value)
  {
    match CastText(v)
    case None => None
    case Some(s) => Some(Trim(s))
  }

  /** The email path after its cast and the `lowercase` setter. */
  function CastEmail(v: Value): (o: Option<string>)
    ensures o == if v.Missing? then None else Some(ToLower(ToText(v)))
    ensures o.Some? ==> LowerCased(o.value)
  {
    match CastText(v)
    case None => None
    case Some(s) => ToLowerLowerCased(s); Some(ToLower(s))
  }

  /** `new Employee(body)` (and the cast of an update): each path cast, then `trim` on name and `lowercase` on email. */
  function DraftOf(b: EmployeeBody): (d: Draft)
    ensures d.name == if b.name.Missing? then None else Some(Trim(ToText(b.name)))
    ensures d.email == if b.email.Missing? then None else Some(ToLower(ToText(b.email)))
    ensures d.mobile == if b.mobile.Missing? then None else Some(ToText(b.mobile))
    ensures d.position == if b.position.Missing? then None else Some(ToText(b.position))
    ensures d.salary == CastNumber(b.salary)
    ensures d.name.Some? ==> Trimmed(d.name.value)
    ensures d.email.Some? ==> LowerCased(d.email.value)
  {
    Draft(CastName(b.name), CastText(b.mobile), CastEmail(b.email), CastText(b.position), CastNumber(b.salary))
  }

  /** Mongoose's `required` on a String path: absent and "" fail. */
  function RequiredText(o: Option<string>, path: string, message: string): seq<Issue>
  {
    if o.None? || o.value == "" then [Issue(path, message)] else []
  }

  /** The schema's required checks, in path order, with the schema's messages. */
  function RequiredIssues(d: Draft): (issues: seq<Issue>)
    ensures issues == [] <==>
              && d.name.Some? && d.name.value != "" && d.mobile.Some? && d.mobile.value != ""
              && d.email.Some? && d.email.value != "" && d.position.Some? && d.position.value != ""
              && d.salary.Some?
  {
    RequiredText(d.name, "name", "Name is required")
    + RequiredText(d.mobile, "mobile", "Mobile number is required")
    + RequiredText(d.email, "email", "Email is required")
    + RequiredText(d.position, "position", "Position is required")
    + (if d.salary.None? then [Issue("salary", "Salary is required")] else [])
  }

  /** The record a complete draft is saved as, with both timestamps set to `now`. */
  function Materialise(d: Draft, id: nat, now: int): (e: Employee)
    requires RequiredIssues(d) == []
    ensures e.id == id && e.createdAt == now && e.updatedAt == now
    ensures Some(e.name) == d.name && Some(e.email) == d.email && Some(e.salary) == d.salary
    ensures Some(e.mobile) == d.mobile && Some(e.position) == d.position
    ensures Trimmed(d.name.value) && LowerCased(d.email.value) ==> WellFormed(e)
  {
    Employee(id, d.name.value, d.mobile.value, d.email.value, d.position.value, d.salary.value, now, now)
  }

  /**
   * `findByIdAndUpdate(id, body)`: the paths the body has replace the stored
   * ones (setters applied, schema validators not run), `updatedAt` moves to
   * `now`, and `_id` and `createdAt` stay.
   */
  function Merged(e: Employee, d: Draft, now: int): (r: Employee)
    ensures r.id == e.id && r.createdAt == e.createdAt && r.updatedAt == now
    ensures r.name == d.name.GetOr(e.name) && r.email == d.email.GetOr(e.email) && r.salary == d.salary.GetOr(e.salary)
    ensures r.mobile == d.mobile.GetOr(e.mobile) && r.position == d.position.GetOr(e.position)
  {
    Employee(e.id, d.name.GetOr(e.name), d.mobile.GetOr(e.mobile), d.email.GetOr(e.email),
             d.position.GetOr(e.position), d.salary.GetOr(e.salary), e.createdAt, now)
  }

  /** Updating a well-formed record with a cast body keeps it well-formed. */
  lemma MergedWellFormed(e: Employee, b: EmployeeBody, now: int)
    requires WellFormed(e)
    ensures WellFormed(Merged(e, DraftOf(b), now))
  {
  }

  /**
   * A body the validator lets through casts to a draft with a non-negative
   * salary that passes every `required` check of the schema except, possibly,
   * the name's: `notEmpty` accepts a name of spaces, which the `trim` setter
   * then empties. `isEmail` rejects the empty string, as validator.js's does.
   */
  lemma ValidatedDraftPresent(b: EmployeeBody, isEmail: string -> bool)
    requires Violations(b, isEmail) == [] && !isEmail("")
    ensures RequiredIssues(DraftOf(b)) == (if Trim(ToText(b.name)) == "" then [Issue("name", "Name is required")] else [])
    ensures DraftOf(b).salary.Some? && DraftOf(b).salary.value >= 0
  {
    NoViolationsNoChains(b, isEmail);
    CheckedDraftPresent(b);
  }

  lemma NoViolationsNoChains(b: EmployeeBody, isEmail: string -> bool)
    requires Violations(b, isEmail) == []
    ensures NotEmpty(b.name) && NotEmpty(b.mobile) && NotEmpty(b.position) && isEmail(ToText(b.email))
    ensures IsNumeric(b.salary) && AtLeastZero(b.salary)
  {
    var n, m, e, p, s := NameChecks(b), MobileChecks(b), EmailChecks(b, isEmail), PositionChecks(b), SalaryChecks(b);
    assert |n + m + e + p + s| == |n| + |m| + |e| + |p| + |s|;
  }

  lemma CheckedDraftPresent(b: EmployeeBody)
    requires NotEmpty(b.mobile) && NotEmpty(b.position) && ToText(b.name) != "" && ToText(b.email) != ""
    requires IsNumeric(b.salary) && AtLeastZero(b.salary)
    ensures RequiredIssues(DraftOf(b)) == (if Trim(ToText(b.name)) == "" then [Issue("name", "Name is required")] else [])
    ensures DraftOf(b).salary.Some? && DraftOf(b).salary.value >= 0
  {
    NonEmptyCast(b.mobile);
    NonEmptyCast(b.position);
    NonEmptyEmailCast(b.email);
    AcceptedSalaryCast(b.salary);
    var d := DraftOf(b);
    assert d.name == Some(Trim(ToText(b.name)));
    OnlyNameRequired(d);
  }

  lemma OnlyNameRequired(d: Draft)
    requires d.mobile.Some? && d.mobile.value != "" && d.email.Some? && d.email.value != ""
    requires d.position.Some? && d.position.value != "" && d.salary.Some?
    ensures RequiredIssues(d) == RequiredText(d.name, "name", "Name is required")
  {
    assert RequiredText(d.mobile, "mobile", "Mobile number is required") == [];
    assert RequiredText(d.email, "email", "Email is required") == [];
    assert RequiredText(d.position, "position", "Position is required") == [];
    assert RequiredIssues(d) == RequiredText(d.name, "name", "Name is required") + [] + [] + [] + [];
  }

  lemma NonEmptyEmailCast(v: Value)
    requires ToText(v) != ""
    ensures CastEmail(v).Some? && CastEmail(v).value != ""
  {
    match v
    case Str(s) =>
      assert |ToLower(s)| == |s|;
    case Num(n) =>
      assert |ToLower(IntToString(n))| == |IntToString(n)|;
  }

  lemma NonEmptyCast(v: Value)
    requires NotEmpty(v)
    ensures CastText(v).Some? && CastText(v).value != "" && v != Missing
  {
  }

  lemma AcceptedSalaryCast(v: Value)
    requires IsNumeric(v) && AtLeastZero(v)
    ensures CastNumber(v).Some? && CastNumber(v).value >= 0
  {
    NumericHasNumber(v);
    assert v != Str("");
  }

  // ---------------------------------------------------------------- failure signals

  /** A Mongoose ValidationError raised on save, one issue per failing path. */
  function SchemaFailure(issues: seq<Issue>): (c: Caught)
    ensures c.name == "ValidationError" && c.issues == issues
  {
    Caught("ValidationError", None, [], issues, "", AppError("Employee validation failed", None, None, None))
  }

  /** MongoDB's duplicate-key error (code 11000) on the unique index of `field`. */
  function DuplicateKey(field: string): (c: Caught)
    ensures c.code == Some(11000) && c.keyValue == [field] && !NamedBranch(c.name)
  {
    Caught("MongoServerError", Some(11000), [field], [], "", AppError("E11000 duplicate key error", None, None, None))
  }

  /** Mongoose's CastError for an `:id` that is not an ObjectId. */
  function BadObjectId(): (c: Caught)
    ensures c.name == "CastError" && c.code.None?
  {
    Caught("CastError", None, [], [], "", AppError("Cast to ObjectId failed", None, None, None))
  }
}
