/**
 * The employee request validator (backend/middleware/validateEmployee.js):
 * per-field check chains, all of them run (no check stops the others), whose
 * failures are collected into one "Validation failed" error.
 */
module EmployeeValidation {
  import opened Wrappers
  import opened Text
  import opened Json
  import opened ServerErrors

  /** The five fields of an employee request body. */
  datatype EmployeeBody = EmployeeBody(name: Value, mobile: Value, email: Value, position: Value, salary: Value)

  /** The value submitted for the body field named `field`. */
  function FieldValue(b: EmployeeBody, field: string): Value
  {
    match field
    case "name" => b.name
    case "mobile" => b.mobile
    case "email" => b.email
    case "position" => b.position
    case "salary" => b.salary
    case _ => Missing
  }

  /** `notEmpty()`: the string view is not empty (white space counts as content). */
  predicate NotEmpty(v: Value)
  {
    ToText(v) != ""
  }

  /** `matches(/^\d{10}$/)`: exactly ten ASCII digits. */
  predicate TenDigits(v: Value)
  {
    var s := ToText(v);
    |s| == 10 && AllDigits(s)
  }

  /** `custom(value => value >= 0)` under JavaScript's comparison, where NaN is not `>= 0`. */
  predicate AtLeastZero(v: Value)
  {
    var n := NumberOf(v);
    n.Some? && n.value >= 0
  }

  /** One check of a chain: no entry when it passes, one `{ field, message, value }` entry when it fails. */
  function Check(passes: bool, field: string, message: string, v: Value): (ds: seq<Detail>)
    ensures passes <==> ds == []
    ensures forall d :: d in ds ==> d == Detail(field, message, v)
  {
    if passes then [] else [Detail(field, message, v)]
  }

  /** `body("name").notEmpty()`. */
  function NameChecks(b: EmployeeBody): (ds: seq<Detail>)
    ensures ds == [] <==> NotEmpty(b.name)
    ensures |ds| <= 1 && AllAbout(ds, "name", b.name)
    ensures !NotEmpty(b.name) ==> ds == [Detail("name", "Name is required.", b.name)]
  {
    Check(NotEmpty(b.name), "name", "Name is required.", b.name)
  }

  /** `body("mobile").notEmpty().matches(/^\d{10}$/)`: an empty mobile fails both checks. */
  function MobileChecks(b: EmployeeBody): (ds: seq<Detail>)
    ensures ds == [] <==> TenDigits(b.mobile)
    ensures |ds| <= 2 && AllAbout(ds, "mobile", b.mobile)
    ensures !NotEmpty(b.mobile) ==>
              ds == [Detail("mobile", "Mobile is required.", b.mobile), Detail("mobile", "Mobile must be 10 digits.", b.mobile)]
    ensures NotEmpty(b.mobile) && !TenDigits(b.mobile) ==> ds == [Detail("mobile", "Mobile must be 10 digits.", b.mobile)]
  {
    Check(NotEmpty(b.mobile), "mobile", "Mobile is required.", b.mobile)
    + Check(TenDigits(b.mobile), "mobile", "Mobile must be 10 digits.", b.mobile)
  }

  /** `body("email").isEmail()`. */
  function EmailChecks(b: EmployeeBody, isEmail: string -> bool): (ds: seq<Detail>)
    ensures ds == [] <==> isEmail(ToText(b.email))
    ensures |ds| <= 1 && AllAbout(ds, "email", b.email)
    ensures !isEmail(ToText(b.email)) ==> ds == [Detail("email", "Valid email is required.", b.email)]
  {
    Check(isEmail(ToText(b.email)), "email", "Valid email is required.", b.email)
  }

  /** `body("position").notEmpty()`. */
  function PositionChecks(b: EmployeeBody): (ds: seq<Detail>)
    ensures ds == [] <==> NotEmpty(b.position)
    ensures |ds| <= 1 && AllAbout(ds, "position", b.position)
    ensures !NotEmpty(b.position) ==> ds == [Detail("position", "Position is required.", b.position)]
  {
    Check(NotEmpty(b.position), "position", "Position is required.", b.position)
  }

  /** `body("salary").isNumeric().custom(value => value >= 0)`. */
  function SalaryChecks(b: EmployeeBody): (ds: seq<Detail>)
    ensures ds == [] <==> IsNumeric(b.salary) && AtLeastZero(b.salary)
    ensures |ds| <= 2 && AllAbout(ds, "salary", b.salary)
    ensures IsNumeric(b.salary) && !AtLeastZero(b.salary) ==> ds == [Detail("salary", "Salary must be positive.", b.salary)]
    ensures !IsNumeric(b.salary) && AtLeastZero(b.salary) ==> ds == [Detail("salary", "Salary must be a number.", b.salary)]
    ensures !IsNumeric(b.salary) && !AtLeastZero(b.salary) ==>
              ds == [Detail("salary", "Salary must be a number.", b.salary), Detail("salary", "Salary must be positive.", b.salary)]
  {
    Check(IsNumeric(b.salary), "salary", "Salary must be a number.", b.salary)
    + Check(AtLeastZero(b.salary), "salary", "Salary must be positive.", b.salary)
  }

  /** Some entry of `ds` is about `field`. */
  predicate Flags(ds: seq<Detail>, field: string)
  {
    exists d :: d in ds && d.field == field
  }

  /** Position of a field in the order the chains are declared. */
  function FieldRank(field: string): nat
  {
    match field
    case "name" => 0
    case "mobile" => 1
    case "email" => 2
    case "position" => 3
    case _ => 4
  }

  /** Every entry of `ds` is about `field` and carries the value `v`. */
  predicate AllAbout(ds: seq<Detail>, field: string, v: Value)
  {
    forall d :: d in ds ==> d.field == field && d.value == v
  }

  /** The entries are in declaration order of their fields. */
  predicate InFieldOrder(ds: seq<Detail>)
  {
    forall i, j :: 0 <= i < j < |ds| ==> FieldRank(ds[i].field) <= FieldRank(ds[j].field)
  }

  lemma FlagsAppend(a: seq<Detail>, b: seq<Detail>, field: string)
    ensures Flags(a + b, field) <==> Flags(a, field) || Flags(b, field)
  {
    if Flags(a + b, field) {
      var d :| d in a + b && d.field == field;
      assert d in a || d in b;
    }
    if Flags(a, field) {
      var d :| d in a && d.field == field;
      assert d in a + b;
    }
    if Flags(b, field) {
      var d :| d in b && d.field == field;
      assert d in a + b;
    }
  }

  /** Every entry of `ds` is about a field declared at position `r` or earlier. */
  predicate RanksAtMost(ds: seq<Detail>, r: nat)
  {
    forall d :: d in ds ==> FieldRank(d.field) <= r
  }

  /** Appending entries about one field after entries about fields declared no later keeps the order. */
  lemma InFieldOrderAppend(a: seq<Detail>, b: seq<Detail>, r: nat)
    requires InFieldOrder(a) && RanksAtMost(a, r)
    requires forall d :: d in b ==> FieldRank(d.field) == r
    ensures InFieldOrder(a + b) && RanksAtMost(a + b, r)
  {
    forall i, j | 0 <= i < j < |a + b| ensures FieldRank((a + b)[i].field) <= FieldRank((a + b)[j].field) {
      if j >= |a| {
        assert (a + b)[j] in b;
        if i < |a| { assert (a + b)[i] in a; } else { assert (a + b)[i] in b; }
      }
    }
    forall d | d in a + b ensures FieldRank(d.field) <= r {
      assert d in a || d in b;
    }
  }

  /**
   * Every failing check of every chain, in declaration order (express-validator's
   * `validationResult(req).array()`); `isEmail` is validator.js's `isEmail`.
   */
  function Violations(b: EmployeeBody, isEmail: string -> bool): (ds: seq<Detail>)
    ensures ds == [] <==> && NotEmpty(b.name) && TenDigits(b.mobile) && isEmail(ToText(b.email))
                          && NotEmpty(b.position) && IsNumeric(b.salary) && AtLeastZero(b.salary)
    ensures |ds| <= 7
  {
    NameChecks(b) + MobileChecks(b) + EmailChecks(b, isEmail) + PositionChecks(b) + SalaryChecks(b)
  }

  /**
   * What the collected entries mean: each carries the value submitted for its
   * field; a field is reported exactly when one of its checks fails; and the
   * entries come in the order the chains are declared.
   */
  lemma ViolationsMeaning(b: EmployeeBody, isEmail: string -> bool)
    ensures var ds := Violations(b, isEmail);
      && (forall d :: d in ds ==> d.value == FieldValue(b, d.field))
      && (Flags(ds, "name") <==> !NotEmpty(b.name))
      && (Flags(ds, "mobile") <==> !TenDigits(b.mobile))
      && (Flags(ds, "email") <==> !isEmail(ToText(b.email)))
      && (Flags(ds, "position") <==> !NotEmpty(b.position))
      && (Flags(ds, "salary") <==> !(IsNumeric(b.salary) && AtLeastZero(b.salary)))
      && InFieldOrder(ds)
  {
    var n, m, e, p, s := NameChecks(b), MobileChecks(b), EmailChecks(b, isEmail), PositionChecks(b), SalaryChecks(b);
    ChainsAbout(b, isEmail);
    Assemble(b, n, m, e, p, s);
    assert m != [] <==> !TenDigits(b.mobile);
    assert s != [] <==> !(IsNumeric(b.salary) && AtLeastZero(b.salary));
  }

  /** The structural facts about five chains' entries put one after the other. */
  lemma Assemble(b: EmployeeBody, n: seq<Detail>, m: seq<Detail>, e: seq<Detail>, p: seq<Detail>, s: seq<Detail>)
    requires AllAbout(n, "name", b.name) && AllAbout(m, "mobile", b.mobile) && AllAbout(e, "email", b.email)
    requires AllAbout(p, "position", b.position) && AllAbout(s, "salary", b.salary)
    ensures var ds := n + m + e + p + s;
      && (forall d :: d in ds ==> d.value == FieldValue(b, d.field))
      && (Flags(ds, "name") <==> n != [])
      && (Flags(ds, "mobile") <==> m != [])
      && (Flags(ds, "email") <==> e != [])
      && (Flags(ds, "position") <==> p != [])
      && (Flags(ds, "salary") <==> s != [])
      && InFieldOrder(ds)
  {
    var ds := n + m + e + p + s;
    forall d | d in ds ensures d.value == FieldValue(b, d.field) {
      assert d in n || d in m || d in e || d in p || d in s;
    }
    FlagsOfChains(b, n, m, e, p, s, "name");
    FlagsOfChains(b, n, m, e, p, s, "mobile");
    FlagsOfChains(b, n, m, e, p, s, "email");
    FlagsOfChains(b, n, m, e, p, s, "position");
    FlagsOfChains(b, n, m, e, p, s, "salary");
    OrderOfChains(b, n, m, e, p, s);
  }

  lemma OrderOfChains(b: EmployeeBody, n: seq<Detail>, m: seq<Detail>, e: seq<Detail>, p: seq<Detail>, s: seq<Detail>)
    requires AllAbout(n, "name", b.name) && AllAbout(m, "mobile", b.mobile) && AllAbout(e, "email", b.email)
    requires AllAbout(p, "position", b.position) && AllAbout(s, "salary", b.salary)
    ensures InFieldOrder(n + m + e + p + s)
  {
    assert FieldRank("name") == 0 && FieldRank("mobile") == 1 && FieldRank("email") == 2;
    assert FieldRank("position") == 3 && FieldRank("salary") == 4;
    InFieldOrderAppend([], n, 0);
    assert [] + n == n;
    InFieldOrderAppend(n, m, 1);
    InFieldOrderAppend(n + m, e, 2);
    InFieldOrderAppend(n + m + e, p, 3);
    InFieldOrderAppend(n + m + e + p, s, 4);
  }

  lemma ChainsAbout(b: EmployeeBody, isEmail: string -> bool)
    ensures AllAbout(NameChecks(b), "name", b.name)
    ensures AllAbout(MobileChecks(b), "mobile", b.mobile)
    ensures AllAbout(EmailChecks(b, isEmail), "email", b.email)
    ensures AllAbout(PositionChecks(b), "position", b.position)
    ensures AllAbout(SalaryChecks(b), "salary", b.salary)
  {
  }

  lemma FlagsOfChains(b: EmployeeBody, n: seq<Detail>, m: seq<Detail>, e: seq<Detail>, p: seq<Detail>, s: seq<Detail>, f: string)
    requires AllAbout(n, "name", b.name) && AllAbout(m, "mobile", b.mobile) && AllAbout(e, "email", b.email)
    requires AllAbout(p, "position", b.position) && AllAbout(s, "salary", b.salary)
    ensures Flags(n + m + e + p + s, f) <==>
              || (f == "name" && n != []) || (f == "mobile" && m != []) || (f == "email" && e != [])
              || (f == "position" && p != []) || (f == "salary" && s != [])
  {
    FlagsAppend(n, m, f);
    FlagsAppend(n + m, e, f);
    FlagsAppend(n + m + e, p, f);
    FlagsAppend(n + m + e + p, s, f);
    assert Flags(n, f) <==> f == "name" && n != [] by { if n != [] { assert n[0] in n; } }
    assert Flags(m, f) <==> f == "mobile" && m != [] by { if m != [] { assert m[0] in m; } }
    assert Flags(e, f) <==> f == "email" && e != [] by { if e != [] { assert e[0] in e; } }
    assert Flags(p, f) <==> f == "position" && p != [] by { if p != [] { assert p[0] in p; } }
    assert Flags(s, f) <==> f == "salary" && s != [] by { if s != [] { assert s[0] in s; } }
  }

  /**
   * The final middleware: `None` lets the request proceed unchanged; otherwise
   * it throws ValidationError("Validation failed") carrying the entries.
   */
  function ValidateEmployee(b: EmployeeBody, isEmail: string -> bool): (r: Option<AppError>)
    ensures r.None? <==> Violations(b, isEmail) == []
    ensures r.Some? ==> r.value == ValidationError("Validation failed", Violations(b, isEmail))
  {
    var ds := Violations(b, isEmail);
    if ds == [] then None else Some(ValidationError("Validation failed", ds))
  }

  /** A salary of 0 passes both salary checks; a negative number fails only "must be positive". */
  lemma SalaryBoundary(n: int)
    ensures SalaryChecks(EmployeeBody(Missing, Missing, Missing, Missing, Num(n))) ==
              if n >= 0 then [] else [Detail("salary", "Salary must be positive.", Num(n))]
  {
    IntToStringValue(n);
  }

  /** A missing or empty mobile is reported twice: required, and not ten digits. */
  lemma EmptyMobileReportedTwice(b: EmployeeBody)
    requires ToText(b.mobile) == ""
    ensures MobileChecks(b) ==
              [Detail("mobile", "Mobile is required.", b.mobile), Detail("mobile", "Mobile must be 10 digits.", b.mobile)]
  {
  }

  /** A non-numeric salary fails both salary checks, since NaN is not `>= 0` either. */
  lemma NonNumericSalaryReportedTwice(b: EmployeeBody)
    requires b.salary.Missing? || (b.salary.Str? && NumberOf(b.salary).None?)
    ensures SalaryChecks(b) ==
              [Detail("salary", "Salary must be a number.", b.salary), Detail("salary", "Salary must be positive.", b.salary)]
  {
    if IsNumeric(b.salary) {
      NumericHasNumber(b.salary);
    }
  }

  /** The body of the all-fields-bad example: every field fails. */
  function AllBadBody(): EmployeeBody
  {
    EmployeeBody(Str(""), Str("123"), Str("invalid-email"), Str(""), Num(-1000))
  }

  lemma AllBadChains(isEmail: string -> bool)
    requires !isEmail("invalid-email")
    ensures NameChecks(AllBadBody()) == [Detail("name", "Name is required.", Str(""))]
    ensures MobileChecks(AllBadBody()) == [Detail("mobile", "Mobile must be 10 digits.", Str("123"))]
    ensures EmailChecks(AllBadBody(), isEmail) == [Detail("email", "Valid email is required.", Str("invalid-email"))]
    ensures PositionChecks(AllBadBody()) == [Detail("position", "Position is required.", Str(""))]
    ensures SalaryChecks(AllBadBody()) == [Detail("salary", "Salary must be positive.", Num(-1000))]
  {
    IntToStringValue(-1000);
  }

  /** With every field bad at once, all five fields are reported in one pass, in order. */
  lemma AllFieldsReported(isEmail: string -> bool)
    requires !isEmail("invalid-email")
    ensures Violations(AllBadBody(), isEmail) == [
              Detail("name", "Name is required.", Str("")),
              Detail("mobile", "Mobile must be 10 digits.", Str("123")),
              Detail("email", "Valid email is required.", Str("invalid-email")),
              Detail("position", "Position is required.", Str("")),
              Detail("salary", "Salary must be positive.", Num(-1000))]
  {
    AllBadChains(isEmail);
  }
}
