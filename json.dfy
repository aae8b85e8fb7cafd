/** The values a field of a JSON request body can take, and the JavaScript views of them the server uses. */
module Json {
  import opened Wrappers
  import opened Text

  /** A request-body field: absent (`undefined`), a string, or an (integer) number. */
  datatype Value = Missing | Str(s: string) | Num(n: int)

  /** express-validator's string view of a value: `undefined` is "", a number its decimal text. */
  function ToText(v: Value): string
  {
    match v
    case Missing => ""
    case Str(s) => s
    case Num(n) => IntToString(n)
  }

  /**
   * JavaScript's `Number(v)` where it is an integer; `None` stands for NaN.
   * `Number` ignores surrounding white space and reads "" as 0.
   */
  function NumberOf(v: Value): Option<int>
  {
    match v
    case Missing => None
    case Num(n) => Some(n)
    case Str(s) =>
      var t := Trim(s);
      if t == "" then Some(0)
      else if IsIntegerText(t) then Some(IntegerValue(t))
      else None
  }

  /** validator.js `isNumeric()` on the string view: an optional sign and decimal digits. */
  predicate IsNumeric(v: Value)
  {
    IsIntegerText(ToText(v))
  }

  /** A value that passes `isNumeric()` is a number to JavaScript, namely the one its text denotes. */
  lemma NumericHasNumber(v: Value)
    requires IsNumeric(v)
    ensures NumberOf(v) == Some(IntegerValue(ToText(v)))
  {
    match v
    case Num(n) => IntToStringValue(n);
    case Str(s) => TrimKeeps(s);
  }
}
