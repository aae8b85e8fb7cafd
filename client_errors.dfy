/**
 * The client's error normaliser (frontend/src/utils/errorHandler.js): every
 * rejected request becomes `{ message, code?, details?, status? }`, which the
 * forms show either through their state setters or in an alert.
 */
module ClientErrors {
  import opened Wrappers
  import opened Text
  import opened ServerErrors

  /** `response.data.error` of an error envelope (its `code` and `details` may be absent). */
  datatype ErrorBody = ErrorBody(message: string, code: Option<string>, details: Option<seq<Detail>>)

  /** `response.data`: `error` for the envelope shape, `message` ("" when absent) for the older `{ message }` shape. */
  datatype Data = Data(error: Option<ErrorBody>, message: string)

  datatype Response = Response(status: nat, data: Option<Data>)

  /**
   * What a failed request rejects with: the server's response if one came
   * back, whether the request was sent, and the local error's `message`
   * ("" when absent).
   */
  datatype Failure = Failure(response: Option<Response>, request: bool, message: string)

  /** The result of `parseError`; `None` marks a key the result object does not have. */
  datatype Parsed = Parsed(message: string, code: Option<string>, details: Option<seq<Detail>>, status: Option<nat>)

  const NetworkMessage: string := "Network error. Please check your connection."
  const UnexpectedMessage: string := "An unexpected error occurred"

  /** The response carries the error envelope (`data && data.error`). */
  predicate EnvelopeShaped(f: Failure)
  {
    f.response.Some? && f.response.value.data.Some? && f.response.value.data.value.error.Some?
  }

  /** The response carries only the older `{ message }` shape. */
  predicate LegacyShaped(f: Failure)
  {
    && f.response.Some? && f.response.value.data.Some?
    && f.response.value.data.value.error.None? && f.response.value.data.value.message != ""
  }

  function ServerErrorMessage(status: nat): string
  {
    "Server error (" + NatToString(status) + ")"
  }

  /** `parseError`: the response before the request, the envelope before the `{ message }` shape. */
  function ParseError(f: Failure): (p: Parsed)
    ensures p.status.Some? <==> f.response.Some?
    ensures f.response.Some? ==> p.status == Some(f.response.value.status)
    ensures p.details.Some? <==> EnvelopeShaped(f)
    ensures EnvelopeShaped(f) ==>
              var body := f.response.value.data.value.error.value;
              p.message == body.message && p.code == body.code && p.details == Some(body.details.GetOr([]))
    ensures LegacyShaped(f) ==> p.message == f.response.value.data.value.message && p.code.None?
    ensures f.response.Some? && !EnvelopeShaped(f) && !LegacyShaped(f) ==>
              p.message == ServerErrorMessage(f.response.value.status) && p.code.None?
    ensures f.response.None? && f.request ==> p.message == NetworkMessage && p.code == Some("NETWORK_ERROR")
    ensures f.response.None? && !f.request ==>
              p.code == Some("UNKNOWN_ERROR") && p.message == (if f.message != "" then f.message else UnexpectedMessage)
    ensures !EnvelopeShaped(f) ==> p.message != ""
  {
    match f.response
    case Some(Response(status, data)) =>
      if data.Some? && data.value.error.Some? then
        var body := data.value.error.value;
        Parsed(body.message, body.code, Some(body.details.GetOr([])), Some(status))
      else if data.Some? && data.value.message != "" then
        Parsed(data.value.message, None, None, Some(status))
      else
        Parsed(ServerErrorMessage(status), None, None, Some(status))
    case None =>
      if f.request then Parsed(NetworkMessage, Some("NETWORK_ERROR"), None, None)
      else Parsed(if f.message != "" then f.message else UnexpectedMessage, Some("UNKNOWN_ERROR"), None, None)
  }

  /** A connectivity failure is reported the same way whatever the transport's own message says. */
  lemma NetworkIgnoresLocalMessage(f: Failure, m: string)
    requires f.response.None? && f.request
    ensures ParseError(f) == ParseError(f.(message := m))
  {
  }

  // ---------------------------------------------------------------- formatting

  function DetailLine(d: Detail): string
  {
    d.field + ": " + d.message
  }

  function DetailLines(ds: seq<Detail>): (lines: seq<string>)
    ensures |lines| == |ds|
    ensures forall i :: 0 <= i < |ds| ==> lines[i] == DetailLine(ds[i])
  {
    seq(|ds|, i requires 0 <= i < |ds| => DetailLine(ds[i]))
  }

  /** `formatValidationErrors`: `None` (null) unless given an array; otherwise one "field: message" line per detail. */
  function FormatValidationErrors(details: Option<seq<Detail>>): (r: Option<string>)
    ensures r.Some? <==> details.Some?
    ensures r.Some? ==> r.value == Join(DetailLines(details.value), "\n")
  {
    match details
    case None => None
    case Some(ds) => Some(Join(DetailLines(ds), "\n"))
  }

  /**
   * The formatted text reads back into its lines, one per detail, in order,
   * provided no field or message contains a line break.
   */
  lemma FormattedLinesReadBack(ds: seq<Detail>)
    requires |ds| >= 1
    requires forall i :: 0 <= i < |ds| ==> '\n' !in ds[i].field && '\n' !in ds[i].message
    ensures Split(FormatValidationErrors(Some(ds)).value, '\n') == DetailLines(ds)
  {
    var lines := DetailLines(ds);
    forall k | 0 <= k < |lines| ensures '\n' !in lines[k] {
      assert lines[k] == ds[k].field + ": " + ds[k].message;
    }
    SplitJoin(lines, '\n');
  }

  /** The alert `showError` raises when no `setError` is given. */
  function AlertText(p: Parsed): (t: string)
    ensures p.details.None? || p.details.value == [] ==> t == p.message
    ensures p.details.Some? && p.details.value != [] ==>
              t == p.message + "\n\nDetails:\n" + FormatValidationErrors(p.details).value
  {
    if p.details.Some? && |p.details.value| > 0 then
      p.message + "\n\nDetails:\n" + Join(DetailLines(p.details.value), "\n")
    else
      p.message
  }

  // ---------------------------------------------------------------- display

  /** A form's `error` and `errorDetails` state. */
  datatype Screen = Screen(error: Option<string>, details: seq<Detail>)

  /** What `showError` leaves behind: the new form state, the alert raised if any, and its return value. */
  datatype Shown = Shown(screen: Screen, alert: Option<string>, parsed: Parsed)

  /**
   * `showError(error, setError, setErrorDetails)`: `hasSetError` and
   * `hasSetDetails` say whether each setter was passed.
   */
  function ShowError(f: Failure, screen: Screen, hasSetError: bool, hasSetDetails: bool): (s: Shown)
    ensures s.parsed == ParseError(f)
    ensures s.screen.error == if hasSetError then Some(ParseError(f).message) else screen.error
    ensures s.screen.details ==
              if hasSetDetails && ParseError(f).details.Some? then ParseError(f).details.value else screen.details
    ensures s.alert == if hasSetError then None else Some(AlertText(ParseError(f)))
  {
    var p := ParseError(f);
    var error := if hasSetError then Some(p.message) else screen.error;
    var details := if hasSetDetails && p.details.Some? then p.details.value else screen.details;
    Shown(Screen(error, details), if !hasSetError then Some(AlertText(p)) else None, p)
  }

  /** A failure without the envelope shape leaves the displayed details as they were. */
  lemma NonEnvelopeKeepsDetails(f: Failure, screen: Screen, hasSetError: bool, hasSetDetails: bool)
    requires !EnvelopeShaped(f)
    ensures ShowError(f, screen, hasSetError, hasSetDetails).screen.details == screen.details
  {
  }
}
