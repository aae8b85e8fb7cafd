/**
 * The request interceptor of frontend/src/api.js: with a stored token it
 * sets `config.headers.Authorization` to `Bearer <token>` (the bearer scheme
 * of section 2.1 of RFC 6750) on the config it is handed, and returns that
 * config.
 */
module ApiClient {
  import opened Wrappers
  import opened Text
  import opened AuthGate

  /** The header value the interceptor writes for a token. */
  function BearerHeader(token: string): (h: string)
    ensures |h| == |token| + 7 && h[..7] == "Bearer " && h[7..] == token
  {
    "Bearer " + token
  }

  /** The gate's `split(" ")[1]` recovers any token without a space from the header built for it. */
  lemma BearerRoundTrip(token: string)
    requires ' ' !in token
    ensures BearerToken(BearerHeader(token)) == Some(token)
  {
    assert BearerHeader(token) == Join(["Bearer", token], [' ']);
    SplitJoin(["Bearer", token], ' ');
  }

  /** An axios request config: its headers and the rest of it (URL, method, body), which the interceptor leaves alone. */
  class RequestConfig {
    var headers: map<string, string>
    var rest: seq<string>

    constructor (headers: map<string, string>, rest: seq<string>)
      ensures this.headers == headers && this.rest == rest
    {
      this.headers := headers;
      this.rest := rest;
    }

    /** The interceptor, given `localStorage.getItem("token")`; a missing or empty token adds nothing. */
    method Intercept(stored: Option<string>)
      modifies this
      ensures stored.Some? && stored.value != "" ==> headers == old(headers)["Authorization" := BearerHeader(stored.value)]
      ensures stored.None? || stored.value == "" ==> headers == old(headers)
      ensures rest == old(rest)
    {
      if stored.Some? && stored.value != "" {
        headers := headers["Authorization" := BearerHeader(stored.value)];
      }
    }
  }
}
