/**
 * The HTTP client's interceptors: every request carries the stored token as a
 * bearer credential, and an error response of 401 or 402 sends the browser to
 * the login or upgrade page unless it is already there. The stored token and
 * the current pathname are parameters.
 */
module Api {
  import opened Wrappers
  import Js

  /** The header prefix of a bearer credential. */
  const BearerPrefix := "Bearer "

  /** The credential a token is sent as. */
  function Bearer(token: string): string {
    BearerPrefix + token
  }

  /** Reads the token back out of a credential. */
  function TokenOf(header: string): Option<string> {
    if |header| >= |BearerPrefix| && header[..|BearerPrefix|] == BearerPrefix then Some(header[|BearerPrefix|..])
    else None
  }

  /** The token can be read back from the credential it is sent as. */
  lemma BearerRoundTrip(token: string)
    ensures TokenOf(Bearer(token)) == Some(token)
  {
    assert Bearer(token)[..|BearerPrefix|] == BearerPrefix;
    assert Bearer(token)[|BearerPrefix|..] == token;
  }

  /** A request about to be sent, with its headers. */
  class RequestConfig {
    var headers: map<string, string>

    constructor (headers: map<string, string>)
      ensures this.headers == headers
    {
      this.headers := headers;
    }

    /** The request interceptor: a non-empty token becomes the `Authorization` header; otherwise nothing changes. */
    method Authorize(token: Option<string>)
      modifies this
      ensures Js.PresentText(token) ==> headers == old(headers)["Authorization" := Bearer(token.value)]
      ensures !Js.PresentText(token) ==> headers == old(headers)
    {
      if Js.PresentText(token) {
        headers := headers["Authorization" := Bearer(token.value)];
      }
    }
  }

  /** Where a failed response sends the browser, if anywhere; `status` is `None` when there was no response. */
  function Redirect(status: Option<int>, pathname: string): (r: Option<string>)
    ensures r == Some("/login") <==> status == Some(401) && pathname != "/login"
    ensures r == Some("/upgrade") <==> status == Some(402) && pathname != "/upgrade"
    ensures r.None? || r == Some("/login") || r == Some("/upgrade")
  {
    if status == Some(401) && pathname != "/login" then Some("/login")
    else if status == Some(402) && pathname != "/upgrade" then Some("/upgrade")
    else None
  }

  /** A redirect never targets the current page, and a repeat of the failure on the new page does not redirect again. */
  lemma NoRedirectLoop(status: Option<int>, pathname: string)
    ensures Redirect(status, pathname).Some? ==> Redirect(status, pathname).value != pathname
    ensures Redirect(status, pathname).Some? ==> Redirect(status, Redirect(status, pathname).value).None?
  {
  }

  /** A failed request: the response's status when there was a response. */
  datatype HttpError = HttpError(status: Option<int>)

  /** What the response interceptor hands on, and where it sends the browser. */
  datatype Settled<T> = Settled(outcome: Result<T, HttpError>, redirect: Option<string>)

  /** The response interceptor: success and failure are passed on unchanged; only a failure may redirect. */
  function Intercept<T>(outcome: Result<T, HttpError>, pathname: string): (r: Settled<T>)
    ensures r.outcome == outcome
    ensures outcome.Ok? ==> r.redirect.None?
    ensures outcome.Err? ==> r.redirect == Redirect(outcome.error.status, pathname)
  {
    match outcome
    case Ok(_) => Settled(outcome, None)
    case Err(e) => Settled(outcome, Redirect(e.status, pathname))
  }
}
