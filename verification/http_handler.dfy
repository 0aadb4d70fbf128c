/** The HTTP handler's session state: the base URL, the path prefix that
    selects the cloud or on-premises API, the auth code and the request
    header that carries it, and whether a login has succeeded. The requests
    themselves are not modelled; only the URL a request goes to and the
    authentication check made before it is sent. */
module Http {
  import opened Base

  const DefaultAuthCode := "none_yet"
  const CloudPrefix := "CloudAPI/"
  const OnPremPrefix := "DocLinkAPI/"
  const JsonMedia := "application/json"

  datatype Handler = Handler(
    baseUrl: string,
    authCode: string,
    header: map<string, string>,
    authenticated: bool,
    prefix: string)

  /** The header sent with every request for a given auth code. */
  function HeaderFor(authCode: string): map<string, string> {
    map["AuthCode" := authCode, "Content-Type" := JsonMedia, "Accept" := JsonMedia]
  }

  /** A well-formed handler: the header carries the current auth code next
      to the two fixed JSON entries, and the prefix is one of the two API
      roots. */
  predicate Valid(h: Handler) {
    && h.header == HeaderFor(h.authCode)
    && (h.prefix == CloudPrefix || h.prefix == OnPremPrefix)
  }

  /** A fresh handler: not logged in, placeholder auth code, cloud prefix. */
  function Init(baseUrl: string): (h: Handler)
    ensures Valid(h)
    ensures !h.authenticated && h.baseUrl == baseUrl
    ensures h.authCode == DefaultAuthCode && h.header["AuthCode"] == DefaultAuthCode
    ensures h.prefix == CloudPrefix
  {
    Handler(baseUrl, DefaultAuthCode, HeaderFor(DefaultAuthCode), false, CloudPrefix)
  }

  /** Switches requests to the on-premises API root. */
  function SetModeOnPrem(h: Handler): (r: Handler)
    ensures Valid(h) ==> Valid(r)
    ensures r.prefix == OnPremPrefix
    ensures r.(prefix := h.prefix) == h
  {
    h.(prefix := OnPremPrefix)
  }

  /** Replaces the auth code, in the handler and in its header. */
  function UpdateAuthCode(h: Handler, authCode: string): (r: Handler)
    ensures Valid(h) ==> Valid(r)
    ensures r.authCode == authCode
    ensures "AuthCode" in h.header ==> r.header.Keys == h.header.Keys
    ensures "AuthCode" in r.header && r.header["AuthCode"] == authCode
    ensures forall k | k in h.header && k != "AuthCode" :: k in r.header && r.header[k] == h.header[k]
    ensures r.(authCode := h.authCode, header := h.header) == h
  {
    h.(authCode := authCode, header := h.header["AuthCode" := authCode])
  }

  /** A successful login: the response becomes the auth code and the
      session counts as authenticated. */
  function LoggedIn(h: Handler, response: string): (r: Handler)
    ensures Valid(h) ==> Valid(r)
    ensures r.authenticated && r.authCode == response
    ensures "AuthCode" in r.header && r.header["AuthCode"] == response
    ensures r.baseUrl == h.baseUrl && r.prefix == h.prefix
  {
    UpdateAuthCode(h, response).(authenticated := true)
  }

  /** A logout: the placeholder auth code is restored and the session no
      longer counts as authenticated. */
  function LoggedOut(h: Handler): (r: Handler)
    ensures Valid(h) ==> Valid(r) && r.header == Init(h.baseUrl).header
    ensures !r.authenticated && r.authCode == DefaultAuthCode
    ensures r.baseUrl == h.baseUrl && r.prefix == h.prefix
  {
    UpdateAuthCode(h, DefaultAuthCode).(authenticated := false)
  }

  /** The check made before every request: `NOT_AUTHENTICATED` exactly when
      the request needs authentication and no login has succeeded. */
  function CheckAuthenticated(h: Handler, requiresAuth: bool): (r: Option<Error>)
    ensures r.Some? <==> requiresAuth && !h.authenticated
    ensures r.Some? ==> Tag(r.value) == "NOT_AUTHENTICATED"
  {
    if requiresAuth && !h.authenticated then Some(NotAuthenticated) else None
  }

  /** The URL a GET or POST for `url` is sent to. */
  function RequestUrl(h: Handler, url: string): (r: string)
    ensures |r| == |h.baseUrl| + |h.prefix| + |url|
    ensures r[..|h.baseUrl|] == h.baseUrl
    ensures r[|h.baseUrl|..|h.baseUrl| + |h.prefix|] == h.prefix
    ensures r[|r| - |url|..] == url
  {
    h.baseUrl + h.prefix + url
  }

  /** Once logged in, a request needing authentication passes the check;
      once logged out, it fails, whatever happened before. A request that
      does not need authentication always passes. */
  lemma SessionGatesRequests(h: Handler, response: string)
    ensures CheckAuthenticated(LoggedIn(h, response), true).None?
    ensures CheckAuthenticated(LoggedOut(h), true) == Some(NotAuthenticated)
    ensures CheckAuthenticated(LoggedOut(LoggedIn(h, response)), true) == Some(NotAuthenticated)
    ensures CheckAuthenticated(h, false).None?
  {
  }

  /** Logging in and out again leaves the handler as a fresh one with the
      same prefix. */
  lemma LoginLogoutRestores(baseUrl: string, response: string)
    ensures LoggedOut(LoggedIn(Init(baseUrl), response)) == Init(baseUrl)
  {
  }

  /** The state changes a handler goes through. */
  datatype Op = OnPrem | Login(response: string) | Logout | NewAuthCode(authCode: string)

  function Apply(h: Handler, op: Op): Handler {
    match op
    case OnPrem => SetModeOnPrem(h)
    case Login(response) => LoggedIn(h, response)
    case Logout => LoggedOut(h)
    case NewAuthCode(code) => UpdateAuthCode(h, code)
  }

  /** The handler after a sequence of state changes, applied in order. */
  function Run(h: Handler, ops: seq<Op>): Handler
    decreases |ops|
  {
    if ops == [] then h else Run(Apply(h, ops[0]), ops[1..])
  }

  /** The header always carries the current auth code, and the base URL never
      changes, whatever the handler goes through. */
  lemma {:induction false} RunPreservesValid(h: Handler, ops: seq<Op>)
    requires Valid(h)
    ensures Valid(Run(h, ops))
    ensures Run(h, ops).header["AuthCode"] == Run(h, ops).authCode
    ensures Run(h, ops).baseUrl == h.baseUrl
    decreases |ops|
  {
    if ops != [] {
      RunPreservesValid(Apply(h, ops[0]), ops[1..]);
    }
  }
}
