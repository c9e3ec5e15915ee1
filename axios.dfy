/** The shared HTTP client's two interceptors: every request carries the
    signed-in user's token as a bearer header, and a 401 answer to anything
    but the login call signs the user out and sends them to the login page.
    Every error is passed on to the caller unchanged. */
module Axios {
  import opened Common

  const AuthorizationHeader: string := "Authorization"
  const BearerPrefix: string := "Bearer "
  const LoginEndpoint: string := "/auth/login"
  const LoginPath: string := "/login"
  const Unauthorized: int := 401

  /** The header value for a token. */
  function BearerHeader(token: string): (h: string)
    ensures |h| == |BearerPrefix| + |token|
    ensures h[..|BearerPrefix|] == BearerPrefix
  {
    BearerPrefix + token
  }

  /** The token a bearer header carries. */
  function TokenOfHeader(h: string): Option<string>
  {
    if |h| >= |BearerPrefix| && h[..|BearerPrefix|] == BearerPrefix then Some(h[|BearerPrefix|..]) else None
  }

  /** The header gives back exactly the token it was made from. */
  lemma BearerHeaderRoundTrip(token: string)
    ensures TokenOfHeader(BearerHeader(token)) == Some(token)
  {
    assert BearerHeader(token)[|BearerPrefix|..] == token;
  }

  /** The signed-in state of the auth store. */
  datatype Auth = Auth(token: Option<string>)

  /** `auth?.token`. */
  function TokenOf(auth: Option<Auth>): (t: Option<string>)
    ensures auth.None? ==> t.None?
    ensures auth.Some? ==> t == auth.value.token
  {
    if auth.Some? then auth.value.token else None
  }

  /** The auth store the interceptors read and sign out. */
  class AuthStore {
    var auth: Option<Auth>

    constructor (initial: Option<Auth>)
      ensures auth == initial
    {
      auth := initial;
    }

    method LogOut()
      modifies this
      ensures auth.None?
    {
      auth := None;
    }
  }

  /** The request configuration the request interceptor is handed. */
  class RequestConfig {
    var url: string
    var headers: map<string, string>

    constructor (url: string, headers: map<string, string>)
      ensures this.url == url && this.headers == headers
    {
      this.url := url;
      this.headers := headers;
    }
  }

  /** The request interceptor: with a non-empty token the configuration gets
      the bearer header in place; without one it goes out as it came. Either
      way the same configuration object is returned. */
  method InterceptRequest(store: AuthStore, config: RequestConfig) returns (r: RequestConfig)
    modifies config
    ensures r == config && config.url == old(config.url)
    ensures Truthy(TokenOf(store.auth)) ==>
      config.headers == old(config.headers)[AuthorizationHeader := BearerHeader(TokenOf(store.auth).value)]
    ensures !Truthy(TokenOf(store.auth)) ==> config.headers == old(config.headers)
  {
    var token := TokenOf(store.auth);
    if Truthy(token) {
      config.headers := config.headers[AuthorizationHeader := BearerPrefix + token.value];
    }
    return config;
  }

  /** A settled interceptor result. */
  datatype Outcome<T, E> = Resolved(value: T) | Rejected(error: E)

  /** The request interceptor's error handler. */
  function RejectRequestError<E>(error: E): (o: Outcome<(), E>)
    ensures o.Rejected? && o.error == error
  {
    Rejected(error)
  }

  /** The response interceptor's success handler. */
  function PassResponse<T>(response: T): (o: Outcome<T, ()>)
    ensures o.Resolved? && o.value == response
  {
    Resolved(response)
  }

  /** A failed request: the configuration it was sent with, if any, and the
      HTTP status, absent when no response arrived. */
  datatype HttpError = HttpError(requestUrl: Option<string>, status: Option<int>)

  /** The 401 decision: sign out on an unauthorised answer unless the
      request was the login call itself. */
  predicate ShouldLogOut(e: HttpError)
    // a 401 to a request whose URL is unknown or is not the login call signs out
    ensures e.status == Some(Unauthorized) && e.requestUrl.None? ==> ShouldLogOut(e)
    ensures e.status == Some(Unauthorized) && e.requestUrl.Some? && !Includes(e.requestUrl.value, LoginEndpoint) ==> ShouldLogOut(e)
  {
    e.status == Some(Unauthorized) && !(e.requestUrl.Some? && Includes(e.requestUrl.value, LoginEndpoint))
  }

  /** A wrong password on the login call is not a lost session. */
  lemma LoginFailureKeepsSession(e: HttpError)
    requires e.requestUrl.Some? && Includes(e.requestUrl.value, LoginEndpoint)
    ensures !ShouldLogOut(e)
  {
  }

  /** Any answer other than 401, and a request that got no answer, never
      signs out. */
  lemma OnlyUnauthorizedLogsOut(e: HttpError)
    ensures ShouldLogOut(e) ==> e.status == Some(Unauthorized)
    ensures e.status.None? ==> !ShouldLogOut(e)
  {
  }

  /** The response interceptor's error handler: the 401 decision, then the
      original error is rejected in every case. */
  method HandleResponseError(store: AuthStore, e: HttpError) returns (o: Outcome<(), HttpError>, redirect: Option<string>)
    modifies store
    ensures o == Rejected(e)
    ensures ShouldLogOut(e) ==> store.auth.None? && redirect == Some(LoginPath)
    ensures !ShouldLogOut(e) ==> store.auth == old(store.auth) && redirect.None?
  {
    if e.status == Some(Unauthorized) {
      if e.requestUrl.Some? && Includes(e.requestUrl.value, LoginEndpoint) {
        return Rejected(e), None;
      }
      store.LogOut();
      return Rejected(e), Some(LoginPath);
    }
    return Rejected(e), None;
  }

  /** Scenario: a signed-in request carries the bearer header; a 401 on an
      order request signs out and redirects; the next request goes out
      without a header. */
  method ExpiredSessionScenario(token: string) returns (first: map<string, string>, redirect: Option<string>, second: map<string, string>)
    requires token != ""
    ensures first == map[AuthorizationHeader := BearerPrefix + token]
    ensures redirect == Some(LoginPath)
    ensures second == map[]
  {
    var store := new AuthStore(Some(Auth(Some(token))));
    var c1 := new RequestConfig("/orders", map[]);
    var sent := InterceptRequest(store, c1);
    first := c1.headers;
    assert !Includes("/orders", LoginEndpoint) by {
      assert |"/orders"| < |LoginEndpoint|;
    }
    var o;
    o, redirect := HandleResponseError(store, HttpError(Some("/orders"), Some(Unauthorized)));
    var c2 := new RequestConfig("/orders", map[]);
    sent := InterceptRequest(store, c2);
    second := c2.headers;
  }
}
