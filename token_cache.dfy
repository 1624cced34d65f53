/**
  The access-token cache of src/app/utils/token_manager.py (`TokenManager`).
  It holds one token and its absolute expiry, hands the token out while it is
  still valid (its expiry minus a refresh skew lies in the future), and
  otherwise fetches a new one from the token endpoint with an OAuth 2.0
  Resource Owner Password Credentials grant (section 4.3 of RFC 6749); the
  success response carries `access_token` and `expires_in` as in section 5.1
  of RFC 6749.

  The clock is the parameter `now` (integer seconds), and the token endpoint
  is the parameter `endpoint`: the response it gives if it is asked.
 */
module TokenCache {
  import opened Wrappers

  /** What the token endpoint answers: the HTTP status and the two fields of its JSON body. */
  datatype TokenResponse = TokenResponse(status: int, accessToken: Option<string>, expiresIn: Option<int>)

  /** The `RuntimeError`s raised by `_refresh`. */
  datatype AuthError =
    | RequestFailed(status: int)   // a status other than 200
    | MissingAccessToken           // no `access_token`, or an empty one

  /** The two mutable fields `_access_token` and `_expires_at`. */
  datatype CacheState = CacheState(accessToken: Option<string>, expiresAt: int)

  /** The POST the cache sends: the token URL and the form-encoded body. */
  datatype TokenRequest = TokenRequest(url: string, form: map<string, string>)

  /** Lifetime used when the response has no `expires_in`. */
  const DefaultExpiresIn := 60
  /** Default `refresh_skew_seconds`. */
  const DefaultRefreshSkew := 30

  /** State of a freshly constructed manager: no token, expiry 0. */
  const Initial := CacheState(None, 0)

  /** The keys the form body may carry. */
  const FormKeys := {"grant_type", "client_id", "username", "password", "client_secret", "scope"}

  /** Python truthiness of an optional string (`if self.client_secret:`). */
  predicate Filled(s: Option<string>) {
    s.Some? && s.value != ""
  }

  /** `_is_valid`: a token is held and `now` is before its expiry minus the skew. */
  predicate Valid(st: CacheState, skew: int, now: int) {
    st.accessToken.Some? && now < st.expiresAt - skew
  }

  /** The response is usable: status 200 and a non-empty `access_token`. */
  predicate Accepted(resp: TokenResponse) {
    resp.status == 200 && Filled(resp.accessToken)
  }

  /** `_refresh` after the POST: the new state, or the error that leaves the state as it was. */
  function Refreshed(resp: TokenResponse, now: int): (r: Result<CacheState, AuthError>)
    ensures r.Success? <==> Accepted(resp)
    ensures r.Success? ==> r.value.accessToken == resp.accessToken && Filled(r.value.accessToken)
                           && r.value.expiresAt == now + resp.expiresIn.GetOr(DefaultExpiresIn)
    ensures resp.status != 200 ==> r == Failure(RequestFailed(resp.status))
    ensures resp.status == 200 && !Filled(resp.accessToken) ==> r == Failure(MissingAccessToken)
  {
    if resp.status != 200 then Failure(RequestFailed(resp.status))
    else if !Filled(resp.accessToken) then Failure(MissingAccessToken)
    else Success(CacheState(resp.accessToken, now + resp.expiresIn.GetOr(DefaultExpiresIn)))
  }

  /** One call of `get_token`: what it returns, the state it leaves, and whether it asked the endpoint. */
  datatype Step = Step(result: Result<string, AuthError>, state: CacheState, requested: bool)

  /** `get_token`, sequentially (the locked re-check repeats the unlocked one). */
  function GetTokenStep(st: CacheState, skew: int, now: int, endpoint: TokenResponse): (s: Step)
    ensures s.requested <==> !Valid(st, skew, now)
    ensures !s.requested ==> s.state == st && s.result == Success(st.accessToken.value)
    ensures s.result.Success? ==> s.state.accessToken == Some(s.result.value)
    ensures s.result.Failure? ==> s.state == st && s.requested
  {
    if Valid(st, skew, now) then Step(Success(st.accessToken.value), st, false)
    else
      match Refreshed(endpoint, now)
      case Success(st') => Step(Success(st'.accessToken.value), st', true)
      case Failure(e) => Step(Failure(e), st, true)
  }

  /** A fresh manager holds no valid token, so its first `get_token` asks the endpoint. */
  lemma FirstCallRefreshes(skew: int, now: int, endpoint: TokenResponse)
    ensures !Valid(Initial, skew, now)
    ensures GetTokenStep(Initial, skew, now, endpoint).requested
  {
  }

  /** With a valid token, `get_token` returns it, asks nothing and changes nothing. */
  lemma CachedTokenServed(st: CacheState, skew: int, now: int, endpoint: TokenResponse)
    requires Valid(st, skew, now)
    ensures GetTokenStep(st, skew, now, endpoint) == Step(Success(st.accessToken.value), st, false)
  {
  }

  /**
    Without a valid token, `get_token` asks the endpoint; it succeeds exactly
    when the response is accepted, and then returns and caches the new token
    with expiry `now + expires_in` (60 when absent); otherwise both fields
    keep their values.
   */
  lemma RefreshOutcome(st: CacheState, skew: int, now: int, endpoint: TokenResponse)
    requires !Valid(st, skew, now)
    ensures var step := GetTokenStep(st, skew, now, endpoint);
      && step.requested
      && (step.result.Success? <==> Accepted(endpoint))
      && (Accepted(endpoint) ==>
            && step.result == Success(endpoint.accessToken.value)
            && step.state == CacheState(endpoint.accessToken, now + endpoint.expiresIn.GetOr(DefaultExpiresIn)))
      && (!Accepted(endpoint) ==> step.state == st)
      && (endpoint.status != 200 ==> step.result == Failure(RequestFailed(endpoint.status)))
  {
  }

  /**
    After a successful refresh at `now` with lifetime `e`, a later call at
    `later` is served from the cache exactly when `later < now + e - skew`;
    otherwise it asks the endpoint again.
   */
  lemma {:induction false} ReuseWindow(st: CacheState, skew: int, now: int, endpoint: TokenResponse,
                                       later: int, next: TokenResponse)
    requires !Valid(st, skew, now) && Accepted(endpoint)
    ensures var first := GetTokenStep(st, skew, now, endpoint);
      var e := endpoint.expiresIn.GetOr(DefaultExpiresIn);
      var second := GetTokenStep(first.state, skew, later, next);
      && first.result == Success(endpoint.accessToken.value)
      && (later < now + e - skew <==> !second.requested)
      && (later < now + e - skew ==> second.result == first.result && second.state == first.state)
  {
    RefreshOutcome(st, skew, now, endpoint);
  }

  /**
    A token whose lifetime does not exceed the skew is still returned, but it is
    not valid even at the instant it was fetched, so every later call (at the
    same time or after) refreshes again.
   */
  lemma {:induction false} ShortLivedTokenRefetched(st: CacheState, skew: int, now: int, endpoint: TokenResponse,
                                                    later: int, next: TokenResponse)
    requires !Valid(st, skew, now) && Accepted(endpoint)
    requires endpoint.expiresIn.GetOr(DefaultExpiresIn) <= skew
    requires now <= later
    ensures GetTokenStep(st, skew, now, endpoint).result == Success(endpoint.accessToken.value)
    ensures GetTokenStep(GetTokenStep(st, skew, now, endpoint).state, skew, later, next).requested
  {
    ReuseWindow(st, skew, now, endpoint, later, next);
  }

  /**
    With the default skew (30 s) and a response without `expires_in` (60 s), a
    refreshed token is served from the cache for the next 30 seconds and
    fetched again from then on.
   */
  lemma DefaultReuseWindow(st: CacheState, now: int, endpoint: TokenResponse, later: int, next: TokenResponse)
    requires !Valid(st, DefaultRefreshSkew, now) && Accepted(endpoint) && endpoint.expiresIn.None?
    ensures GetTokenStep(GetTokenStep(st, DefaultRefreshSkew, now, endpoint).state, DefaultRefreshSkew, later, next).requested
            <==> later >= now + 30
  {
    ReuseWindow(st, DefaultRefreshSkew, now, endpoint, later, next);
  }

  /** `TokenManager`: the configuration it was built with and the two fields it updates in place. */
  class TokenManager {
    const tokenUrl: string
    const clientId: string
    const username: string
    const password: string
    const clientSecret: Option<string>
    const scope: Option<string>
    const refreshSkewSeconds: int

    var accessToken: Option<string>
    var expiresAt: int

    function State(): CacheState
      reads this
    {
      CacheState(accessToken, expiresAt)
    }

    /** `__init__`, token_manager.py:14-36: no token, expiry 0. */
    constructor (tokenUrl: string, clientId: string, username: string, password: string,
                 clientSecret: Option<string>, scope: Option<string>, refreshSkewSeconds: int)
      ensures this.tokenUrl == tokenUrl && this.clientId == clientId
      ensures this.username == username && this.password == password
      ensures this.clientSecret == clientSecret && this.scope == scope
      ensures this.refreshSkewSeconds == refreshSkewSeconds
      ensures State() == Initial
      ensures forall now :: !Valid(State(), refreshSkewSeconds, now)
    {
      this.tokenUrl := tokenUrl;
      this.clientId := clientId;
      this.username := username;
      this.password := password;
      this.clientSecret := clientSecret;
      this.scope := scope;
      this.refreshSkewSeconds := refreshSkewSeconds;
      accessToken := None;
      expiresAt := 0;
    }

    /** `_is_valid`, token_manager.py:38-40. */
    method IsValid(now: int) returns (b: bool)
      ensures b <==> Valid(State(), refreshSkewSeconds, now)
    {
      b := accessToken.Some? && now < expiresAt - refreshSkewSeconds;
    }

    /**
      The form body of the password grant, token_manager.py:57-66: the four
      fixed fields always, `client_secret` and `scope` only when non-empty,
      nothing else.
     */
    predicate IsGrantForm(data: map<string, string>) {
      && data.Keys <= FormKeys
      && "grant_type" in data && data["grant_type"] == "password"
      && "client_id" in data && data["client_id"] == clientId
      && "username" in data && data["username"] == username
      && "password" in data && data["password"] == password
      && ("client_secret" in data <==> Filled(clientSecret))
      && ("client_secret" in data ==> data["client_secret"] == clientSecret.value)
      && ("scope" in data <==> Filled(scope))
      && ("scope" in data ==> data["scope"] == scope.value)
    }

    /** Builds the form body by conditional insertion, token_manager.py:57-66. */
    method FormData() returns (data: map<string, string>)
      ensures IsGrantForm(data)
    {
      data := map["grant_type" := "password", "client_id" := clientId,
                  "username" := username, "password" := password];
      if Filled(clientSecret) {
        data := data["client_secret" := clientSecret.value];
      }
      if Filled(scope) {
        data := data["scope" := scope.value];
      }
    }

    /**
      `_refresh`, token_manager.py:56-87: posts the form, then either stores
      the new token and its expiry or fails leaving both fields as they were.
     */
    method Refresh(now: int, endpoint: TokenResponse) returns (r: Result<(), AuthError>, request: TokenRequest)
      modifies this
      ensures request.url == tokenUrl && IsGrantForm(request.form)
      ensures match Refreshed(endpoint, now)
              case Success(st') => r.Success? && State() == st'
              case Failure(e) => r == Failure(e) && State() == old(State())
    {
      var form := FormData();
      request := TokenRequest(tokenUrl, form);
      if endpoint.status != 200 {
        return Failure(RequestFailed(endpoint.status)), request;
      }
      var token := endpoint.accessToken;
      var expiresIn := endpoint.expiresIn.GetOr(DefaultExpiresIn);
      if !Filled(token) {
        return Failure(MissingAccessToken), request;
      }
      accessToken := token;
      expiresAt := now + expiresIn;
      r := Success(());
    }

    /**
      `get_token`, token_manager.py:42-54: the cached token while it is valid,
      otherwise the result of a refresh. `request` is the POST sent, if any.
     */
    method GetToken(now: int, endpoint: TokenResponse) returns (r: Result<string, AuthError>, request: Option<TokenRequest>)
      modifies this
      ensures var step := GetTokenStep(old(State()), refreshSkewSeconds, now, endpoint);
        r == step.result && State() == step.state && request.Some? == step.requested
      ensures request.Some? ==> request.value.url == tokenUrl && IsGrantForm(request.value.form)
    {
      var valid := IsValid(now);
      if valid {
        return Success(accessToken.value), None;
      }
      var refreshed, sent := Refresh(now, endpoint);
      request := Some(sent);
      if refreshed.Failure? {
        return Failure(refreshed.error), request;
      }
      r := Success(accessToken.value);
    }
  }
}
