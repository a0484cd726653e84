/** The OAuth 2.0 authorization-code flow manager: it builds the authorize
    redirect (section 4.1.1 of RFC 6749, with the space-delimited scope of
    section 3.3 of RFC 6749), exchanges a code for tokens (section 4.1.3 of
    RFC 6749, with HTTP Basic client authentication, section 2.3.1 of
    RFC 6749), and returns the stored access token or refreshes it (section 6
    of RFC 6749). The token endpoint is an oracle: a function from the
    request to the provider's reply. */
module AuthorizationCode {
  import opened Tokens
  import opened Strings
  import opened Keyed
  import opened TokenRepository
  import C = CacheRepository
  import DB = DatabaseRepository

  const AuthorizeUrl: string := "https://accounts.spotify.com/authorize"
  const TokenUrl: string := "https://accounts.spotify.com/api/token"
  const NoRefreshTokenMessage: string := "No refresh token available. User must re-authenticate."
  const UnknownError: string := "Unknown error"

  datatype ClientConfig = ClientConfig(clientId: string, clientSecret: string, redirectUri: string)

  /** A query or form parameter, in the order it is added. */
  type Param = (string, string)

  /** The authorize parameters: `client_id`, `response_type=code` and
      `redirect_uri`, then `scope` when there are scopes, then `state` when
      one is given. */
  function AuthorizationParams(cfg: ClientConfig, scopes: seq<string>, state: Option<string>): seq<Param>
  {
    [("client_id", cfg.clientId), ("response_type", "code"), ("redirect_uri", cfg.redirectUri)]
    + (if |scopes| > 0 then [("scope", Implode(" ", scopes))] else [])
    + (if state.Some? then [("state", state.value)] else [])
  }

  /** `http_build_query`: `key=value` pairs joined by `&`, keys and values
      passed through the form encoding `encode`. */
  function HttpBuildQuery(params: seq<Param>, encode: string -> string): string
  {
    Implode("&", seq(|params|, i requires 0 <= i < |params| => encode(params[i].0) + "=" + encode(params[i].1)))
  }

  /** `getAuthorizationUrl`: the authorize endpoint, `?`, then the query. */
  function AuthorizationUrl(cfg: ClientConfig, scopes: seq<string>, state: Option<string>,
                            encode: string -> string): (url: string)
    ensures |url| > |AuthorizeUrl| && url[..|AuthorizeUrl| + 1] == AuthorizeUrl + "?"
  {
    var url := AuthorizeUrl + "?" + HttpBuildQuery(AuthorizationParams(cfg, scopes, state), encode);
    assert url[..|AuthorizeUrl| + 1] == AuthorizeUrl + "?";
    url
  }

  /** The authorize parameters in order; `scope` is present iff there are
      scopes, with the scopes joined by single spaces; `state` is present iff
      one is given, with its value. */
  lemma AuthorizationParamsShape(cfg: ClientConfig, scopes: seq<string>, state: Option<string>)
    ensures var p := AuthorizationParams(cfg, scopes, state);
      && p[..3] == [("client_id", cfg.clientId), ("response_type", "code"), ("redirect_uri", cfg.redirectUri)]
      && |p| == 3 + (if |scopes| > 0 then 1 else 0) + (if state.Some? then 1 else 0)
      && (HasKey(p, "scope") <==> |scopes| > 0)
      && (|scopes| > 0 ==> Lookup(p, "scope") == Some(Implode(" ", scopes)))
      && (HasKey(p, "state") <==> state.Some?)
      && (state.Some? ==> Lookup(p, "state") == state)
      && (|scopes| > 0 && state.Some? ==> p[3].0 == "scope" && p[4].0 == "state")
  {
    var base := [("client_id", cfg.clientId), ("response_type", "code"), ("redirect_uri", cfg.redirectUri)];
    var sc: seq<Param> := if |scopes| > 0 then [("scope", Implode(" ", scopes))] else [];
    var st: seq<Param> := if state.Some? then [("state", state.value)] else [];
    var p := base + sc + st;
    assert p == AuthorizationParams(cfg, scopes, state);
    assert !HasKey(base, "scope") && !HasKey(base, "state") by {
      assert forall i :: 0 <= i < 3 ==> base[i].0 in {"client_id", "response_type", "redirect_uri"};
    }
    assert !HasKey(st, "scope");
    assert !HasKey(sc, "state");
    NoKeyAppend(base, sc, "state");
    assert base + sc + st == base + (sc + st);
    if |scopes| > 0 {
      assert p[3] == ("scope", Implode(" ", scopes));
      LookupAppend(base, sc + st, "scope");
    } else {
      assert !HasKey(sc + st, "scope");
      NoKeyAppend(base, sc + st, "scope");
    }
    if state.Some? {
      assert p[|p| - 1] == ("state", state.value);
      LookupAppend(base + sc, st, "state");
    } else {
      assert p == base + sc;
    }
  }

  /** The `Authorization: Basic base64(client_id:client_secret)` header, kept
      as the pair it encodes. */
  datatype BasicAuth = BasicAuth(clientId: string, clientSecret: string)

  /** A form-encoded POST to the token endpoint. */
  datatype TokenRequest = TokenRequest(url: string, auth: BasicAuth, form: seq<Param>)

  /** The decoded body of an error response: its `error` field, if any. */
  datatype ErrorBody = ErrorBody(error: Option<string>)

  /** What the token endpoint answers: the decoded tokens, or an HTTP error
      with its status and its body, `None` when that is not JSON. */
  datatype TokenReply = Granted(tokens: TokenResponse) | Rejected(status: int, body: Option<ErrorBody>)

  type TokenEndpoint = TokenRequest -> TokenReply

  function CodeRequest(cfg: ClientConfig, code: string): TokenRequest
  {
    TokenRequest(TokenUrl, BasicAuth(cfg.clientId, cfg.clientSecret),
                 [("grant_type", "authorization_code"), ("code", code), ("redirect_uri", cfg.redirectUri)])
  }

  function RefreshRequest(cfg: ClientConfig, refreshToken: string): TokenRequest
  {
    TokenRequest(TokenUrl, BasicAuth(cfg.clientId, cfg.clientSecret),
                 [("grant_type", "refresh_token"), ("refresh_token", refreshToken)])
  }

  /** What a call can raise: the authentication exception, or the type error
      of returning null where a string is declared. */
  datatype Failure =
    | AuthException(message: string, status: int, payload: Option<ErrorBody>)
    | ReturnTypeError

  datatype Result<T> = Ok(value: T) | Err(failure: Failure)

  /** The exception raised for a rejected token request. */
  function RequestFailure(status: int, body: Option<ErrorBody>): Failure
  {
    var message := if body.Some? && body.value.error.Some? then body.value.error.value else UnknownError;
    AuthException(message, status, body)
  }

  const MissingRefreshToken: Failure := AuthException(NoRefreshTokenMessage, 401, None)

  /** Carries the old refresh token forward when the response has an empty one. */
  function WithRefreshToken(t: TokenResponse, refreshToken: string): (r: TokenResponse)
    ensures r.refreshToken == if Empty(t.refreshToken) then Some(refreshToken) else t.refreshToken
    ensures r.(refreshToken := t.refreshToken) == t
  {
    if Empty(t.refreshToken) then t.(refreshToken := Some(refreshToken)) else t
  }

  /** The result of a call, the token requests it sent and the repository
      writes it issued. */
  datatype Outcome<T> = Outcome(result: Result<T>, calls: seq<TokenRequest>, writes: seq<Write>)

  /** `exchangeCodeForTokens`. */
  function Exchange(cfg: ClientConfig, k: string, code: string, endpoint: TokenEndpoint): Outcome<TokenResponse>
  {
    var request := CodeRequest(cfg, code);
    match endpoint(request)
    case Rejected(status, body) => Outcome(Err(RequestFailure(status, body)), [request], [])
    case Granted(t) => Outcome(Ok(t), [request], [StoreCall(k, t)])
  }

  /** `refreshAccessToken`. */
  function Refresh(cfg: ClientConfig, s: RepoState, k: string, endpoint: TokenEndpoint): Outcome<TokenResponse>
  {
    match RefreshTokenIn(s, k)
    case None => Outcome(Err(MissingRefreshToken), [], [])
    case Some(rt) =>
      var request := RefreshRequest(cfg, rt);
      match endpoint(request)
      case Rejected(status, body) => Outcome(Err(RequestFailure(status, body)), [request], [])
      case Granted(t) =>
        var merged := WithRefreshToken(t, rt);
        Outcome(Ok(merged), [request], [StoreCall(k, merged)])
  }

  /** `getAccessTokenForUser`. */
  function AccessTokenForUser(cfg: ClientConfig, s: RepoState, k: string, endpoint: TokenEndpoint): Outcome<string>
  {
    if !ExpiredIn(s, k) then
      var r := match AccessTokenIn(s, k)
        case Some(a) => Ok(a)
        case None => Err(ReturnTypeError);
      Outcome(r, [], [])
    else if RefreshTokenIn(s, k).None? then
      Outcome(Err(MissingRefreshToken), [], [])
    else
      var o := Refresh(cfg, s, k, endpoint);
      var r := match o.result
        case Ok(t) => Ok(t.accessToken)
        case Err(f) => Err(f);
      Outcome(r, o.calls, o.writes)
  }

  /** Exchange: one request with the code; on success the response is
      stored unchanged under the user exactly once and returned; on an error
      reply the exception carries the `error` field (or "Unknown error") and
      the status, and the repository is not written. */
  lemma ExchangeContract(cfg: ClientConfig, s: RepoState, k: string, code: string, endpoint: TokenEndpoint)
    ensures var o := Exchange(cfg, k, code, endpoint);
      && o.calls == [CodeRequest(cfg, code)]
      && o.calls[0].form[0] == ("grant_type", "authorization_code")
    ensures var o := Exchange(cfg, k, code, endpoint);
      var reply := endpoint(CodeRequest(cfg, code));
      reply.Granted? ==>
        && o.result == Ok(reply.tokens)
        && o.writes == [StoreCall(k, reply.tokens)]
        && Replay(s, o.writes) == Stored(s, k, reply.tokens)
    ensures var o := Exchange(cfg, k, code, endpoint);
      var reply := endpoint(CodeRequest(cfg, code));
      reply.Rejected? ==>
        && o.writes == [] && Replay(s, o.writes) == s
        && o.result == Err(AuthException(
             if reply.body.Some? && reply.body.value.error.Some? then reply.body.value.error.value else UnknownError,
             reply.status, reply.body))
  {
    var o := Exchange(cfg, k, code, endpoint);
    if endpoint(CodeRequest(cfg, code)).Granted? {
      ReplayOne(s, o.writes[0]);
    }
  }

  /** Fresh: a token that is not expired is returned without any request or
      write; with the database backend it is always present. */
  lemma FreshTokenFastPath(cfg: ClientConfig, s: RepoState, k: string, endpoint: TokenEndpoint)
    requires Good(s)
    requires !ExpiredIn(s, k)
    ensures var o := AccessTokenForUser(cfg, s, k, endpoint);
      && o.calls == [] && o.writes == []
      && (AccessTokenIn(s, k).Some? ==> o.result == Ok(AccessTokenIn(s, k).value))
      && (o.result.Err? ==> s.CacheState? && s.entries[C.MarkerKey(k)].value.time == s.now)
  {
    NotExpiredHasAccessToken(s, k);
  }

  /** Stranded: without a refresh token both calls fail with a 401 before
      any request or write. */
  lemma NoRefreshTokenFailsLocally(cfg: ClientConfig, s: RepoState, k: string, endpoint: TokenEndpoint)
    requires RefreshTokenIn(s, k).None?
    ensures var o := Refresh(cfg, s, k, endpoint);
      o.result == Err(AuthException(NoRefreshTokenMessage, 401, None)) && o.calls == [] && o.writes == []
    ensures ExpiredIn(s, k) ==>
      var o := AccessTokenForUser(cfg, s, k, endpoint);
      o.result == Err(AuthException(NoRefreshTokenMessage, 401, None)) && o.calls == [] && o.writes == []
  {
  }

  /** Refresh, called directly and whether or not the token has expired:
      one `refresh_token` request with the stored refresh token; on success
      the response, with the old refresh token carried forward when its own
      is empty, is stored once and returned, so what is stored is what is
      returned; on an error reply the exception carries the `error` field (or
      "Unknown error") and the status, and nothing is written. */
  lemma RefreshContract(cfg: ClientConfig, s: RepoState, k: string, rt: string, endpoint: TokenEndpoint)
    requires RefreshTokenIn(s, k) == Some(rt)
    ensures var o := Refresh(cfg, s, k, endpoint);
      && o.calls == [RefreshRequest(cfg, rt)]
      && o.calls[0].form == [("grant_type", "refresh_token"), ("refresh_token", rt)]
    ensures var o := Refresh(cfg, s, k, endpoint);
      var reply := endpoint(RefreshRequest(cfg, rt));
      reply.Granted? ==>
        && o.result == Ok(WithRefreshToken(reply.tokens, rt))
        && o.writes == [StoreCall(k, o.result.value)]
        && Replay(s, o.writes) == Stored(s, k, o.result.value)
    ensures var o := Refresh(cfg, s, k, endpoint);
      var reply := endpoint(RefreshRequest(cfg, rt));
      reply.Rejected? ==>
        && o.writes == [] && Replay(s, o.writes) == s
        && o.result == Err(AuthException(
             if reply.body.Some? && reply.body.value.error.Some? then reply.body.value.error.value else UnknownError,
             reply.status, reply.body))
  {
    var o := Refresh(cfg, s, k, endpoint);
    if endpoint(RefreshRequest(cfg, rt)).Granted? {
      ReplayOne(s, o.writes[0]);
    }
  }

  /** Stale: an expired token with a refresh token causes exactly one
      refresh request. On success the merged record is stored once and its
      access token returned; on an error reply the exception is surfaced and
      nothing is written. */
  lemma StaleTokenRefreshesOnce(cfg: ClientConfig, s: RepoState, k: string, rt: string, endpoint: TokenEndpoint)
    requires ExpiredIn(s, k)
    requires RefreshTokenIn(s, k) == Some(rt)
    ensures var o := AccessTokenForUser(cfg, s, k, endpoint);
      o.calls == [RefreshRequest(cfg, rt)]
    ensures var o := AccessTokenForUser(cfg, s, k, endpoint);
      var reply := endpoint(RefreshRequest(cfg, rt));
      reply.Granted? ==>
        o.result == Ok(reply.tokens.accessToken) && o.writes == [StoreCall(k, WithRefreshToken(reply.tokens, rt))]
    ensures var o := AccessTokenForUser(cfg, s, k, endpoint);
      var reply := endpoint(RefreshRequest(cfg, rt));
      reply.Rejected? ==>
        o.result == Err(RequestFailure(reply.status, reply.body)) && o.writes == [] && Replay(s, o.writes) == s
  {
  }

  /** Carry-forward: when a refresh response has no usable refresh token, the
      record stored (and returned) holds the previous one, and the repository
      still reports it afterwards, with either backend. */
  lemma RefreshCarriesRefreshTokenForward(cfg: ClientConfig, s: RepoState, k: string, rt: string,
                                          endpoint: TokenEndpoint, t: TokenResponse)
    requires Good(s)
    requires RefreshTokenIn(s, k) == Some(rt)
    requires endpoint(RefreshRequest(cfg, rt)) == Granted(t)
    requires Empty(t.refreshToken)
    ensures var o := Refresh(cfg, s, k, endpoint);
      && o.result == Ok(t.(refreshToken := Some(rt)))
      && o.writes == [StoreCall(k, o.result.value)]
      && RefreshTokenIn(Replay(s, o.writes), k) == Some(rt)
  {
    var o := Refresh(cfg, s, k, endpoint);
    var merged := t.(refreshToken := Some(rt));
    ReplayOne(s, o.writes[0]);
    match s
    case DbState(rows, now) =>
      DB.StoreThenRead(rows, k, merged, now, now);
    case CacheState(entries, now) =>
      assert C.Coherent(entries, k);
      assert !Empty(Some(rt));
      C.StoreThenRead(entries, k, merged, now, now);
  }

  /** Stale to fresh: after a successful refresh with a positive lifetime the
      token is no longer expired, and the repository returns the access token
      that `getAccessTokenForUser` returned. */
  lemma RefreshMakesTokenFresh(cfg: ClientConfig, s: RepoState, k: string, rt: string,
                               endpoint: TokenEndpoint, t: TokenResponse)
    requires ExpiredIn(s, k)
    requires RefreshTokenIn(s, k) == Some(rt)
    requires endpoint(RefreshRequest(cfg, rt)) == Granted(t)
    requires t.expiresIn > 0
    ensures var o := AccessTokenForUser(cfg, s, k, endpoint);
      var after := Replay(s, o.writes);
      && o.result == Ok(t.accessToken)
      && !ExpiredIn(after, k)
      && AccessTokenIn(after, k) == Some(t.accessToken)
  {
    var merged := WithRefreshToken(t, rt);
    ReplayOne(s, StoreCall(k, merged));
    StoreThenRead(s, k, merged);
  }

  /** After a successful exchange with a positive lifetime, asking for the
      user's token takes the fast path and returns the new access token. */
  lemma ExchangeThenFastPath(cfg: ClientConfig, s: RepoState, k: string, code: string,
                             endpoint: TokenEndpoint, t: TokenResponse, later: TokenEndpoint)
    requires endpoint(CodeRequest(cfg, code)) == Granted(t)
    requires t.expiresIn > 0
    ensures var after := Replay(s, Exchange(cfg, k, code, endpoint).writes);
      AccessTokenForUser(cfg, after, k, later) == Outcome(Ok(t.accessToken), [], [])
  {
    ReplayOne(s, StoreCall(k, t));
    StoreThenRead(s, k, t);
  }

  /** After `forgetTokens` the user is stranded: asking for a token fails
      with a 401 without any request. */
  lemma ForgottenUserMustReauthenticate(cfg: ClientConfig, s: RepoState, k: string, endpoint: TokenEndpoint)
    ensures AccessTokenForUser(cfg, Forgotten(s, k), k, endpoint) == Outcome(Err(MissingRefreshToken), [], [])
  {
    ForgetIsTotal(s, k);
  }

  /** The life of one user's credential, with either backend: the code
      exchange returns T1 and R1 for an hour; an hour and a second later the
      token is expired, asking for it refreshes once, the provider answers T2
      without a refresh token, the caller gets T2 and R1 is still stored. */
  lemma Scenario(cfg: ClientConfig, s0: RepoState, t1: TokenResponse, t2: TokenResponse)
    requires Good(s0)
    requires t1.accessToken == "T1" && t1.refreshToken == Some("R1") && t1.expiresIn == 3600
    requires t2.accessToken == "T2" && t2.refreshToken.None? && t2.expiresIn == 3600
    ensures var endpoint := (r: TokenRequest) => if r == CodeRequest(cfg, "abc") then Granted(t1) else Granted(t2);
      var k := Key(IntId(42));
      var s1 := Replay(s0, Exchange(cfg, k, "abc", endpoint).writes);
      var s2 := Advanced(s1, 3601);
      var o := AccessTokenForUser(cfg, s2, k, endpoint);
      && AccessTokenIn(s1, k) == Some("T1")
      && ExpiredIn(s2, k)
      && o.calls == [RefreshRequest(cfg, "R1")]
      && o.result == Ok("T2")
      && RefreshTokenIn(Replay(s2, o.writes), k) == Some("R1")
  {
    var endpoint := (r: TokenRequest) => if r == CodeRequest(cfg, "abc") then Granted(t1) else Granted(t2);
    var k := Key(IntId(42));
    ReplayOne(s0, StoreCall(k, t1));
    var s1 := Stored(s0, k, t1);
    StoreThenRead(s0, k, t1);
    StoredPreservesGood(s0, k, t1);
    ExpiresAfterLifetime(s0, k, t1, 3601);
    var s2 := Advanced(s1, 3601);
    assert Good(s2);
    assert RefreshTokenIn(s2, k) == Some("R1") by {
      match s0
      case DbState(rows, now) =>
      case CacheState(entries, now) =>
        C.StoreThenRead(entries, k, t1, now, now + 3601);
    }
    assert RefreshRequest(cfg, "R1") != CodeRequest(cfg, "abc") by {
      assert RefreshRequest(cfg, "R1").form[0] != CodeRequest(cfg, "abc").form[0];
    }
    RefreshCarriesRefreshTokenForward(cfg, s2, k, "R1", endpoint, t2);
  }

  class SpotifyAuthorizationCode {
    const config: ClientConfig
    const tokens: TokenStore

    constructor (clientId: string, clientSecret: string, redirectUri: string, tokens: TokenStore)
      ensures config == ClientConfig(clientId, clientSecret, redirectUri) && this.tokens == tokens
    {
      config := ClientConfig(clientId, clientSecret, redirectUri);
      this.tokens := tokens;
    }

    /** Builds the redirect URL; it reads no state and writes nothing. */
    function GetAuthorizationUrl(scopes: seq<string>, state: Option<string>, encode: string -> string): (url: string)
      ensures url == AuthorizeUrl + "?" + HttpBuildQuery(AuthorizationParams(config, scopes, state), encode)
    {
      AuthorizationUrl(config, scopes, state, encode)
    }

    method ExchangeCodeForTokens(u: UserId, code: string, endpoint: TokenEndpoint)
      returns (r: Result<TokenResponse>, calls: seq<TokenRequest>)
      requires tokens.Valid()
      modifies tokens.Repr
      ensures tokens.Valid()
      ensures var o := Exchange(config, Key(u), code, endpoint);
        && r == o.result && calls == o.calls
        && tokens.writes == old(tokens.writes) + o.writes
        && tokens.State() == Replay(old(tokens.State()), o.writes)
    {
      var request := CodeRequest(config, code);
      calls := [request];
      var reply := endpoint(request);
      match reply
      case Rejected(status, body) =>
        r := Err(RequestFailure(status, body));
      case Granted(t) =>
        tokens.Store(u, t);
        r := Ok(t);
    }

    method RefreshAccessToken(u: UserId, endpoint: TokenEndpoint)
      returns (r: Result<TokenResponse>, calls: seq<TokenRequest>)
      requires tokens.Valid()
      modifies tokens.Repr
      ensures tokens.Valid()
      ensures var o := Refresh(config, old(tokens.State()), Key(u), endpoint);
        && r == o.result && calls == o.calls
        && tokens.writes == old(tokens.writes) + o.writes
        && tokens.State() == Replay(old(tokens.State()), o.writes)
    {
      var refreshToken := tokens.GetRefreshToken(u);
      if refreshToken.None? {
        return Err(MissingRefreshToken), [];
      }
      var request := RefreshRequest(config, refreshToken.value);
      calls := [request];
      var reply := endpoint(request);
      match reply
      case Rejected(status, body) =>
        r := Err(RequestFailure(status, body));
      case Granted(t) =>
        var merged := t;
        if Empty(t.refreshToken) {
          merged := merged.(refreshToken := refreshToken);
        }
        tokens.Store(u, merged);
        r := Ok(merged);
    }

    method GetAccessTokenForUser(u: UserId, endpoint: TokenEndpoint)
      returns (r: Result<string>, calls: seq<TokenRequest>)
      requires tokens.Valid()
      modifies tokens.Repr
      ensures tokens.Valid()
      ensures var o := AccessTokenForUser(config, old(tokens.State()), Key(u), endpoint);
        && r == o.result && calls == o.calls
        && tokens.writes == old(tokens.writes) + o.writes
        && tokens.State() == Replay(old(tokens.State()), o.writes)
    {
      var expired := tokens.IsAccessTokenExpired(u);
      if !expired {
        var accessToken := tokens.GetAccessToken(u);
        r := if accessToken.Some? then Ok(accessToken.value) else Err(ReturnTypeError);
        return r, [];
      }
      var refreshToken := tokens.GetRefreshToken(u);
      if refreshToken.None? {
        return Err(MissingRefreshToken), [];
      }
      var refreshed;
      refreshed, calls := RefreshAccessToken(u, endpoint);
      r := if refreshed.Ok? then Ok(refreshed.value.accessToken) else Err(refreshed.failure);
    }

    method ForgetTokens(u: UserId)
      requires tokens.Valid()
      modifies tokens.Repr
      ensures tokens.Valid()
      ensures tokens.writes == old(tokens.writes) + [ForgetCall(Key(u))]
      ensures tokens.State() == Forgotten(old(tokens.State()), Key(u))
    {
      tokens.Forget(u);
    }
  }
}
