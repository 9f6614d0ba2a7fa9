/** The OAuth2 provider's token store and its request handlers. */
module OAuthStore {
  import opened Collections
  import opened Wrappers

  const AUTH_CODE_TTL_SECONDS: nat := 600

  datatype Session = Session(token: string, userId: string)

  datatype CodeEntry = CodeEntry(
    clientId: string, userId: string, session: Session, redirectUri: string, scopes: seq<string>, expiresAt: nat)

  datatype AccessEntry = AccessEntry(
    clientId: string, userId: string, scopes: seq<string>, expiresAt: nat, refreshToken: string, refreshExpiresAt: nat)

  datatype Client = Client(secret: Option<string>, redirectUris: Option<seq<string>>, scopes: Option<seq<string>>)

  datatype Settings = Settings(accessLifetime: nat, refreshLifetime: nat, allowPublicClients: bool, supported: seq<string>)

  /** What a handler reads from its surroundings: two clock readings, generated tokens, configuration and clients. */
  datatype Env = Env(
    cleanupTime: nat, now: nat, freshCode: string, freshAccess: string, freshRefresh: string,
    settings: Settings, clients: map<string, Client>)

  datatype LoginQuery = LoginQuery(
    clientId: string, redirectUri: string, responseType: Option<string>, scopes: seq<string>, validUri: bool)

  datatype Grant =
    | AuthorizationCode(code: Option<string>)
    | RefreshToken(token: Option<string>)
    | UnknownGrant

  datatype TokenRequest = TokenRequest(
    grant: Grant, redirectUri: Option<string>, clientId: Option<string>, clientSecret: Option<string>)

  datatype TokenResponse = TokenResponse(
    accessToken: string, expiresIn: nat, refreshToken: string, scopes: seq<string>, session: Option<Session>)

  datatype RevokeRequest = RevokeRequest(token: string, clientId: string, clientSecret: Option<string>)

  datatype Store = Store(codes: map<string, CodeEntry>, access: map<string, AccessEntry>, refresh: map<string, string>)

  // ---- Pure checks

  predicate ValidSecret(client: Client, provided: Option<string>, allowPublic: bool) {
    match client.secret
    case Some(secret) => provided == Some(secret)
    case None => allowPublic
  }

  /** The client of a request, if it exists and the request authenticates it. */
  predicate Authenticated(env: Env, clientId: string, secret: Option<string>) {
    clientId in env.clients && ValidSecret(env.clients[clientId], secret, env.settings.allowPublicClients)
  }

  predicate ScopesValid(requested: seq<string>, allowed: set<string>, supported: set<string>) {
    requested != [] && Elements(requested) <= allowed && Elements(requested) <= supported
  }

  method ValidateScopes(requested: seq<string>, allowed: set<string>, supported: set<string>) returns (r: Result<seq<string>>)
    ensures r == if ScopesValid(requested, allowed, supported) then Success(requested) else Failure(InvalidOperation)
  {
    if requested == [] {
      return Failure(InvalidOperation);
    }
    var validated: seq<string> := [];
    for i := 0 to |requested|
      invariant validated == requested[..i]
      invariant Elements(requested[..i]) <= allowed && Elements(requested[..i]) <= supported
    {
      assert requested[i] in Elements(requested);
      if requested[i] !in supported || requested[i] !in allowed {
        return Failure(InvalidOperation);
      }
      assert requested[..i + 1] == requested[..i] + [requested[i]];
      validated := validated + [requested[i]];
    }
    assert requested[..|requested|] == requested;
    return Success(validated);
  }

  // ---- The handlers as functions of the store

  ghost function Spent(s: Store, time: nat): set<string> {
    set a | a in s.access && s.access[a].expiresAt <= time && s.access[a].refreshExpiresAt <= time
  }

  ghost function Cleaned(s: Store, time: nat): Store {
    var spent := Spent(s, time);
    var access := s.access - spent;
    var refresh := s.refresh - (set a | a in spent :: s.access[a].refreshToken);
    Store(s.codes - (set c | c in s.codes && s.codes[c].expiresAt <= time),
          access,
          refresh - (set r | r in refresh && refresh[r] !in access))
  }

  function Issued(s: Store, clientId: string, userId: string, scopes: seq<string>, session: Option<Session>, env: Env)
    : (Store, TokenResponse)
  {
    var access := match session case Some(v) => v.token case None => env.freshAccess;
    var entry := AccessEntry(clientId, userId, scopes, env.now + env.settings.accessLifetime, env.freshRefresh,
                             env.now + env.settings.refreshLifetime);
    (s.(access := s.access[access := entry], refresh := s.refresh[env.freshRefresh := access]),
     TokenResponse(access, env.settings.accessLifetime, env.freshRefresh, scopes, session))
  }

  function ClientScopes(client: Client): seq<string> {
    match client.scopes case Some(v) => v case None => []
  }

  function AuthorizeRefusal(query: LoginQuery, requested: seq<string>, env: Env): Option<Error> {
    if query.responseType.Some? && query.responseType.value != "code" then Some(InvalidOperation)
    else if !query.validUri then Some(InvalidOperation)
    else if query.clientId !in env.clients then Some(InvalidCredentials)
    else
      var client := env.clients[query.clientId];
      if client.redirectUris.None? || query.redirectUri !in client.redirectUris.value then Some(InvalidOperation)
      else if env.settings.supported == [] || ClientScopes(client) == [] then Some(FeatureDisabled)
      else if !ScopesValid(requested, Elements(ClientScopes(client)), Elements(env.settings.supported)) then Some(InvalidOperation)
      else None
  }

  ghost function Authorized(s: Store, session: Session, query: LoginQuery, requested: seq<string>, env: Env)
    : (Store, Result<string>)
  {
    var s1 := Cleaned(s, env.cleanupTime);
    match AuthorizeRefusal(query, requested, env)
    case Some(e) => (s1, Failure(e))
    case None =>
      var entry := CodeEntry(query.clientId, session.userId, session, query.redirectUri, requested,
                             env.now + AUTH_CODE_TTL_SECONDS);
      (s1.(codes := s1.codes[env.freshCode := entry]), Success(env.freshCode))
  }

  /** The code is consumed before it is checked. */
  ghost function CodeExchanged(s: Store, code: Option<string>, req: TokenRequest, env: Env): (Store, Result<TokenResponse>) {
    if code.None? then (s, Failure(InvalidOperation))
    else if code.value !in s.codes then (s, Failure(InvalidCredentials))
    else
      var entry := s.codes[code.value];
      var s1 := s.(codes := s.codes - {code.value});
      var clientId := match req.clientId case Some(id) => id case None => entry.clientId;
      if || entry.expiresAt <= env.now
         || clientId != entry.clientId
         || (req.redirectUri.Some? && req.redirectUri.value != entry.redirectUri)
         || !Authenticated(env, clientId, req.clientSecret)
      then (s1, Failure(InvalidCredentials))
      else
        var (s2, response) := Issued(s1, clientId, entry.userId, entry.scopes, Some(entry.session), env);
        (s2, Success(response))
  }

  /** The access entry is consumed before the refresh token is checked against it. */
  ghost function Refreshed(s: Store, token: Option<string>, req: TokenRequest, env: Env): (Store, Result<TokenResponse>) {
    if token.None? || req.clientId.None? then (s, Failure(InvalidOperation))
    else if token.value !in s.refresh || s.refresh[token.value] !in s.access then (s, Failure(InvalidCredentials))
    else
      var entry := s.access[s.refresh[token.value]];
      var s1 := s.(access := s.access - {s.refresh[token.value]});
      var s2 := s1.(refresh := s1.refresh - {token.value});
      if entry.refreshToken != token.value || entry.refreshExpiresAt <= env.now then (s2, Failure(InvalidCredentials))
      else if entry.clientId != req.clientId.value || !Authenticated(env, req.clientId.value, req.clientSecret)
      then (s1, Failure(InvalidCredentials))
      else
        var (s3, response) := Issued(s2, req.clientId.value, entry.userId, entry.scopes, None, env);
        (s3, Success(response))
  }

  ghost function Tokened(s: Store, req: TokenRequest, env: Env): (Store, Result<TokenResponse>) {
    var s1 := Cleaned(s, env.cleanupTime);
    match req.grant
    case AuthorizationCode(code) => CodeExchanged(s1, code, req, env)
    case RefreshToken(token) => Refreshed(s1, token, req, env)
    case UnknownGrant => (s1, Failure(InvalidOperation))
  }

  ghost function Revoked(s: Store, req: RevokeRequest, env: Env): (Store, Result<()>) {
    var s1 := Cleaned(s, env.cleanupTime);
    if !Authenticated(env, req.clientId, req.clientSecret) then (s1, Failure(InvalidCredentials))
    else if req.token in s1.access then
      var entry := s1.access[req.token];
      var s2 := s1.(access := s1.access - {req.token});
      if entry.clientId != req.clientId then (s2, Failure(InvalidCredentials))
      else (s2.(refresh := s2.refresh - {entry.refreshToken}), Success(()))
    else if req.token in s1.refresh then
      var access := s1.refresh[req.token];
      var s2 := s1.(refresh := s1.refresh - {req.token}, access := s1.access - {access});
      if access in s1.access && s1.access[access].clientId != req.clientId then (s2, Failure(InvalidCredentials))
      else (s2, Success(()))
    else (s1, Success(()))
  }

  // ---- The store object

  class TokenStore {
    var codes: map<string, CodeEntry>
    var access: map<string, AccessEntry>
    var refresh: map<string, string>

    function Contents(): Store
      reads this
    {
      Store(codes, access, refresh)
    }

    constructor ()
      ensures Contents() == Store(map[], map[], map[])
    {
      codes, access, refresh := map[], map[], map[];
    }

    method Cleanup(time: nat)
      modifies this
      ensures Contents() == Cleaned(old(Contents()), time)
    {
      codes := codes - (set c | c in codes && codes[c].expiresAt <= time);
      var spent := set a | a in access && !(access[a].expiresAt > time || access[a].refreshExpiresAt > time);
      assert spent == Spent(old(Contents()), time);
      refresh := refresh - (set a | a in spent :: access[a].refreshToken);
      access := access - spent;
      refresh := refresh - (set r | r in refresh && refresh[r] !in access);
    }

    method IssueTokens(clientId: string, userId: string, scopes: seq<string>, session: Option<Session>, env: Env)
      returns (response: TokenResponse)
      modifies this
      ensures (Contents(), response) == Issued(old(Contents()), clientId, userId, scopes, session, env)
    {
      var accessToken := match session case Some(v) => v.token case None => env.freshAccess;
      var refreshToken := env.freshRefresh;
      access := access[accessToken := AccessEntry(clientId, userId, scopes, env.now + env.settings.accessLifetime,
                                                  refreshToken, env.now + env.settings.refreshLifetime)];
      refresh := refresh[refreshToken := accessToken];
      response := TokenResponse(accessToken, env.settings.accessLifetime, refreshToken, scopes, session);
    }

    /** `clientOrder` is the iteration order of the client's scopes, used when the login names none. */
    method IssueAuthorizationCode(session: Session, query: LoginQuery, clientOrder: seq<string>, env: Env)
      returns (r: Result<string>)
      requires query.clientId in env.clients ==>
                 Elements(clientOrder) == Elements(ClientScopes(env.clients[query.clientId]))
      modifies this
      ensures var requested := if query.scopes == [] then clientOrder else query.scopes;
              (Contents(), r) == Authorized(old(Contents()), session, query, requested, env)
    {
      Cleanup(env.cleanupTime);
      if query.responseType.Some? && query.responseType.value != "code" {
        return Failure(InvalidOperation);
      }
      if !query.validUri {
        return Failure(InvalidOperation);
      }
      if query.clientId !in env.clients {
        return Failure(InvalidCredentials);
      }
      var client := env.clients[query.clientId];
      if client.redirectUris.None? || query.redirectUri !in client.redirectUris.value {
        return Failure(InvalidOperation);
      }
      var supported, allowed := Elements(env.settings.supported), Elements(ClientScopes(client));
      if env.settings.supported == [] || ClientScopes(client) == [] {
        return Failure(FeatureDisabled);
      }
      var requested := if query.scopes == [] then clientOrder else query.scopes;
      var scopes := ValidateScopes(requested, allowed, supported);
      if scopes.Failure? {
        return Failure(scopes.error);
      }
      codes := codes[env.freshCode := CodeEntry(query.clientId, session.userId, session, query.redirectUri, scopes.value,
                                                env.now + AUTH_CODE_TTL_SECONDS)];
      return Success(env.freshCode);
    }

    method ExchangeCode(code: Option<string>, req: TokenRequest, env: Env) returns (r: Result<TokenResponse>)
      modifies this
      ensures (Contents(), r) == CodeExchanged(old(Contents()), code, req, env)
    {
      if code.None? {
        return Failure(InvalidOperation);
      }
      if code.value !in codes {
        return Failure(InvalidCredentials);
      }
      var entry := codes[code.value];
      codes := codes - {code.value};
      if entry.expiresAt <= env.now {
        return Failure(InvalidCredentials);
      }
      var clientId := match req.clientId case Some(id) => id case None => entry.clientId;
      if clientId != entry.clientId {
        return Failure(InvalidCredentials);
      }
      if req.redirectUri.Some? && req.redirectUri.value != entry.redirectUri {
        return Failure(InvalidCredentials);
      }
      if !Authenticated(env, clientId, req.clientSecret) {
        return Failure(InvalidCredentials);
      }
      var response := IssueTokens(clientId, entry.userId, entry.scopes, Some(entry.session), env);
      return Success(response);
    }

    method Refresh(token: Option<string>, req: TokenRequest, env: Env) returns (r: Result<TokenResponse>)
      modifies this
      ensures (Contents(), r) == Refreshed(old(Contents()), token, req, env)
    {
      if token.None? || req.clientId.None? {
        return Failure(InvalidOperation);
      }
      if token.value !in refresh {
        return Failure(InvalidCredentials);
      }
      var accessToken := refresh[token.value];
      if accessToken !in access {
        return Failure(InvalidCredentials);
      }
      var entry := access[accessToken];
      access := access - {accessToken};
      if entry.refreshToken != token.value || entry.refreshExpiresAt <= env.now {
        refresh := refresh - {token.value};
        return Failure(InvalidCredentials);
      }
      if entry.clientId != req.clientId.value {
        return Failure(InvalidCredentials);
      }
      if !Authenticated(env, req.clientId.value, req.clientSecret) {
        return Failure(InvalidCredentials);
      }
      refresh := refresh - {token.value};
      var response := IssueTokens(req.clientId.value, entry.userId, entry.scopes, None, env);
      return Success(response);
    }

    method Token(req: TokenRequest, env: Env) returns (r: Result<TokenResponse>)
      modifies this
      ensures (Contents(), r) == Tokened(old(Contents()), req, env)
    {
      Cleanup(env.cleanupTime);
      match req.grant {
        case AuthorizationCode(code) => r := ExchangeCode(code, req, env);
        case RefreshToken(token) => r := Refresh(token, req, env);
        case UnknownGrant => r := Failure(InvalidOperation);
      }
    }

    method Revoke(req: RevokeRequest, env: Env) returns (r: Result<()>)
      modifies this
      ensures (Contents(), r) == Revoked(old(Contents()), req, env)
    {
      Cleanup(env.cleanupTime);
      if !Authenticated(env, req.clientId, req.clientSecret) {
        return Failure(InvalidCredentials);
      }
      if req.token in access {
        var entry := access[req.token];
        access := access - {req.token};
        if entry.clientId != req.clientId {
          return Failure(InvalidCredentials);
        }
        refresh := refresh - {entry.refreshToken};
        return Success(());
      }
      if req.token in refresh {
        var accessToken := refresh[req.token];
        refresh := refresh - {req.token};
        if accessToken in access {
          var entry := access[accessToken];
          access := access - {accessToken};
          if entry.clientId != req.clientId {
            return Failure(InvalidCredentials);
          }
        }
      }
      return Success(());
    }

    /** Who an access token belongs to, while it has not expired. */
    method Me(token: string, env: Env) returns (r: Result<AccessEntry>)
      modifies this
      ensures Contents() == Cleaned(old(Contents()), env.cleanupTime)
      ensures r == if token in access && access[token].expiresAt > env.now then Success(access[token])
                   else Failure(InvalidCredentials)
    {
      Cleanup(env.cleanupTime);
      if token !in access {
        return Failure(InvalidCredentials);
      }
      if access[token].expiresAt <= env.now {
        return Failure(InvalidCredentials);
      }
      return Success(access[token]);
    }
  }

  // ---- What every reachable store satisfies

  datatype Request =
    | Authorize(session: Session, query: LoginQuery, requested: seq<string>)
    | Token(request: TokenRequest)
    | Revoke(revocation: RevokeRequest)
    | Me(token: string)

  ghost function Handled(s: Store, req: Request, env: Env): Store {
    match req
    case Authorize(session, query, requested) => Authorized(s, session, query, requested, env).0
    case Token(request) => Tokened(s, request, env).0
    case Revoke(revocation) => Revoked(s, revocation, env).0
    case Me(_) => Cleaned(s, env.cleanupTime)
  }

  datatype Exchange = Exchange(request: Request, env: Env)

  ghost function Served(exchanges: seq<Exchange>): Store {
    if exchanges == [] then Store(map[], map[], map[])
    else
      var last := exchanges[|exchanges| - 1];
      Handled(Served(exchanges[..|exchanges| - 1]), last.request, last.env)
  }

  /** Generated refresh tokens never repeat one that is stored. */
  ghost predicate FreshTokens(exchanges: seq<Exchange>) {
    forall i :: 0 <= i < |exchanges| ==> exchanges[i].env.freshRefresh !in Served(exchanges[..i]).refresh
  }

  /** Every access token's refresh token leads back to it. */
  ghost predicate Paired(s: Store) {
    forall a :: a in s.access ==>
      s.access[a].refreshToken in s.refresh && s.refresh[s.access[a].refreshToken] == a
  }

  lemma CleanedKeepsPaired(s: Store, time: nat)
    requires Paired(s)
    ensures Paired(Cleaned(s, time))
    ensures Cleaned(s, time).refresh.Keys <= s.refresh.Keys
    ensures forall r :: r in Cleaned(s, time).refresh ==> Cleaned(s, time).refresh[r] in Cleaned(s, time).access
  {
    var spent, s' := Spent(s, time), Cleaned(s, time);
    forall a | a in s'.access
      ensures s'.access[a].refreshToken in s'.refresh && s'.refresh[s'.access[a].refreshToken] == a
    {
      var r := s.access[a].refreshToken;
      assert s.refresh[r] == a;
      assert r !in (set b | b in spent :: s.access[b].refreshToken);
    }
  }

  lemma CodeExchangeKeepsPaired(s: Store, code: Option<string>, req: TokenRequest, env: Env)
    requires Paired(s) && env.freshRefresh !in s.refresh
    ensures Paired(CodeExchanged(s, code, req, env).0)
  {}

  lemma RefreshKeepsPaired(s: Store, token: Option<string>, req: TokenRequest, env: Env)
    requires Paired(s) && env.freshRefresh !in s.refresh
    ensures Paired(Refreshed(s, token, req, env).0)
  {}

  lemma TokenKeepsPaired(s: Store, req: TokenRequest, env: Env)
    requires Paired(s) && env.freshRefresh !in s.refresh
    ensures Paired(Tokened(s, req, env).0)
  {
    var s1 := Cleaned(s, env.cleanupTime);
    CleanedKeepsPaired(s, env.cleanupTime);
    match req.grant
    case AuthorizationCode(code) => CodeExchangeKeepsPaired(s1, code, req, env);
    case RefreshToken(token) => RefreshKeepsPaired(s1, token, req, env);
    case UnknownGrant =>
  }

  lemma RevokeKeepsPaired(s: Store, req: RevokeRequest, env: Env)
    requires Paired(s)
    ensures Paired(Revoked(s, req, env).0)
  {
    CleanedKeepsPaired(s, env.cleanupTime);
  }

  /** In every reachable store access tokens and refresh tokens are paired, so no two share a refresh token. */
  lemma {:induction false} AlwaysPaired(exchanges: seq<Exchange>)
    requires FreshTokens(exchanges)
    ensures Paired(Served(exchanges))
    ensures var s := Served(exchanges);
            forall a, b :: a in s.access && b in s.access && s.access[a].refreshToken == s.access[b].refreshToken ==> a == b
  {
    if exchanges != [] {
      var n := |exchanges| - 1;
      var front, last := exchanges[..n], exchanges[n];
      forall i | 0 <= i < n
        ensures front[i].env.freshRefresh !in Served(front[..i]).refresh
      {
        assert front[..i] == exchanges[..i];
      }
      AlwaysPaired(front);
      match last.request
      case Authorize(_, _, _) => CleanedKeepsPaired(Served(front), last.env.cleanupTime);
      case Token(request) => TokenKeepsPaired(Served(front), request, last.env);
      case Revoke(revocation) => RevokeKeepsPaired(Served(front), revocation, last.env);
      case Me(_) => CleanedKeepsPaired(Served(front), last.env.cleanupTime);
    }
  }

  /** An access entry survives a cleanup exactly while it or its refresh token lives, and the refresh token with it. */
  lemma CleanupSparesLive(s: Store, a: string, time: nat)
    requires Paired(s) && a in s.access
    ensures var survives := s.access[a].expiresAt > time || s.access[a].refreshExpiresAt > time;
            && Lookup(Cleaned(s, time).access, a) == (if survives then Some(s.access[a]) else None)
            && Lookup(Cleaned(s, time).refresh, s.access[a].refreshToken) == (if survives then Some(a) else None)
  {
    CleanedKeepsPaired(s, time);
  }

  /** A successful response names a stored pair. */
  lemma SuccessStoresPair(s: Store, req: TokenRequest, env: Env)
    requires Tokened(s, req, env).1.Success?
    ensures var (s1, r) := Tokened(s, req, env);
            && r.value.accessToken in s1.access
            && var e := s1.access[r.value.accessToken];
               e.refreshToken == r.value.refreshToken && e.scopes == r.value.scopes &&
               e.refreshExpiresAt == env.now + env.settings.refreshLifetime
  {}

  /** In a paired store every refresh token that has not expired is redeemed for its entry's user and scopes. */
  lemma LiveTokenRefreshes(s: Store, a: string, req: TokenRequest, env: Env)
    requires Paired(s) && a in s.access
    requires req.grant == RefreshToken(Some(s.access[a].refreshToken)) && req.clientId == Some(s.access[a].clientId)
    requires Authenticated(env, s.access[a].clientId, req.clientSecret)
    requires env.cleanupTime <= env.now < s.access[a].refreshExpiresAt
    ensures var (s', r) := Tokened(s, req, env);
            && r.Success?
            && r.value.scopes == s.access[a].scopes
            && r.value.accessToken in s'.access
            && s'.access[r.value.accessToken].userId == s.access[a].userId
  {
    CleanupSparesLive(s, a, env.cleanupTime);
  }

  /**
    Round trip: the refresh token of a successful token response, presented by
    its authenticated client before it expires, is redeemed for the same scopes.
   */
  lemma IssuedTokenRefreshes(s: Store, req: TokenRequest, env: Env, req': TokenRequest, env': Env)
    requires Paired(s) && env.freshRefresh !in s.refresh
    requires Tokened(s, req, env).1.Success?
    requires var (s1, r) := Tokened(s, req, env);
             && req'.grant == RefreshToken(Some(r.value.refreshToken))
             && req'.clientId == Some(s1.access[r.value.accessToken].clientId)
             && Authenticated(env', req'.clientId.value, req'.clientSecret)
             && env'.cleanupTime <= env'.now < env.now + env.settings.refreshLifetime
    ensures var (s1, r) := Tokened(s, req, env);
            var (s2, r') := Tokened(s1, req', env');
            && r'.Success?
            && r'.value.scopes == r.value.scopes
            && s2.access[r'.value.accessToken].userId == s1.access[r.value.accessToken].userId
  {
    TokenKeepsPaired(s, req, env);
    SuccessStoresPair(s, req, env);
    var (s1, r) := Tokened(s, req, env);
    LiveTokenRefreshes(s1, r.value.accessToken, req', env');
  }
}
