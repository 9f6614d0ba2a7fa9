/** When the OAuth2 handlers succeed and what they leave stored, from the request, the surroundings and the entries alone. */
module OAuthLaws {
  import opened Collections
  import opened OAuthStore
  import opened Wrappers

  // ---- Cleanup

  /** What a cleanup keeps, entry by entry. */
  lemma CleanupLaw(s: Store, time: nat, key: string)
    ensures Lookup(Cleaned(s, time).codes, key) ==
            if key in s.codes && s.codes[key].expiresAt > time then Some(s.codes[key]) else None
    ensures Lookup(Cleaned(s, time).access, key) ==
            if key in s.access && (s.access[key].expiresAt > time || s.access[key].refreshExpiresAt > time)
            then Some(s.access[key]) else None
    ensures key in Cleaned(s, time).refresh ==>
              key in s.refresh && Cleaned(s, time).refresh[key] == s.refresh[key] && s.refresh[key] in Cleaned(s, time).access
    ensures key in s.refresh && s.refresh[key] in Cleaned(s, time).access
            && (forall a :: a in s.access && a !in Cleaned(s, time).access ==> s.access[a].refreshToken != key) ==>
              key in Cleaned(s, time).refresh
  {}

  // ---- Clients

  /** The client is registered and proves itself: by its secret, or by having none where that is allowed. */
  ghost predicate Proves(env: Env, clientId: string, secret: Option<string>) {
    && clientId in env.clients
    && (env.clients[clientId].secret.Some? ==> secret == env.clients[clientId].secret)
    && (env.clients[clientId].secret.None? ==> env.settings.allowPublicClients)
  }

  // ---- Authorization

  /** Every scope is one the client and the provider both allow, and there is one. */
  ghost predicate MayAsk(requested: seq<string>, allowed: seq<string>, supported: seq<string>) {
    requested != [] && forall scope :: scope in requested ==> scope in allowed && scope in supported
  }

  /** The answer to a login, in the order of the checks. */
  lemma AuthorizeAnswer(query: LoginQuery, requested: seq<string>, env: Env)
    ensures AuthorizeRefusal(query, requested, env) ==
            if (query.responseType.Some? && query.responseType != Some("code")) || !query.validUri then Some(InvalidOperation)
            else if query.clientId !in env.clients then Some(InvalidCredentials)
            else
              var client := env.clients[query.clientId];
              if client.redirectUris.None? || query.redirectUri !in client.redirectUris.value then Some(InvalidOperation)
              else if env.settings.supported == [] || client.scopes.None? || client.scopes == Some([]) then Some(FeatureDisabled)
              else if !MayAsk(requested, client.scopes.value, env.settings.supported) then Some(InvalidOperation)
              else None
  {
    if query.clientId in env.clients && env.clients[query.clientId].scopes.Some? {
      var allowed, supported := env.clients[query.clientId].scopes.value, env.settings.supported;
      assert forall scope :: scope in requested <==> scope in Elements(requested);
      assert MayAsk(requested, allowed, supported) <==> ScopesValid(requested, Elements(allowed), Elements(supported));
    }
  }

  /** An accepted login stores one code, for ten minutes; a refused one stores nothing. */
  lemma AuthorizedLaw(s: Store, session: Session, query: LoginQuery, requested: seq<string>, env: Env)
    ensures var (s', r) := Authorized(s, session, query, requested, env);
            var cleaned := Cleaned(s, env.cleanupTime);
            match AuthorizeRefusal(query, requested, env)
            case Some(e) => r == Failure(e) && s' == cleaned
            case None =>
              && r == Success(env.freshCode)
              && s'.access == cleaned.access && s'.refresh == cleaned.refresh
              && s'.codes.Keys == cleaned.codes.Keys + {env.freshCode}
              && (forall code :: code in cleaned.codes && code != env.freshCode ==> s'.codes[code] == cleaned.codes[code])
              && var entry := s'.codes[env.freshCode];
              && entry.clientId == query.clientId && entry.userId == session.userId && entry.session == session
              && entry.redirectUri == query.redirectUri && entry.scopes == requested && entry.expiresAt == env.now + 10 * 60
  {}

  // ---- Tokens

  /** A code that was stored, has not expired, belongs to the client and was issued for the redirect address, if one is given. */
  ghost predicate CodeIsGood(s: Store, code: string, req: TokenRequest, env: Env) {
    && code in s.codes
    && s.codes[code].expiresAt > env.cleanupTime && s.codes[code].expiresAt > env.now
    && (req.clientId.Some? ==> req.clientId.value == s.codes[code].clientId)
    && (req.redirectUri.Some? ==> req.redirectUri.value == s.codes[code].redirectUri)
    && Proves(env, s.codes[code].clientId, req.clientSecret)
  }

  /** A refresh token that leads to an access entry which has not expired, names it and belongs to the client. */
  ghost predicate TokenIsGood(s: Store, token: string, req: TokenRequest, env: Env) {
    var cleaned := Cleaned(s, env.cleanupTime);
    && token in cleaned.refresh && cleaned.refresh[token] in cleaned.access
    && var entry := cleaned.access[cleaned.refresh[token]];
    && entry.refreshToken == token && entry.refreshExpiresAt > env.now
    && req.clientId == Some(entry.clientId)
    && Proves(env, entry.clientId, req.clientSecret)
  }

  /** A code is exchanged exactly if it is good. */
  lemma CodeSucceedsIff(s: Store, code: Option<string>, req: TokenRequest, env: Env)
    requires req.grant == AuthorizationCode(code)
    ensures Tokened(s, req, env).1.Success? <==> code.Some? && CodeIsGood(s, code.value, req, env)
    ensures Tokened(s, req, env).1.Failure? ==>
              Tokened(s, req, env).1.error == if code.None? then InvalidOperation else InvalidCredentials
  {
    if code.Some? {
      CleanupLaw(s, env.cleanupTime, code.value);
    }
  }

  /** A refresh token is redeemed exactly if it is good. */
  lemma RefreshSucceedsIff(s: Store, token: Option<string>, req: TokenRequest, env: Env)
    requires req.grant == RefreshToken(token)
    ensures Tokened(s, req, env).1.Success? <==> token.Some? && TokenIsGood(s, token.value, req, env)
    ensures Tokened(s, req, env).1.Failure? ==>
              Tokened(s, req, env).1.error == if token.None? || req.clientId.None? then InvalidOperation else InvalidCredentials
  {}

  lemma UnknownGrantFails(s: Store, req: TokenRequest, env: Env)
    requires req.grant.UnknownGrant?
    ensures Tokened(s, req, env) == (Cleaned(s, env.cleanupTime), Failure(InvalidOperation))
  {}

  /** A new pair is stored, and the response describes it. */
  ghost predicate StoresPair(s: Store, s': Store, response: TokenResponse, env: Env, clientId: string, userId: string,
                             scopes: seq<string>, access: string)
  {
    && response.accessToken == access && response.refreshToken == env.freshRefresh && response.scopes == scopes
    && response.expiresIn == env.settings.accessLifetime
    && s'.access.Keys == s.access.Keys + {access}
    && (forall a :: a in s.access && a != access ==> s'.access[a] == s.access[a])
    && var entry := s'.access[access];
    && entry.clientId == clientId && entry.userId == userId && entry.scopes == scopes
    && entry.refreshToken == env.freshRefresh
    && entry.expiresAt == env.now + env.settings.accessLifetime
    && entry.refreshExpiresAt == env.now + env.settings.refreshLifetime
    && s'.refresh.Keys == s.refresh.Keys + {env.freshRefresh} && s'.refresh[env.freshRefresh] == access
    && (forall t :: t in s.refresh && t != env.freshRefresh ==> s'.refresh[t] == s.refresh[t])
  }

  /** An exchanged code is gone and its session's token becomes the access token; a refused code is gone too. */
  lemma CodeLaw(s: Store, code: string, req: TokenRequest, env: Env)
    requires req.grant == AuthorizationCode(Some(code))
    ensures var (s', r) := Tokened(s, req, env);
            var cleaned := Cleaned(s, env.cleanupTime);
            && s'.codes == cleaned.codes - {code}
            && (r.Failure? ==> s'.access == cleaned.access && s'.refresh == cleaned.refresh)
            && (r.Success? ==>
                  && code in cleaned.codes
                  && var entry := cleaned.codes[code];
                  && StoresPair(cleaned, s', r.value, env, entry.clientId, entry.userId, entry.scopes, entry.session.token)
                  && r.value.session == Some(entry.session))
  {
    CleanupLaw(s, env.cleanupTime, code);
  }

  /** Redeeming replaces the old pair by a new one for the same client, user and scopes. */
  lemma RefreshLaw(s: Store, token: string, req: TokenRequest, env: Env)
    requires req.grant == RefreshToken(Some(token)) && Tokened(s, req, env).1.Success?
    ensures var (s', r) := Tokened(s, req, env);
            var cleaned := Cleaned(s, env.cleanupTime);
            && token in cleaned.refresh && cleaned.refresh[token] in cleaned.access
            && var previous := cleaned.refresh[token];
               var entry := cleaned.access[previous];
               var without := Store(cleaned.codes, cleaned.access - {previous}, cleaned.refresh - {token});
            && s'.codes == cleaned.codes
            && StoresPair(without, s', r.value, env, entry.clientId, entry.userId, entry.scopes, env.freshAccess)
            && r.value.session == None
  {}

  /** What a refused redemption costs: the access entry, and a token that had expired or did not match. */
  lemma RefusedRefreshLaw(s: Store, token: string, req: TokenRequest, env: Env)
    requires req.grant == RefreshToken(Some(token)) && Tokened(s, req, env).1.Failure?
    ensures var s' := Tokened(s, req, env).0;
            var cleaned := Cleaned(s, env.cleanupTime);
            && s'.codes == cleaned.codes
            && (req.clientId.None? || token !in cleaned.refresh || cleaned.refresh[token] !in cleaned.access ==> s' == cleaned)
            && (req.clientId.Some? && token in cleaned.refresh && cleaned.refresh[token] in cleaned.access ==>
                  var entry := cleaned.access[cleaned.refresh[token]];
                  && s'.access == cleaned.access - {cleaned.refresh[token]}
                  && s'.refresh == if entry.refreshToken != token || entry.refreshExpiresAt <= env.now
                                   then cleaned.refresh - {token} else cleaned.refresh)
  {}

  // ---- Revocation

  /** The access entry that a presented token stands for: its own, or that of the refresh token. */
  ghost function Meant(s: Store, token: string): Option<string> {
    if token in s.access then Some(token)
    else if token in s.refresh && s.refresh[token] in s.access then Some(s.refresh[token])
    else None
  }

  /**
    A revocation is refused to strangers and for another client's token, which
    is dropped all the same; otherwise the access entry and, if it is the
    client's, its refresh token are gone.
   */
  lemma RevokeLaw(s: Store, req: RevokeRequest, env: Env)
    ensures var (s', r) := Revoked(s, req, env);
            var cleaned := Cleaned(s, env.cleanupTime);
            var meant := Meant(cleaned, req.token);
            && s'.codes == cleaned.codes
            && (!Proves(env, req.clientId, req.clientSecret) ==> r == Failure(InvalidCredentials) && s' == cleaned)
            && (Proves(env, req.clientId, req.clientSecret) ==>
                  && (r.Failure? <==> meant.Some? && cleaned.access[meant.value].clientId != req.clientId)
                  && (r.Failure? ==> r.error == InvalidCredentials)
                  && req.token !in s'.access
                  && (forall a :: a in s'.access <==> a in cleaned.access && Some(a) != meant)
                  && (forall a :: a in s'.access ==> s'.access[a] == cleaned.access[a])
                  && (forall t :: t in s'.refresh ==> t in cleaned.refresh && s'.refresh[t] == cleaned.refresh[t])
                  && (forall t :: t in cleaned.refresh && t !in s'.refresh ==>
                        t == req.token || (req.token in cleaned.access && t == cleaned.access[req.token].refreshToken))
                  && (req.token in cleaned.access && r.Success? ==> cleaned.access[req.token].refreshToken !in s'.refresh)
                  && (req.token in cleaned.access && r.Failure? ==> s'.refresh == cleaned.refresh)
                  && (req.token !in cleaned.access ==> req.token !in s'.refresh))
  {}
}
