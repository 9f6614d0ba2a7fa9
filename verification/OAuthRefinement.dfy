/** Each handler of the token store is one particular interleaving of its own map operations. */
module OAuthRefinement {
  import opened Collections
  import opened Wrappers
  import opened OAuthStore
  import opened OAuthInterleaving

  function RunFrom(w: World, steps: seq<Step>): Option<World>
    decreases |steps|
  {
    if steps == [] then Some(w)
    else if Enabled(w, steps[0]) then RunFrom(After(w, steps[0]), steps[1..])
    else None
  }

  lemma Prepend(w: World, step: Step, rest: seq<Step>)
    requires Enabled(w, step)
    ensures RunFrom(w, [step] + rest) == RunFrom(After(w, step), rest)
  {
    assert ([step] + rest)[1..] == rest;
  }

  /** A run continued is a run. */
  lemma {:induction false} RunContinues(before: seq<Step>, w: World, steps: seq<Step>)
    requires RunOf(before) == Some(w)
    ensures RunOf(before + steps) == RunFrom(w, steps)
    decreases |steps|
  {
    if steps == [] {
      assert before + steps == before;
    } else {
      assert before + steps == (before + [steps[0]]) + steps[1..];
      assert (before + [steps[0]])[..|before|] == before;
      if Enabled(w, steps[0]) {
        RunContinues(before + [steps[0]], After(w, steps[0]), steps[1..]);
      } else {
        NoRunAfterFailure(before + [steps[0]], steps[1..]);
      }
    }
  }

  lemma {:induction false} NoRunAfterFailure(before: seq<Step>, steps: seq<Step>)
    requires RunOf(before).None?
    ensures RunOf(before + steps).None?
  {
    if steps == [] {
      assert before + steps == before;
    } else {
      assert (before + steps)[..|before + steps| - 1] == before + steps[..|steps| - 1];
      NoRunAfterFailure(before, steps[..|steps| - 1]);
    }
  }

  /** The step that stores the access entry of a successful response. */
  function StoreStep(id: RequestId, access: string, env: Env): Step {
    StoreAccess(id, access, env.freshRefresh, env.now + env.settings.accessLifetime, env.now + env.settings.refreshLifetime)
  }

  /** From an accepted permit to the response: two map insertions. */
  lemma IssueSteps(w: World, id: RequestId, access: string, env: Env) returns (steps: seq<Step>)
    requires id in w.flights && w.flights[id].Issuing? && env.freshRefresh !in w.issues
    ensures RunFrom(w, steps).Some?
    ensures var w', f := RunFrom(w, steps).value, w.flights[id];
            && w'.store == w.store.(
                 access := w.store.access[access := AccessEntry(f.permit.clientId, f.permit.userId, f.permit.scopes,
                                                                env.now + env.settings.accessLifetime, env.freshRefresh,
                                                                env.now + env.settings.refreshLifetime)],
                 refresh := w.store.refresh[env.freshRefresh := access])
            && w'.flights == w.flights - {id}
            && w'.taken == w.taken && w'.redeemed == w.redeemed
  {
    var store := StoreStep(id, access, env);
    var w1 := After(w, store);
    var w2 := After(w1, StoreRefresh(id));
    Prepend(w1, StoreRefresh(id), []);
    Prepend(w, store, [StoreRefresh(id)]);
    assert [StoreRefresh(id)] + [] == [StoreRefresh(id)];
    steps := [store] + [StoreRefresh(id)];
    assert RunFrom(w2, []) == Some(w2);
    assert w2.flights == w.flights - {id};
  }

  lemma AbandonSteps(w: World, id: RequestId) returns (steps: seq<Step>)
    requires id in w.flights
    ensures RunFrom(w, steps) == Some(w.(flights := w.flights - {id}))
  {
    steps := [Abandon(id)] + [];
    Prepend(w, Abandon(id), []);
  }

  lemma AcceptedCodeSteps(w: World, id: RequestId, env: Env) returns (steps: seq<Step>)
    requires id in w.flights && w.flights[id].HasCode? && env.freshRefresh !in w.issues
    ensures RunFrom(w, steps).Some?
    ensures var w', e := RunFrom(w, steps).value, w.flights[id].codeEntry;
            && w'.store == Issued(w.store, e.clientId, e.userId, e.scopes, Some(e.session), env).0
            && w'.flights == w.flights - {id} && w'.taken == w.taken && w'.redeemed == w.redeemed
  {
    var w1 := After(w, AcceptCode(id));
    assert w1.flights - {id} == w.flights - {id};
    var rest := IssueSteps(w1, id, w.flights[id].codeEntry.session.token, env);
    Prepend(w, AcceptCode(id), rest);
    steps := [AcceptCode(id)] + rest;
  }

  lemma CodeSteps(w: World, id: RequestId, code: Option<string>, req: TokenRequest, env: Env) returns (steps: seq<Step>)
    requires id !in w.flights && env.freshRefresh !in w.issues
    ensures RunFrom(w, steps).Some?
    ensures var w', r := RunFrom(w, steps).value, CodeExchanged(w.store, code, req, env);
            && w'.store == r.0 && w'.flights == w.flights && w'.redeemed == w.redeemed
            && w'.taken == if code.Some? && code.value in w.store.codes then w.taken + [code.value] else w.taken
  {
    if code.None? || code.value !in w.store.codes {
      steps := [];
    } else {
      var take := TakeCode(id, code.value);
      var w1 := After(w, take);
      assert w1.flights - {id} == w.flights;
      if CodeExchanged(w.store, code, req, env).1.Success? {
        var rest := AcceptedCodeSteps(w1, id, env);
        Prepend(w, take, rest);
        steps := [take] + rest;
      } else {
        var rest := AbandonSteps(w1, id);
        Prepend(w, take, rest);
        steps := [take] + rest;
      }
    }
  }

  /** A refused refresh: the access entry is gone, and the token too if it did not match or had expired. */
  lemma RefusedRefreshSteps(w: World, id: RequestId, token: string, dropToken: bool) returns (steps: seq<Step>)
    requires id in w.flights
    ensures RunFrom(w, steps) == Some(w.(flights := w.flights - {id},
                                         store := if dropToken then w.store.(refresh := w.store.refresh - {token}) else w.store))
  {
    steps := AbandonSteps(w, id);
    if dropToken {
      var drop := Drop({}, {}, {token});
      var w1 := After(w, drop);
      assert w1.store == w.store.(refresh := w.store.refresh - {token});
      steps := AbandonSteps(w1, id);
      Prepend(w, drop, steps);
      steps := [drop] + steps;
    }
  }

  lemma RedeemSteps(w: World, id: RequestId, env: Env) returns (steps: seq<Step>)
    requires id in w.flights && w.flights[id].HasAccess? && w.flights[id].entry.refreshToken == w.flights[id].token
    requires env.freshRefresh !in w.issues
    ensures RunFrom(w, steps).Some?
    ensures var w', f := RunFrom(w, steps).value, w.flights[id];
            && w'.store == Issued(w.store.(refresh := w.store.refresh - {f.token}), f.entry.clientId, f.entry.userId,
                                  f.entry.scopes, None, env).0
            && w'.flights == w.flights - {id} && w'.taken == w.taken && w'.redeemed == w.redeemed + [f.token]
  {
    var w1 := After(w, Redeem(id));
    assert w1.flights - {id} == w.flights - {id};
    var rest := IssueSteps(w1, id, env.freshAccess, env);
    Prepend(w, Redeem(id), rest);
    steps := [Redeem(id)] + rest;
  }

  lemma RefreshSteps(w: World, id: RequestId, token: Option<string>, req: TokenRequest, env: Env) returns (steps: seq<Step>)
    requires id !in w.flights && env.freshRefresh !in w.issues
    ensures RunFrom(w, steps).Some?
    ensures var w', r := RunFrom(w, steps).value, Refreshed(w.store, token, req, env);
            && w'.store == r.0 && w'.flights == w.flights && w'.taken == w.taken
            && w'.redeemed == if r.1.Success? then w.redeemed + [token.value] else w.redeemed
  {
    var r := Refreshed(w.store, token, req, env);
    if token.None? || req.clientId.None? || token.value !in w.store.refresh || w.store.refresh[token.value] !in w.store.access {
      steps := [];
    } else {
      var w1 := After(w, LookUp(id, token.value));
      var w2 := After(w1, TakeAccess(id));
      assert w2.flights - {id} == w.flights;
      if r.1.Success? {
        steps := RedeemSteps(w2, id, env);
      } else {
        var entry := w.store.access[w.store.refresh[token.value]];
        steps := RefusedRefreshSteps(w2, id, token.value,
                                     entry.refreshToken != token.value || entry.refreshExpiresAt <= env.now);
      }
      Prepend(w1, TakeAccess(id), steps);
      Prepend(w, LookUp(id, token.value), [TakeAccess(id)] + steps);
      steps := [LookUp(id, token.value)] + ([TakeAccess(id)] + steps);
    }
  }

  /** Cleanup only drops entries. */
  lemma CleanupStep(w: World, time: nat) returns (step: Step)
    ensures Enabled(w, step)
    ensures After(w, step) == w.(store := Cleaned(w.store, time))
  {
    var s := w.store;
    var spent := Spent(s, time);
    var access := s.access - spent;
    var gone := set a | a in spent :: s.access[a].refreshToken;
    var refresh := s.refresh - gone;
    var dangling := set r | r in refresh && refresh[r] !in access;
    step := Drop((set c | c in s.codes && s.codes[c].expiresAt <= time), spent, gone + dangling);
    assert s.refresh - (gone + dangling) == refresh - dangling;
  }

  /**
    A token request handled without interruption is a run of interleaved steps
    with the same effect; it takes the code it presents, and redeems its refresh
    token exactly when it succeeds.
   */
  lemma TokenRefinesSteps(w: World, id: RequestId, req: TokenRequest, env: Env) returns (steps: seq<Step>)
    requires id !in w.flights && env.freshRefresh !in w.issues
    ensures RunFrom(w, steps).Some?
    ensures var w', r := RunFrom(w, steps).value, Tokened(w.store, req, env);
            && w'.store == r.0 && w'.flights == w.flights
            && w'.taken == (if req.grant.AuthorizationCode? && req.grant.code.Some?
                               && req.grant.code.value in Cleaned(w.store, env.cleanupTime).codes
                            then w.taken + [req.grant.code.value] else w.taken)
            && w'.redeemed == (if req.grant.RefreshToken? && r.1.Success?
                               then w.redeemed + [req.grant.token.value] else w.redeemed)
  {
    var cleanup := CleanupStep(w, env.cleanupTime);
    var w1 := After(w, cleanup);
    match req.grant {
      case AuthorizationCode(code) => steps := CodeSteps(w1, id, code, req, env);
      case RefreshToken(token) => steps := RefreshSteps(w1, id, token, req, env);
      case UnknownGrant => steps := [];
    }
    Prepend(w, cleanup, steps);
    steps := [cleanup] + steps;
  }

  /** What a revocation drops, after its cleanup. */
  lemma RevocationStep(w: World, req: RevokeRequest, env: Env) returns (step: Step)
    ensures Enabled(w, step)
    ensures forall s :: Cleaned(s, env.cleanupTime) == w.store ==> After(w, step) == w.(store := Revoked(s, req, env).0)
  {
    var accesses: set<string>, tokens: set<string> := {}, {};
    if Authenticated(env, req.clientId, req.clientSecret) {
      if req.token in w.store.access {
        accesses := {req.token};
        if w.store.access[req.token].clientId == req.clientId {
          tokens := {w.store.access[req.token].refreshToken};
        }
      } else if req.token in w.store.refresh {
        accesses, tokens := {w.store.refresh[req.token]}, {req.token};
      }
    }
    step := Drop({}, accesses, tokens);
    assert w.store.codes - {} == w.store.codes;
    assert accesses == {} ==> w.store.access - accesses == w.store.access;
    assert tokens == {} ==> w.store.refresh - tokens == w.store.refresh;
  }

  /** A revocation only drops entries. */
  lemma RevokeRefinesSteps(w: World, req: RevokeRequest, env: Env) returns (steps: seq<Step>)
    ensures RunFrom(w, steps) == Some(w.(store := Revoked(w.store, req, env).0))
  {
    var cleanup := CleanupStep(w, env.cleanupTime);
    var w1 := After(w, cleanup);
    var drop := RevocationStep(w1, req, env);
    assert w1.store == Cleaned(w.store, env.cleanupTime);
    Prepend(w1, drop, []);
    Prepend(w, cleanup, [drop]);
    assert [drop] + [] == [drop];
    steps := [cleanup] + [drop];
  }

  /** An accepted login is one authorization, for scopes that both the client and the provider allow. */
  lemma AuthorizeRefinesSteps(w: World, session: Session, query: LoginQuery, requested: seq<string>, env: Env)
    returns (steps: seq<Step>)
    requires env.freshCode !in w.authorizations
    ensures RunFrom(w, steps).Some?
    ensures var w', r := RunFrom(w, steps).value, Authorized(w.store, session, query, requested, env);
            && w'.store == r.0
            && (r.1.Success? ==>
                  env.freshCode in w'.authorizations &&
                  w'.authorizations[env.freshCode] ==
                    Authorization(Permit(query.clientId, session.userId, requested),
                                  Elements(ClientScopes(env.clients[query.clientId])), Elements(env.settings.supported)))
  {
    var cleanup := CleanupStep(w, env.cleanupTime);
    var w1 := After(w, cleanup);
    steps := [];
    var r := Authorized(w.store, session, query, requested, env);
    if r.1.Success? {
      var step := Authorizes(env.freshCode, r.0.codes[env.freshCode],
                             Elements(ClientScopes(env.clients[query.clientId])), Elements(env.settings.supported));
      Prepend(w1, step, []);
      steps := [step] + [];
    }
    Prepend(w, cleanup, steps);
    steps := [cleanup] + steps;
  }
}
