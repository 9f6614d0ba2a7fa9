/**
  Token requests run concurrently on three shared maps.  Here every map
  operation of a handler is a step of its own, steps of different requests
  interleave freely, and cleanup and revocation may drop entries at any time.
 */
module OAuthInterleaving {
  import opened Collections
  import opened Wrappers
  import opened OAuthStore

  /** What an authorization grants: to which client, for which user, with which scopes. */
  datatype Permit = Permit(clientId: string, userId: string, scopes: seq<string>)

  /** An authorization as it was made, with the scope sets it was checked against. */
  datatype Authorization = Authorization(permit: Permit, allowed: set<string>, supported: set<string>)

  datatype Source = FromCode | FromRefresh(token: string)

  /** A generated refresh token: what it stands for, the code it descends from and its direct source. */
  datatype Issue = Issue(permit: Permit, code: string, source: Source)

  function PermitOf(e: AccessEntry): Permit {
    Permit(e.clientId, e.userId, e.scopes)
  }

  function PermitOfCode(e: CodeEntry): Permit {
    Permit(e.clientId, e.userId, e.scopes)
  }

  /** How far a request has come. */
  datatype Flight =
    | HasCode(code: string, codeEntry: CodeEntry)
    | LookedUp(token: string, access: string)
    | HasAccess(token: string, entry: AccessEntry)
    | Issuing(permit: Permit, origin: string, source: Source)
    | Stored(access: string, token: string)

  type RequestId = nat

  /** The shared maps, the requests in flight and the history of the run. */
  datatype World = World(
    store: Store,
    flights: map<RequestId, Flight>,
    authorizations: map<string, Authorization>,
    issues: map<string, Issue>,
    taken: seq<string>,
    redeemed: seq<string>
  )

  const START := World(Store(map[], map[], map[]), map[], map[], map[], [], [])

  datatype Step =
    | Authorizes(code: string, entry: CodeEntry, allowed: set<string>, supported: set<string>)
    | TakeCode(id: RequestId, code: string)
    | AcceptCode(id: RequestId)
    | LookUp(id: RequestId, token: string)
    | TakeAccess(id: RequestId)
    | Redeem(id: RequestId)
    | StoreAccess(id: RequestId, access: string, token: string, expiresAt: nat, refreshExpiresAt: nat)
    | StoreRefresh(id: RequestId)
    | Abandon(id: RequestId)
    | Drop(codes: set<string>, accesses: set<string>, tokens: set<string>)

  /** Generated codes and refresh tokens are new; everything else is the state of the maps and of the request. */
  predicate Enabled(w: World, step: Step) {
    match step
    case Authorizes(code, entry, allowed, supported) =>
      code !in w.authorizations && ScopesValid(entry.scopes, allowed, supported)
    case TakeCode(id, code) => id !in w.flights && code in w.store.codes
    case AcceptCode(id) => id in w.flights && w.flights[id].HasCode?
    case LookUp(id, token) => id !in w.flights && token in w.store.refresh
    case TakeAccess(id) => id in w.flights && w.flights[id].LookedUp? && w.flights[id].access in w.store.access
    case Redeem(id) =>
      id in w.flights && w.flights[id].HasAccess? && w.flights[id].entry.refreshToken == w.flights[id].token
    case StoreAccess(id, _, token, _, _) => id in w.flights && w.flights[id].Issuing? && token !in w.issues
    case StoreRefresh(id) => id in w.flights && w.flights[id].Stored?
    case Abandon(id) => id in w.flights
    case Drop(_, _, _) => true
  }

  function After(w: World, step: Step): World
    requires Enabled(w, step)
  {
    match step
    case Authorizes(code, entry, allowed, supported) =>
      w.(store := w.store.(codes := w.store.codes[code := entry]),
         authorizations := w.authorizations[code := Authorization(PermitOfCode(entry), allowed, supported)])
    case TakeCode(id, code) =>
      w.(store := w.store.(codes := w.store.codes - {code}),
         flights := w.flights[id := HasCode(code, w.store.codes[code])],
         taken := w.taken + [code])
    case AcceptCode(id) =>
      var f := w.flights[id];
      w.(flights := w.flights[id := Issuing(PermitOfCode(f.codeEntry), f.code, FromCode)])
    case LookUp(id, token) =>
      w.(flights := w.flights[id := LookedUp(token, w.store.refresh[token])])
    case TakeAccess(id) =>
      var f := w.flights[id];
      w.(store := w.store.(access := w.store.access - {f.access}),
         flights := w.flights[id := HasAccess(f.token, w.store.access[f.access])])
    case Redeem(id) =>
      var f := w.flights[id];
      w.(store := w.store.(refresh := w.store.refresh - {f.token}),
         flights := w.flights[id := Issuing(PermitOf(f.entry), OriginOf(w, f.token), FromRefresh(f.token))],
         redeemed := w.redeemed + [f.token])
    case StoreAccess(id, access, token, expiresAt, refreshExpiresAt) =>
      var f := w.flights[id];
      var entry := AccessEntry(f.permit.clientId, f.permit.userId, f.permit.scopes, expiresAt, token, refreshExpiresAt);
      w.(store := w.store.(access := w.store.access[access := entry]),
         flights := w.flights[id := Stored(access, token)],
         issues := w.issues[token := Issue(f.permit, f.origin, f.source)])
    case StoreRefresh(id) =>
      var f := w.flights[id];
      w.(store := w.store.(refresh := w.store.refresh[f.token := f.access]), flights := w.flights - {id})
    case Abandon(id) => w.(flights := w.flights - {id})
    case Drop(codes, accesses, tokens) =>
      w.(store := Store(w.store.codes - codes, w.store.access - accesses, w.store.refresh - tokens))
  }

  function OriginOf(w: World, token: string): string {
    if token in w.issues then w.issues[token].code else ""
  }

  /** The world after a sequence of steps, if each is enabled in its turn. */
  function RunOf(steps: seq<Step>): Option<World> {
    if steps == [] then Some(START)
    else
      match RunOf(steps[..|steps| - 1])
      case None => None
      case Some(w) => if Enabled(w, steps[|steps| - 1]) then Some(After(w, steps[|steps| - 1])) else None
  }

  // ---- The invariant

  /** Codes still stored were authorized and were not taken before. */
  ghost predicate CodesOnce(w: World) {
    && NoDuplicates(w.taken)
    && (forall c :: c in w.taken ==> c in w.authorizations && c !in w.store.codes)
    && (forall c :: c in w.store.codes ==> c in w.authorizations && w.authorizations[c].permit == PermitOfCode(w.store.codes[c]))
  }

  /** Request `id` holds an access entry whose refresh token is `token`. */
  ghost predicate Holds(w: World, id: RequestId, token: string) {
    id in w.flights && w.flights[id].HasAccess? && w.flights[id].entry.refreshToken == token
  }

  /** Access token `a` is stored with refresh token `token`. */
  ghost predicate Keeps(w: World, a: string, token: string) {
    a in w.store.access && w.store.access[a].refreshToken == token
  }

  /** The access entry of a refresh token is in at most one place, and nowhere once the token is redeemed. */
  ghost predicate TokensOnce(w: World) {
    && NoDuplicates(w.redeemed)
    && (forall a, b, t :: Keeps(w, a, t) && Keeps(w, b, t) ==> a == b)
    && (forall i, j, t :: Holds(w, i, t) && Holds(w, j, t) ==> i == j)
    && (forall a, i, t :: Keeps(w, a, t) ==> !Holds(w, i, t))
    && (forall a, t :: Keeps(w, a, t) ==> t in w.issues && t !in w.redeemed)
    && (forall i, t :: Holds(w, i, t) ==> t in w.issues && t !in w.redeemed)
    && (forall t :: t in w.redeemed ==> t in w.issues)
  }

  /** Every entry carries the permit of the token it was issued with. */
  ghost predicate EntriesMatch(w: World) {
    && (forall a :: a in w.store.access ==>
          w.store.access[a].refreshToken in w.issues &&
          w.issues[w.store.access[a].refreshToken].permit == PermitOf(w.store.access[a]))
    && (forall i :: i in w.flights && w.flights[i].HasAccess? ==>
          w.flights[i].entry.refreshToken in w.issues &&
          w.issues[w.flights[i].entry.refreshToken].permit == PermitOf(w.flights[i].entry))
  }

  /** `permit`, with its origin and source, descends from an authorization. */
  ghost predicate Descends(w: World, permit: Permit, code: string, source: Source) {
    && code in w.authorizations
    && w.authorizations[code].permit == permit
    && (source.FromRefresh? ==>
          source.token in w.issues && w.issues[source.token].permit == permit && w.issues[source.token].code == code)
  }

  ghost predicate IssuesDescend(w: World) {
    forall t :: t in w.issues ==> Descends(w, w.issues[t].permit, w.issues[t].code, w.issues[t].source)
  }

  /** What a request is about to issue, or has taken, descends from an authorization. */
  ghost predicate FlightDescends(w: World, f: Flight) {
    match f
    case Issuing(permit, origin, source) => Descends(w, permit, origin, source)
    case HasCode(code, entry) => Descends(w, PermitOfCode(entry), code, FromCode)
    case _ => true
  }

  ghost predicate FlightsDescend(w: World) {
    forall i :: i in w.flights ==> FlightDescends(w, w.flights[i])
  }

  ghost predicate ScopesChecked(w: World) {
    forall c :: c in w.authorizations ==>
      ScopesValid(w.authorizations[c].permit.scopes, w.authorizations[c].allowed, w.authorizations[c].supported)
  }

  ghost predicate Lineage(w: World) {
    IssuesDescend(w) && FlightsDescend(w) && ScopesChecked(w)
  }

  lemma CodesOnceKept(w: World, step: Step)
    requires CodesOnce(w) && Enabled(w, step)
    ensures CodesOnce(After(w, step))
  {}

  /** Where stored and held entries come from. */
  lemma EntriesMove(w: World, step: Step)
    requires Enabled(w, step)
    ensures var w' := After(w, step);
            && (forall a, t :: Keeps(w', a, t) ==>
                  Keeps(w, a, t) || (step.StoreAccess? && t == step.token && a == step.access))
            && (forall i, t :: Holds(w', i, t) ==>
                  Holds(w, i, t) || (step.TakeAccess? && i == step.id && Keeps(w, w.flights[i].access, t)))
            && (step.TakeAccess? ==> forall t :: !Keeps(w', w.flights[step.id].access, t) && !Holds(w, step.id, t))
            && (step.Redeem? ==> forall t :: !Holds(w', step.id, t))
  {}

  lemma TokensOnceKept(w: World, step: Step)
    requires TokensOnce(w) && Enabled(w, step)
    ensures TokensOnce(After(w, step))
  {
    EntriesMove(w, step);
    if step.Redeem? {
      assert Holds(w, step.id, w.flights[step.id].token);
    }
  }

  lemma EntriesMatchKept(w: World, step: Step)
    requires EntriesMatch(w) && Enabled(w, step)
    ensures EntriesMatch(After(w, step))
  {}

  /** History only grows, so what descends keeps descending. */
  lemma DescendsKept(w: World, step: Step, permit: Permit, code: string, source: Source)
    requires Enabled(w, step) && Descends(w, permit, code, source)
    ensures Descends(After(w, step), permit, code, source)
  {}

  lemma IssuesDescendKept(w: World, step: Step)
    requires Lineage(w) && Enabled(w, step)
    ensures IssuesDescend(After(w, step))
  {
    var w' := After(w, step);
    forall t | t in w'.issues
      ensures Descends(w', w'.issues[t].permit, w'.issues[t].code, w'.issues[t].source)
    {
      DescendsKept(w, step, w'.issues[t].permit, w'.issues[t].code, w'.issues[t].source);
    }
  }

  lemma NewFlightDescends(w: World, step: Step, i: RequestId)
    requires Lineage(w) && EntriesMatch(w) && CodesOnce(w) && Enabled(w, step)
    requires i in After(w, step).flights && (i !in w.flights || After(w, step).flights[i] != w.flights[i])
    ensures FlightDescends(w, After(w, step).flights[i])
  {}

  lemma FlightsDescendKept(w: World, step: Step)
    requires Lineage(w) && EntriesMatch(w) && CodesOnce(w) && Enabled(w, step)
    ensures FlightsDescend(After(w, step))
  {
    var w' := After(w, step);
    forall i | i in w'.flights
      ensures FlightDescends(w', w'.flights[i])
    {
      if i !in w.flights || w'.flights[i] != w.flights[i] {
        NewFlightDescends(w, step, i);
      }
      match w'.flights[i]
      case Issuing(permit, origin, source) => DescendsKept(w, step, permit, origin, source);
      case HasCode(code, entry) => DescendsKept(w, step, PermitOfCode(entry), code, FromCode);
      case _ =>
    }
  }

  lemma ScopesCheckedKept(w: World, step: Step)
    requires ScopesChecked(w) && Enabled(w, step)
    ensures ScopesChecked(After(w, step))
  {}

  lemma LineageKept(w: World, step: Step)
    requires Lineage(w) && EntriesMatch(w) && CodesOnce(w) && Enabled(w, step)
    ensures Lineage(After(w, step))
  {
    IssuesDescendKept(w, step);
    FlightsDescendKept(w, step);
    ScopesCheckedKept(w, step);
  }

  ghost predicate Invariant(w: World) {
    CodesOnce(w) && TokensOnce(w) && EntriesMatch(w) && Lineage(w)
  }

  lemma {:induction false} InvariantAlways(steps: seq<Step>)
    ensures RunOf(steps).Some? ==> Invariant(RunOf(steps).value)
  {
    if steps != [] {
      InvariantAlways(steps[..|steps| - 1]);
      match RunOf(steps[..|steps| - 1])
      case None =>
      case Some(w) =>
        var step := steps[|steps| - 1];
        if Enabled(w, step) {
          CodesOnceKept(w, step);
          TokensOnceKept(w, step);
          EntriesMatchKept(w, step);
          LineageKept(w, step);
        }
    }
  }

  /** In every interleaving a code is taken, and a refresh token redeemed, at most once. */
  lemma SingleUse(steps: seq<Step>)
    requires RunOf(steps).Some?
    ensures NoDuplicates(RunOf(steps).value.taken) && NoDuplicates(RunOf(steps).value.redeemed)
  {
    InvariantAlways(steps);
  }

  /** `chain` starts at a token issued for a code; each later token was issued for the one before it. */
  ghost predicate IsChain(w: World, chain: seq<string>) {
    && (forall i :: 0 <= i < |chain| ==> chain[i] in w.issues)
    && (chain != [] ==> w.issues[chain[0]].source == FromCode)
    && (forall i :: 0 < i < |chain| ==> w.issues[chain[i]].source == FromRefresh(chain[i - 1]))
  }

  /**
    Along any chain of refreshes client, user and scopes are those of the
    authorization code it started from, and the scopes were within the client's
    and the provider's scopes at that authorization.
   */
  lemma {:induction false} ChainKeepsPermit(steps: seq<Step>, chain: seq<string>)
    requires RunOf(steps).Some? && chain != []
    requires IsChain(RunOf(steps).value, chain)
    ensures var w := RunOf(steps).value;
            && w.issues[chain[0]].code in w.authorizations
            && var a := w.authorizations[w.issues[chain[0]].code];
            && (forall i :: 0 <= i < |chain| ==>
                  w.issues[chain[i]].permit == a.permit && w.issues[chain[i]].code == w.issues[chain[0]].code)
            && ScopesValid(a.permit.scopes, a.allowed, a.supported)
  {
    InvariantAlways(steps);
    var w := RunOf(steps).value;
    if |chain| > 1 {
      var front := chain[..|chain| - 1];
      ChainKeepsPermit(steps, front);
      assert front[|front| - 1] == chain[|chain| - 2];
    }
  }
}
