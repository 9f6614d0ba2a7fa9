/** Presence: sessions per user, the set of online users, and the sessions each region opened. */
module Presence {
  import opened Wrappers

  datatype Session = Session(user: string, id: nat)

  /** The stored sets; a set that becomes empty is no longer stored. */
  datatype World = World(sessions: map<string, set<nat>>, online: set<string>, regions: map<string, set<Session>>) {
    predicate Live(s: Session) {
      Has(sessions, s.user, s.id)
    }

    /** The user has a stored session set. */
    predicate Exists(user: string) {
      user in sessions
    }

    function Region(region: string): set<Session> {
      if region in regions then regions[region] else {}
    }
  }

  const EMPTY := World(map[], {}, map[])

  /** The random word with its last bit replaced by the flag. */
  function SessionId(random: nat, flags: nat): (id: nat)
    ensures id % 2 == flags % 2 && id / 2 == random / 2
    ensures random < 0x1_0000_0000 ==> id < 0x1_0000_0000
  {
    random - random % 2 + flags % 2
  }

  // ---- Stored sets

  function With<T>(sets: map<string, set<T>>, key: string, value: T): map<string, set<T>> {
    sets[key := (if key in sets then sets[key] else {}) + {value}]
  }

  function Without<T>(sets: map<string, set<T>>, key: string, value: T): map<string, set<T>> {
    if key !in sets then sets
    else if sets[key] <= {value} then sets - {key}
    else sets[key := sets[key] - {value}]
  }

  // ---- Steps

  function Created(w: World, region: string, s: Session): World {
    World(With(w.sessions, s.user, s.id), w.online + {s.user}, With(w.regions, region, s))
  }

  /** The session removed from its user, and the user from the online set if that was the last one. */
  function Ended(w: World, s: Session): World {
    var sessions := Without(w.sessions, s.user, s.id);
    w.(sessions := sessions, online := if s.user in sessions then w.online else w.online - {s.user})
  }

  function Deleted(w: World, region: string, s: Session): World {
    Ended(w.(regions := Without(w.regions, region, s)), s)
  }

  function EndedAll(w: World, order: seq<Session>): World {
    if order == [] then w else Ended(EndedAll(w, order[..|order| - 1]), order[|order| - 1])
  }

  /** `order` is the order in which the region's sessions were listed. */
  datatype Step =
    | Create(region: string, session: Session)
    | Delete(region: string, session: Session)
    | Clear(region: string, order: seq<Session>)

  /** New sessions are fresh and a session is only deleted by its own region, while it lives. */
  ghost predicate Enabled(w: World, step: Step) {
    match step
    case Create(_, s) => !w.Live(s)
    case Delete(region, s) => s in w.Region(region)
    case Clear(region, order) => forall s :: s in order <==> s in w.Region(region)
  }

  function After(w: World, step: Step): World {
    match step
    case Create(region, s) => Created(w, region, s)
    case Delete(region, s) => Deleted(w, region, s)
    case Clear(region, order) => EndedAll(w, order).(regions := w.regions - {region})
  }

  /** The flag a step returns: whether it opened its user's first session or closed the last. */
  function Flag(w: World, step: Step): bool {
    match step
    case Create(_, s) => !w.Exists(s.user)
    case Delete(region, s) => !Deleted(w, region, s).Exists(s.user)
    case Clear(_, _) => false
  }

  // ---- The invariant

  ghost predicate OnlineIsLive(w: World) {
    && w.online == w.sessions.Keys
    && (forall u :: u in w.sessions ==> w.sessions[u] != {})
  }

  /** Every live session belongs to exactly one region, and a region holds live sessions only. */
  ghost predicate RegionsPartition(w: World) {
    && (forall r :: forall s :: s in w.Region(r) ==> w.Live(s))
    && (forall s :: w.Live(s) ==> exists r :: s in w.Region(r))
    && (forall s, r, r' :: s in w.Region(r) && s in w.Region(r') ==> r == r')
  }

  predicate Has<T>(sets: map<string, set<T>>, key: string, value: T) {
    key in sets && value in sets[key]
  }

  lemma WithHolds<T>(sets: map<string, set<T>>, key: string, value: T)
    ensures forall k, v :: Has(With(sets, key, value), k, v) <==> Has(sets, k, v) || (k == key && v == value)
  {}

  lemma WithoutHolds<T>(sets: map<string, set<T>>, key: string, value: T)
    ensures forall k, v :: Has(Without(sets, key, value), k, v) <==> Has(sets, k, v) && !(k == key && v == value)
  {}

  lemma CreatedLaw(w: World, region: string, s: Session)
    requires OnlineIsLive(w)
    ensures var w' := Created(w, region, s);
            && OnlineIsLive(w')
            && (forall x :: w'.Live(x) <==> w.Live(x) || x == s)
            && (forall r, x :: x in w'.Region(r) <==> x in w.Region(r) || (r == region && x == s))
  {
    assert forall r, x :: x in Created(w, region, s).Region(r) <==> Has(With(w.regions, region, s), r, x);
    assert forall r, x :: x in w.Region(r) <==> Has(w.regions, r, x);
    WithHolds(w.sessions, s.user, s.id);
    WithHolds(w.regions, region, s);
  }

  lemma EndedLaw(w: World, s: Session)
    requires OnlineIsLive(w)
    ensures var w' := Ended(w, s);
            && OnlineIsLive(w') && w'.regions == w.regions
            && (forall x :: w'.Live(x) <==> w.Live(x) && x != s)
  {
    WithoutHolds(w.sessions, s.user, s.id);
  }

  lemma DeletedLaw(w: World, region: string, s: Session)
    requires OnlineIsLive(w)
    ensures var w' := Deleted(w, region, s);
            && OnlineIsLive(w')
            && (forall x :: w'.Live(x) <==> w.Live(x) && x != s)
            && (forall r, x :: x in w'.Region(r) <==> x in w.Region(r) && !(r == region && x == s))
  {
    var v := w.(regions := Without(w.regions, region, s));
    EndedLaw(v, s);
    WithoutHolds(w.regions, region, s);
  }

  lemma {:induction false} EndedAllLaw(w: World, order: seq<Session>)
    requires OnlineIsLive(w)
    ensures var w' := EndedAll(w, order);
            && OnlineIsLive(w') && w'.regions == w.regions
            && (forall x :: w'.Live(x) <==> w.Live(x) && x !in order)
  {
    if order != [] {
      var front, last := order[..|order| - 1], order[|order| - 1];
      assert order == front + [last];
      EndedAllLaw(w, front);
      EndedLaw(EndedAll(w, front), last);
    }
  }

  /** Clearing a region removes exactly that region's sessions, and leaves the other regions alone. */
  lemma ClearLaw(w: World, region: string, order: seq<Session>)
    requires OnlineIsLive(w) && Enabled(w, Clear(region, order))
    ensures var w' := After(w, Clear(region, order));
            && OnlineIsLive(w')
            && (forall x :: w'.Live(x) <==> w.Live(x) && x !in w.Region(region))
            && (forall r, x :: x in w'.Region(r) <==> x in w.Region(r) && r != region)
  {
    EndedAllLaw(w, order);
  }

  lemma StepKeepsInvariant(w: World, step: Step)
    requires OnlineIsLive(w) && RegionsPartition(w) && Enabled(w, step)
    ensures OnlineIsLive(After(w, step)) && RegionsPartition(After(w, step))
  {
    match step
    case Create(region, s) =>
      CreatedLaw(w, region, s);
      var w' := Created(w, region, s);
      assert s in w'.Region(region);
      forall x | w.Live(x)
        ensures exists r :: x in w'.Region(r)
      {
        var r :| x in w.Region(r);
        assert x in w'.Region(r);
      }
    case Delete(region, s) => DeletedLaw(w, region, s);
    case Clear(region, order) => ClearLaw(w, region, order);
  }

  // ---- Every run

  ghost function RunFrom(w: World, steps: seq<Step>): Option<World> {
    if steps == [] then Some(w)
    else
      match RunFrom(w, steps[..|steps| - 1])
      case None => None
      case Some(v) => if Enabled(v, steps[|steps| - 1]) then Some(After(v, steps[|steps| - 1])) else None
  }

  lemma {:induction false} InvariantAlways(w: World, steps: seq<Step>)
    requires OnlineIsLive(w) && RegionsPartition(w) && RunFrom(w, steps).Some?
    ensures OnlineIsLive(RunFrom(w, steps).value) && RegionsPartition(RunFrom(w, steps).value)
  {
    if steps != [] {
      InvariantAlways(w, steps[..|steps| - 1]);
      StepKeepsInvariant(RunFrom(w, steps[..|steps| - 1]).value, steps[|steps| - 1]);
    }
  }

  /** A user is online exactly while one of their sessions lives. */
  lemma OnlineAlways(steps: seq<Step>, user: string)
    requires RunFrom(EMPTY, steps).Some?
    ensures var w := RunFrom(EMPTY, steps).value;
            && (user in w.online <==> exists id :: w.Live(Session(user, id)))
            && (user in w.online <==> w.Exists(user))
  {
    InvariantAlways(EMPTY, steps);
    var w := RunFrom(EMPTY, steps).value;
    if user in w.online {
      var id :| id in w.sessions[user];
      assert w.Live(Session(user, id));
    }
  }

  // ---- First and last flags

  /** The raised flags of a user's sessions, in order: true for a first session, false for a last. */
  ghost function Flags(w: World, steps: seq<Step>, user: string): seq<bool>
    requires RunFrom(w, steps).Some?
  {
    if steps == [] then []
    else
      var front, last := steps[..|steps| - 1], steps[|steps| - 1];
      Flags(w, front, user) +
      (if !last.Clear? && last.session.user == user && Flag(RunFrom(w, front).value, last) then [last.Create?] else [])
  }

  /** Between region clears a user's flags alternate, starting from and ending in whether the user is online. */
  lemma {:induction false} FlagsAlternate(w: World, steps: seq<Step>, user: string)
    requires OnlineIsLive(w) && RegionsPartition(w) && RunFrom(w, steps).Some?
    requires forall i :: 0 <= i < |steps| ==> !steps[i].Clear?
    ensures var flags, v := Flags(w, steps, user), RunFrom(w, steps).value;
            && (forall i, j :: 0 <= i && j == i + 1 < |flags| ==> flags[i] != flags[j])
            && (flags == [] ==> (user in v.online <==> user in w.online))
            && (flags != [] ==> flags[0] == (user !in w.online) && flags[|flags| - 1] == (user in v.online))
  {
    if steps != [] {
      var front, last := steps[..|steps| - 1], steps[|steps| - 1];
      FlagsAlternate(w, front, user);
      InvariantAlways(w, front);
      FlagTellsChange(RunFrom(w, front).value, last, user);
    }
  }

  /** A raised flag is exactly a change of the user between online and offline. */
  lemma FlagTellsChange(w: World, step: Step, user: string)
    requires OnlineIsLive(w) && RegionsPartition(w) && Enabled(w, step) && !step.Clear?
    ensures var w' := After(w, step);
            if step.session.user == user && Flag(w, step) then (user in w'.online <==> step.Create?) && (user in w.online <==> step.Delete?)
            else user in w'.online <==> user in w.online
  {
    if step.Delete? {
      assert w.Live(step.session);
    }
  }

  // ---- The store

  class Store {
    const regionKey: string
    var sessions: map<string, set<nat>>
    var online: set<string>
    var regions: map<string, set<Session>>

    ghost function Current(): World
      reads this
    {
      World(sessions, online, regions)
    }

    constructor (region: string)
      ensures Current() == EMPTY && regionKey == region
    {
      regionKey := region;
      sessions, online, regions := map[], {}, map[];
    }

    /** `connected` is whether a connection to the store could be had. */
    method CreateSession(user: string, flags: nat, random: nat, connected: bool) returns (first: bool, id: nat)
      modifies this
      ensures !connected ==> !first && id == 0 && Current() == old(Current())
      ensures connected ==>
                && id == SessionId(random, flags)
                && Current() == After(old(Current()), Create(regionKey, Session(user, id)))
                && first == Flag(old(Current()), Create(regionKey, Session(user, id)))
    {
      if !connected {
        return false, 0;
      }
      first := user !in sessions;
      id := SessionId(random, flags);
      sessions := With(sessions, user, id);
      online := online + {user};
      regions := With(regions, regionKey, Session(user, id));
    }

    method DeleteSession(user: string, id: nat, connected: bool) returns (last: bool)
      modifies this
      ensures !connected ==> !last && Current() == old(Current())
      ensures connected ==>
                && Current() == After(old(Current()), Delete(regionKey, Session(user, id)))
                && last == Flag(old(Current()), Delete(regionKey, Session(user, id)))
    {
      last := DeleteSessionInternal(user, id, false, connected);
    }

    method DeleteSessionInternal(user: string, id: nat, skipRegion: bool, connected: bool) returns (last: bool)
      modifies this
      ensures !connected ==> !last && Current() == old(Current())
      ensures connected ==>
                && Current() == (if skipRegion then Ended(old(Current()), Session(user, id))
                                 else Deleted(old(Current()), regionKey, Session(user, id)))
                && last == !Current().Exists(user)
    {
      if !connected {
        return false;
      }
      sessions := Without(sessions, user, id);
      if !skipRegion {
        regions := Without(regions, regionKey, Session(user, id));
      }
      last := user !in sessions;
      if last {
        online := online - {user};
      }
    }

    method IsOnline(user: string, connected: bool) returns (found: bool)
      ensures found <==> connected && Current().Exists(user)
    {
      found := connected && user in sessions;
    }

    /** The filter on the patched store, which asks for all the memberships at once. */
    method FilterOnlinePatched(users: seq<string>, connected: bool) returns (filtered: set<string>)
      requires OnlineIsLive(Current())
      ensures forall u :: u in filtered <==> u in users && connected && Current().Exists(u)
    {
      filtered := {};
      if users == [] {
        return;
      }
      if |users| == 1 {
        var isOnline := IsOnline(users[0], connected);
        if isOnline {
          filtered := {users[0]};
        }
        return;
      }
      if connected {
        for i := 0 to |users|
          invariant forall u :: u in filtered <==> u in users[..i] && u in online
        {
          if users[i] in online {
            filtered := filtered + {users[i]};
          }
        }
      }
    }

    /** The filter on the stock store, which intersects with the whole online set. */
    method FilterOnline(users: seq<string>, connected: bool) returns (filtered: set<string>)
      requires OnlineIsLive(Current())
      ensures forall u :: u in filtered <==> u in users && connected && Current().Exists(u)
    {
      if users == [] || !connected {
        return {};
      }
      filtered := online * set u | u in users;
    }

    /** Delete every session of a region; `order` is the order in which they are listed. */
    method ClearRegion(region: Option<string>) returns (ghost order: seq<Session>)
      modifies this
      ensures var key := if region.Some? then region.value else regionKey;
              && Enabled(old(Current()), Clear(key, order))
              && Current() == After(old(Current()), Clear(key, order))
    {
      var key := if region.Some? then region.value else regionKey;
      order := [];
      var rest := if key in regions then regions[key] else {};
      while rest != {}
        invariant rest <= old(Current()).Region(key)
        invariant forall s :: s in order <==> s in old(Current()).Region(key) - rest
        invariant Current() == EndedAll(old(Current()), order) && regions == old(regions)
        decreases rest
      {
        var session :| session in rest;
        var _ := DeleteSessionInternal(session.user, session.id, true, true);
        assert (order + [session])[..|order|] == order;
        order := order + [session];
        rest := rest - {session};
      }
      regions := regions - {key};
    }
  }
}
