/** Reordering the roles of a server. */
module RoleOrdering {
  import opened Bits
  import opened Collections
  import opened Permissions
  import opened RoleOverrides
  import opened StableSort
  import opened Entities
  import opened PermissionQueries
  import opened PermissionEdits
  import opened Wrappers

  function RankOf(roles: map<RoleId, Role>): RoleId -> int {
    (id: RoleId) => if id in roles then roles[id].rank else I64_MAX
  }

  /** The role ids by rank, highest priority first. */
  function OrderedRoles(roles: map<RoleId, Role>, h: HashOrder): seq<RoleId> {
    Sorted(h(roles.Keys), RankOf(roles))
  }

  /** The first index of `id`. */
  function Position(s: seq<RoleId>, id: RoleId): (i: Option<nat>)
    ensures i.Some? ==> i.value < |s| && s[i.value] == id
    ensures i.Some? <==> id in s
  {
    if s == [] then None
    else
      match Position(s[..|s| - 1], id)
      case Some(i) => Some(i)
      case None => if s[|s| - 1] == id then Some(|s| - 1) else None
  }

  /** As long as the role table, and naming every role. */
  predicate NamesEveryRole(roles: map<RoleId, Role>, order: seq<RoleId>) {
    |order| == |roles| && forall id | id in roles :: id in order
  }

  /** A role that an editor of rank `top` may not move. */
  predicate Locked(roles: map<RoleId, Role>, top: Option<int>, id: RoleId)
    requires id in roles
  {
    top.None? || roles[id].rank <= top.value
  }

  predicate KeepsLocked(roles: map<RoleId, Role>, top: Option<int>, existing: seq<RoleId>, order: seq<RoleId>) {
    forall id | id in roles :: Locked(roles, top, id) ==> Position(existing, id) == Position(order, id)
  }

  ghost function ReorderRefusal(database: Database, user: User, target: ServerId, order: seq<RoleId>,
                                h: HashOrder): Option<Error>
  {
    if target !in database.servers then Some(NotFound)
    else
      var server := database.servers[target];
      if !(Flags(MANAGE_ROLE) <= ServerFlags(ServerQuery(database, user, server), h)) then Some(MissingPermission)
      else if !NamesEveryRole(server.roles, order) then Some(InvalidOperation)
      else if server.owner != user.id &&
              !KeepsLocked(server.roles, EditorRank(database, user, server), OrderedRoles(server.roles, h), order)
      then Some(NotElevated)
      else None
  }

  /** The role table in which every role has the rank of its position in `order`. */
  ghost predicate RankedByPosition(roles: map<RoleId, Role>, roles': map<RoleId, Role>, order: seq<RoleId>) {
    && roles'.Keys == roles.Keys
    && (forall id :: id in roles ==> roles'[id].permissions == roles[id].permissions)
    && (forall i :: 0 <= i < |order| ==> order[i] in roles' && roles'[order[i]].rank == i)
  }

  class RoleRoutes {
    var database: Database

    constructor (database: Database)
      ensures this.database == database
    {
      this.database := database;
    }

    method EditRoleRanks(user: User, target: ServerId, order: seq<RoleId>, h: HashOrder) returns (r: Result<Server>)
      modifies this
      ensures match ReorderRefusal(old(database), user, target, order, h)
              case Some(e) => r == Failure(e) && database == old(database)
              case None =>
                && r.Success?
                && var server := old(database).servers[target];
                && RankedByPosition(server.roles, r.value.roles, order)
                && r.value == server.(roles := r.value.roles)
                && database == old(database).(servers := old(database).servers[target := r.value])
    {
      if target !in database.servers {
        return Failure(NotFound);
      }
      var server := database.servers[target];
      var query := new DatabasePermissionQuery(ServerQuery(database, user, server));
      var permissions := CalculateServerPermissions(query, h);
      var manage := permissions.ThrowIfLacking(MANAGE_ROLE);
      if manage.Failure? {
        return Failure(manage.error);
      }
      var existing := OrderedRoles(server.roles, h);
      if !NamesEveryRole(server.roles, order) {
        return Failure(InvalidOperation);
      }
      if server.owner != user.id {
        var top: Option<int> := None;
        if query.member.Some? {
          var rank := GetRanking(query.member.value, server);
          top := Some(rank);
        }
        if !KeepsLocked(server.roles, top, existing, order) {
          return Failure(NotElevated);
        }
      }
      var roles := SetRoleOrdering(server.roles, order);
      server := server.(roles := roles);
      database := database.(servers := database.servers[target := server]);
      return Success(server);
    }
  }

  /** Every role of an accepted order exists, so that each lookup in the loop succeeds. */
  method SetRoleOrdering(roles: map<RoleId, Role>, order: seq<RoleId>) returns (roles': map<RoleId, Role>)
    requires NamesEveryRole(roles, order)
    ensures RankedByPosition(roles, roles', order)
  {
    AcceptedOrderIsPermutation(roles, order);
    roles' := roles;
    for rank := 0 to |order|
      invariant RankedByPosition(roles, roles', order[..rank])
    {
      var id := order[rank];
      assert id in order;
      RankedOneMore(roles, roles', order[..rank], id);
      roles' := roles'[id := roles'[id].(rank := rank)];
      assert order[..rank] + [id] == order[..rank + 1];
    }
    assert order[..|order|] == order;
  }

  lemma RankedOneMore(roles: map<RoleId, Role>, roles': map<RoleId, Role>, ranked: seq<RoleId>, id: RoleId)
    requires RankedByPosition(roles, roles', ranked)
    requires id in roles && id !in ranked
    ensures RankedByPosition(roles, roles'[id := roles'[id].(rank := |ranked|)], ranked + [id])
  {}

  // ---- What an accepted order is

  lemma {:induction false} ElementCount(s: seq<RoleId>)
    ensures |Elements(s)| <= |s|
    ensures |Elements(s)| == |s| ==> NoDuplicates(s)
    ensures NoDuplicates(s) ==> |Elements(s)| == |s|
  {
    if s != [] {
      var front, x := s[..|s| - 1], s[|s| - 1];
      ElementCount(front);
      assert s == front + [x];
      assert Elements(s) == Elements(front) + {x};
      if x in front {
        assert Elements(s) == Elements(front);
        assert !NoDuplicates(s);
      } else {
        assert |Elements(s)| == |Elements(front)| + 1;
      }
    }
  }

  lemma SubsetOfSameSize(a: set<RoleId>, b: set<RoleId>)
    requires a <= b && |b| <= |a|
    ensures a == b
  {
    assert |b - a| == |b| - |a|;
  }

  /** Length and containment alone make an accepted order a permutation of the roles. */
  lemma AcceptedOrderIsPermutation(roles: map<RoleId, Role>, order: seq<RoleId>)
    requires NamesEveryRole(roles, order)
    ensures Enumerates(order, roles.Keys)
  {
    ElementCount(order);
    assert |roles| == |roles.Keys|;
    assert roles.Keys <= Elements(order);
    SubsetOfSameSize(roles.Keys, Elements(order));
  }

  lemma SameMultiset(a: seq<RoleId>, b: seq<RoleId>, keys: set<RoleId>)
    requires Enumerates(a, keys) && Enumerates(b, keys)
    ensures multiset(a) == multiset(b)
  {
    forall x
      ensures multiset(a)[x] == multiset(b)[x]
    {
      CountInEnumeration(a, x);
      CountInEnumeration(b, x);
      assert x in a <==> x in b;
    }
  }

  lemma {:induction false} CountInEnumeration(s: seq<RoleId>, x: RoleId)
    requires NoDuplicates(s)
    ensures multiset(s)[x] == if x in s then 1 else 0
  {
    if s != [] {
      var front := s[..|s| - 1];
      CountInEnumeration(front, x);
      SplitLast(s);
      assert s == front + [s[|s| - 1]];
      assert s[|s| - 1] !in front;
    }
  }

  /** After an accepted edit ranks are distinct and the roles read back in the requested order, in any iteration order. */
  lemma OrderIsReadBack(roles: map<RoleId, Role>, roles': map<RoleId, Role>, order: seq<RoleId>, h: HashOrder)
    requires NamesEveryRole(roles, order) && RankedByPosition(roles, roles', order) && IsHashOrder(h)
    ensures OrderedRoles(roles', h) == order
    ensures forall a, b :: a in roles' && b in roles' && a != b ==> roles'[a].rank != roles'[b].rank
  {
    AcceptedOrderIsPermutation(roles, order);
    var key, listed := RankOf(roles'), h(roles'.Keys);
    assert Enumerates(listed, roles'.Keys);
    SortedIsSorted(listed, key);
    SameMultiset(listed, order, roles.Keys);
    assert forall i :: 0 <= i < |order| ==> key(order[i]) == i;
    SortedIsUnique(order, Sorted(listed, key), key);
    RanksAreDistinct(roles', order);
  }

  lemma RanksAreDistinct(roles: map<RoleId, Role>, order: seq<RoleId>)
    requires forall id :: id in roles ==> id in order
    requires forall i :: 0 <= i < |order| ==> order[i] in roles && roles[order[i]].rank == i
    ensures forall a, b :: a in roles && b in roles && a != b ==> roles[a].rank != roles[b].rank
  {
    forall a, b | a in roles && b in roles && a != b
      ensures roles[a].rank != roles[b].rank
    {
      var i :| 0 <= i < |order| && order[i] == a;
      var j :| 0 <= j < |order| && order[j] == b;
    }
  }

  /** Permissions no longer depend on iteration order after an accepted edit. */
  lemma ReorderedRolesAreTieFree(server: Server, roles': map<RoleId, Role>, order: seq<RoleId>, h: HashOrder, member: Member,
                                 rolePermissions: map<RoleId, Override>)
    requires NamesEveryRole(server.roles, order) && RankedByPosition(server.roles, roles', order) && IsHashOrder(h)
    ensures TieFree(ServerGrants(server.(roles := roles'), member))
    ensures TieFree(ChannelGrants(server.(roles := roles'), member, rolePermissions))
  {
    OrderIsReadBack(server.roles, roles', order, h);
    DistinctRanksSuffice(server.(roles := roles'), member, rolePermissions);
  }

  lemma PermutationEnumerates(listed: seq<RoleId>, sorted: seq<RoleId>, keys: set<RoleId>)
    requires Enumerates(listed, keys) && multiset(sorted) == multiset(listed)
    ensures Enumerates(sorted, keys)
  {
    assert forall id :: id in sorted <==> id in multiset(sorted);
    assert forall id :: id in listed <==> id in multiset(listed);
    assert Elements(sorted) == Elements(listed);
    SameLength(sorted, listed);
    ElementCount(listed);
    ElementCount(sorted);
  }

  lemma OrderedRolesEnumerate(roles: map<RoleId, Role>, h: HashOrder)
    requires IsHashOrder(h)
    ensures Enumerates(OrderedRoles(roles, h), roles.Keys)
    ensures SortedBy(OrderedRoles(roles, h), RankOf(roles))
  {
    assert Enumerates(h(roles.Keys), roles.Keys);
    SortedIsSorted(h(roles.Keys), RankOf(roles));
    PermutationEnumerates(h(roles.Keys), OrderedRoles(roles, h), roles.Keys);
  }

  /** The number of locked roles at the front of an ordered list. */
  lemma {:induction false} LockedPrefix(roles: map<RoleId, Role>, top: Option<int>, existing: seq<RoleId>) returns (k: nat)
    requires forall id :: id in existing ==> id in roles
    requires SortedBy(existing, RankOf(roles))
    ensures k <= |existing|
    ensures forall i :: 0 <= i < |existing| ==> (i < k <==> Locked(roles, top, existing[i]))
  {
    if existing == [] {
      k := 0;
    } else if Locked(roles, top, existing[|existing| - 1]) {
      k := |existing|;
      forall i | 0 <= i < |existing|
        ensures Locked(roles, top, existing[i])
      {
        assert RankOf(roles)(existing[i]) <= RankOf(roles)(existing[|existing| - 1]);
      }
    } else {
      k := LockedPrefix(roles, top, existing[..|existing| - 1]);
    }
  }

  /**
    An editor who is not the owner leaves every role at or above their own rank
    where it was: those roles are a prefix of the old order, the prefix is
    unchanged, and the remaining roles are permuted behind it.
   */
  lemma LockedRolesStay(roles: map<RoleId, Role>, top: Option<int>, order: seq<RoleId>, h: HashOrder) returns (k: nat)
    requires IsHashOrder(h) && NamesEveryRole(roles, order)
    requires KeepsLocked(roles, top, OrderedRoles(roles, h), order)
    ensures var existing := OrderedRoles(roles, h);
            && k <= |existing| == |order|
            && (forall i :: 0 <= i < |existing| ==> existing[i] in roles && (i < k <==> Locked(roles, top, existing[i])))
            && order[..k] == existing[..k]
            && multiset(order[k..]) == multiset(existing[k..])
  {
    OrderedRolesEnumerate(roles, h);
    AcceptedOrderIsPermutation(roles, order);
    k := LockedPrefix(roles, top, OrderedRoles(roles, h));
    LockedPrefixStays(roles, top, OrderedRoles(roles, h), order, k);
  }

  lemma LockedPrefixStays(roles: map<RoleId, Role>, top: Option<int>, existing: seq<RoleId>, order: seq<RoleId>, k: nat)
    requires Enumerates(existing, roles.Keys) && Enumerates(order, roles.Keys)
    requires KeepsLocked(roles, top, existing, order)
    requires k <= |existing| && forall i :: 0 <= i < k ==> Locked(roles, top, existing[i])
    ensures |existing| == |order|
    ensures order[..k] == existing[..k]
    ensures multiset(order[k..]) == multiset(existing[k..])
  {
    SameMultiset(order, existing, roles.Keys);
    SameLength(order, existing);
    forall i | 0 <= i < k
      ensures order[i] == existing[i]
    {
      PositionOfElement(existing, i);
      assert existing[i] in roles.Keys;
    }
    SameSuffix(order, existing, k);
  }

  lemma SameLength(a: seq<RoleId>, b: seq<RoleId>)
    requires multiset(a) == multiset(b)
    ensures |a| == |b|
  {
    assert |a| == |multiset(a)| && |b| == |multiset(b)|;
  }

  lemma SameSuffix(a: seq<RoleId>, b: seq<RoleId>, k: nat)
    requires multiset(a) == multiset(b) && k <= |a| == |b|
    requires forall i :: 0 <= i < k ==> a[i] == b[i]
    ensures a[..k] == b[..k]
    ensures multiset(a[k..]) == multiset(b[k..])
  {
    assert a == a[..k] + a[k..] && b == b[..k] + b[k..];
    assert multiset(a[k..]) == multiset(a) - multiset(a[..k]);
    assert multiset(b[k..]) == multiset(b) - multiset(b[..k]);
  }

  lemma PositionOfElement(s: seq<RoleId>, i: nat)
    requires NoDuplicates(s) && i < |s|
    ensures Position(s, s[i]) == Some(i)
  {
    var j := Position(s, s[i]);
    assert s[i] in s;
  }
}
