/** Whether a connection's cached server follows the stored one through the events that edits publish. */
module CacheAgreement {
  import opened Collections
  import opened Permissions
  import opened RoleOverrides
  import opened Entities
  import opened RoleOrdering
  import opened ClientState
  import opened Wrappers

  /** Everything that changes a stored server; `roles` is the role table a reordering leaves. */
  datatype Edit =
    | UpdateServer(update: PartialServer)
    | EditRole(id: string, rank: Option<int>, permissions: Option<Override>)
    | CreateRole(id: string, role: Role)
    | DeleteRole(id: string)
    | Reorder(order: seq<RoleId>, roles: map<RoleId, Role>)
    | DeleteChannel(id: string)
    | DeleteServer

  /** What the routes guarantee of an edit they carry out; a new role has a fresh id. */
  ghost predicate Possible(store: Option<Server>, edit: Edit) {
    store.Some? &&
    match edit
    case EditRole(id, _, _) => id in store.value.roles
    case CreateRole(id, _) => id !in store.value.roles
    case Reorder(order, roles) =>
      NamesEveryRole(store.value.roles, order) && RankedByPosition(store.value.roles, roles, order)
    case _ => true
  }

  /** A list without any occurrence of an id. */
  function Without(ids: seq<ChannelId>, id: ChannelId): seq<ChannelId> {
    if ids == [] then []
    else
      var last := ids[|ids| - 1];
      Without(ids[..|ids| - 1], id) + (if last == id then [] else [last])
  }

  lemma {:induction false} WithoutIsSameIff(ids: seq<ChannelId>, id: ChannelId)
    ensures |Without(ids, id)| <= |ids|
    ensures |Without(ids, id)| == |ids| ==> id !in ids
    ensures Without(ids, id) == ids <==> id !in ids
  {
    if ids != [] {
      WithoutIsSameIff(ids[..|ids| - 1], id);
      assert ids == ids[..|ids| - 1] + [ids[|ids| - 1]];
    }
  }

  ghost function StoredAfter(store: Option<Server>, edit: Edit): Option<Server>
    requires Possible(store, edit)
  {
    var server := store.value;
    match edit
    case UpdateServer(update) => Some(WithUpdate(server, update))
    case EditRole(id, rank, permissions) => Some(WithRole(server, id, rank, permissions))
    case CreateRole(id, role) => Some(server.(roles := server.roles[id := role]))
    case DeleteRole(id) => Some(server.(roles := server.roles - {id}))
    case Reorder(_, roles) => Some(server.(roles := roles))
    case DeleteChannel(id) => Some(server.(channels := Without(server.channels, id)))
    case DeleteServer => None
  }

  function Published(target: ServerId, edit: Edit): Event {
    match edit
    case UpdateServer(update) => ServerUpdate(target, update)
    case EditRole(id, rank, permissions) => ServerRoleUpdate(target, id, rank, permissions)
    case CreateRole(id, role) => ServerRoleUpdate(target, id, Some(role.rank), Some(role.permissions))
    case DeleteRole(id) => ServerRoleDelete(target, id)
    case Reorder(order, _) => ServerRoleRanksUpdate(target, order)
    case DeleteChannel(id) => ChannelDelete(id)
    case DeleteServer => ServerDelete(target)
  }

  /**
    The edits a cache can follow: no new role, no reordering that moves a role,
    and no deletion of a channel that the server lists.
   */
  ghost predicate Followable(server: Server, edit: Edit) {
    match edit
    case CreateRole(_, _) => false
    case Reorder(order, _) => forall i :: 0 <= i < |order| ==> order[i] in server.roles && server.roles[order[i]].rank == i
    case DeleteChannel(id) => id !in server.channels
    case _ => true
  }

  lemma UnmovedRoles(roles: map<RoleId, Role>, roles': map<RoleId, Role>, order: seq<RoleId>)
    requires NamesEveryRole(roles, order) && RankedByPosition(roles, roles', order)
    ensures roles' == roles <==> forall i :: 0 <= i < |order| ==> order[i] in roles && roles[order[i]].rank == i
  {
    if forall i :: 0 <= i < |order| ==> order[i] in roles && roles[order[i]].rank == i {
      forall id | id in roles
        ensures roles'[id] == roles[id]
      {
        var i :| 0 <= i < |order| && order[i] == id;
      }
    }
  }

  /** Events about channels and the order of roles leave every cached server alone, and so do updates of unknown roles. */
  lemma Ignored(c: Cache, target: ServerId, server: Server, edit: Edit, me: UserId, database: Database)
    requires Lookup(c.servers, target) == Some(server) && Possible(Some(server), edit)
    requires edit.CreateRole? || edit.Reorder? || edit.DeleteChannel?
    ensures AfterEvent(c, Published(target, edit), me, database).servers == c.servers
  {}

  lemma SimpleEditIsFollowed(c: Cache, target: ServerId, server: Server, edit: Edit, me: UserId, database: Database)
    requires Lookup(c.servers, target) == Some(server) && Possible(Some(server), edit)
    requires !edit.CreateRole? && !edit.Reorder? && !edit.DeleteChannel?
    ensures Lookup(AfterEvent(c, Published(target, edit), me, database).servers, target) == StoredAfter(Some(server), edit)
  {}

  /** A cached server equal to the stored one is equal again after the edit and its event exactly for those edits. */
  lemma EditIsFollowedIff(c: Cache, target: ServerId, server: Server, edit: Edit, me: UserId, database: Database)
    requires Lookup(c.servers, target) == Some(server) && Possible(Some(server), edit)
    ensures Lookup(AfterEvent(c, Published(target, edit), me, database).servers, target) == StoredAfter(Some(server), edit) <==>
            Followable(server, edit)
  {
    match edit
    case Reorder(order, roles) =>
      Ignored(c, target, server, edit, me, database);
      UnmovedRoles(server.roles, roles, order);
    case CreateRole(id, role) =>
      Ignored(c, target, server, edit, me, database);
      assert id in StoredAfter(Some(server), edit).value.roles;
    case DeleteChannel(id) =>
      Ignored(c, target, server, edit, me, database);
      WithoutIsSameIff(server.channels, id);
    case _ => SimpleEditIsFollowed(c, target, server, edit, me, database);
  }

  /** The stored server after edits, gone or not, if each is possible and can be followed in its turn. */
  ghost function Stored(server: Server, edits: seq<Edit>): Option<Option<Server>> {
    if edits == [] then Some(Some(server))
    else
      match Stored(server, edits[..|edits| - 1])
      case None => None
      case Some(store) =>
        var edit := edits[|edits| - 1];
        if Possible(store, edit) && Followable(store.value, edit) then Some(StoredAfter(store, edit)) else None
  }

  function Received(c: Cache, target: ServerId, edits: seq<Edit>, me: UserId, database: Database): Cache {
    if edits == [] then c
    else AfterEvent(Received(c, target, edits[..|edits| - 1], me, database), Published(target, edits[|edits| - 1]), me, database)
  }

  /** Through every run of such edits the cached server equals the stored one. */
  lemma {:induction false} CacheFollowsStore(c: Cache, target: ServerId, server: Server, edits: seq<Edit>, me: UserId,
                                             database: Database)
    requires Lookup(c.servers, target) == Some(server) && Stored(server, edits).Some?
    ensures Lookup(Received(c, target, edits, me, database).servers, target) == Stored(server, edits).value
  {
    if edits != [] {
      var front := edits[..|edits| - 1];
      CacheFollowsStore(c, target, server, front, me, database);
      EditIsFollowedIff(Received(c, target, front, me, database), target, Stored(server, front).value.value, edits[|edits| - 1],
                        me, database);
    }
  }

  // ---- The three kinds of edit that a cache misses

  const TWO_ROLES := map["a" := Role(NO_OVERRIDE, 0), "b" := Role(NO_OVERRIDE, 1)]
  const SWAPPED := map["a" := Role(NO_OVERRIDE, 1), "b" := Role(NO_OVERRIDE, 0)]
  const SMALL_SERVER := Server("s", "owner", ["c"], TWO_ROLES, 0)

  const SWAP := Reorder(["b", "a"], SWAPPED)
  const NEW_ROLE := CreateRole("n", Role(NO_OVERRIDE, 2))
  const LISTED_CHANNEL := DeleteChannel("c")

  lemma SwapIsPossible()
    ensures Possible(Some(SMALL_SERVER), SWAP) && !Followable(SMALL_SERVER, SWAP)
  {
    assert |TWO_ROLES| == 2;
    assert ["b", "a"][0] == "b" && ["b", "a"][1] == "a";
    assert TWO_ROLES["b"].rank == 1;
  }

  ghost predicate IsMissed(c: Cache, target: ServerId, server: Server, edit: Edit, me: UserId, database: Database) {
    Possible(Some(server), edit) &&
    Lookup(AfterEvent(c, Published(target, edit), me, database).servers, target) != StoredAfter(Some(server), edit)
  }

  /** Swapping two roles, creating one, and deleting a listed channel leave the cache behind the store. */
  lemma ThreeEditsAreMissed(c: Cache, me: UserId, database: Database)
    requires Lookup(c.servers, "s") == Some(SMALL_SERVER)
    ensures IsMissed(c, "s", SMALL_SERVER, SWAP, me, database)
    ensures IsMissed(c, "s", SMALL_SERVER, NEW_ROLE, me, database)
    ensures IsMissed(c, "s", SMALL_SERVER, LISTED_CHANNEL, me, database)
  {
    SwapIsPossible();
    EditIsFollowedIff(c, "s", SMALL_SERVER, SWAP, me, database);
    EditIsFollowedIff(c, "s", SMALL_SERVER, NEW_ROLE, me, database);
    assert SMALL_SERVER.channels[0] == "c";
    EditIsFollowedIff(c, "s", SMALL_SERVER, LISTED_CHANNEL, me, database);
  }
}
