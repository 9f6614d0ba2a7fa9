/** Permission calculation for many members of one server channel at once. */
module BulkPermissions {
  import opened Bits
  import opened Collections
  import opened Permissions
  import opened RoleOverrides
  import opened StableSort
  import opened Entities
  import opened PermissionQueries
  import opened Wrappers

  datatype Membership = Membership(user: UserId, member: Member)

  /** Memberships by user; a later entry for the same user replaces an earlier one. */
  function ByUser(members: seq<Membership>): map<UserId, Member> {
    if members == [] then map[]
    else ByUser(members[..|members| - 1])[members[|members| - 1].user := members[|members| - 1].member]
  }

  /** The server permissions the bulk calculator starts an ordinary member from. */
  ghost function BulkServerFlags(server: Server, member: Member, h: HashOrder): iset<bv64> {
    TimedOut(Folded(Flags(server.defaultPermissions),
                    Ordered(ServerGrants(server, member), h(server.roles.Keys))),
             member)
  }

  /** The permissions the bulk calculator reports for a user. */
  ghost function BulkFlags(server: Server, channel: Channel, user: User, member: Option<Member>, h: HashOrder): iset<bv64>
    requires channel.TextChannel?
  {
    match member
    case None => iset{}
    case Some(m) =>
      if user.privileged || user.id == server.owner then Flags(GRANT_ALL_SAFE)
      else
        Folded(Applied(BulkServerFlags(server, m, h), DefaultOverride(channel.defaultPermissions)),
               Ordered(ChannelGrants(server, m, channel.rolePermissions), h(channel.rolePermissions.Keys)))
  }

  method CalculateServerPermissions(server: Server, user: User, member: Member, h: HashOrder)
    returns (permissions: PermissionValue)
    ensures fresh(permissions)
    ensures permissions.Held() == if user.privileged || server.owner == user.id then Flags(GRANT_ALL_SAFE)
                                  else BulkServerFlags(server, member, h)
  {
    if user.privileged || server.owner == user.id {
      permissions := new PermissionValue(GRANT_ALL_SAFE);
      return;
    }
    permissions := new PermissionValue(server.defaultPermissions);
    var order := h(server.roles.Keys);
    var roles := Listed(ServerGrants(server, member), order);
    roles := Sorted(roles, DESCENDING);
    ApplyAll(permissions, OverridesOf(roles));
    if member.timedOut {
      permissions.Restrict(ALLOW_IN_TIMEOUT);
    }
  }

  /** One round of the loop over users. */
  method CalculateOne(server: Server, channel: Channel, members: map<UserId, Member>, user: User, h: HashOrder)
    returns (permission: bv64)
    requires channel.TextChannel?
    ensures Flags(permission) == BulkFlags(server, channel, user, Lookup(members, user.id), h)
  {
    if user.id !in members {
      FlagsOfZero();
      return 0;
    }
    var member := members[user.id];
    if user.privileged {
      return GRANT_ALL_SAFE;
    }
    if user.id == server.owner {
      return GRANT_ALL_SAFE;
    }
    var permissions := CalculateServerPermissions(server, user, member, h);
    ghost var serverFlags := permissions.Held();
    if channel.defaultPermissions.Some? {
      permissions.Apply(channel.defaultPermissions.value);
    } else {
      FlagsOfZero();
    }
    assert permissions.Held() == Applied(serverFlags, DefaultOverride(channel.defaultPermissions));
    var order := h(channel.rolePermissions.Keys);
    var roles := Listed(ChannelGrants(server, member, channel.rolePermissions), order);
    roles := Sorted(roles, DESCENDING);
    ApplyAll(permissions, OverridesOf(roles));
    return permissions.raw;
  }

  /** The last entry for user `id`, as the response map keeps it. */
  ghost predicate IsLastEntry(users: seq<User>, i: int) {
    && 0 <= i < |users|
    && (forall j :: i < j < |users| ==> users[j].id != users[i].id)
  }

  /** `resp` answers exactly for `users`, the last entry of each counting. */
  ghost predicate Answers(resp: map<UserId, bv64>, users: seq<User>, server: Server, channel: Channel,
                          members: map<UserId, Member>, h: HashOrder)
    requires channel.TextChannel?
  {
    && (forall id :: id in resp <==> exists i :: 0 <= i < |users| && users[i].id == id)
    && (forall i :: IsLastEntry(users, i) ==>
          Flags(resp[users[i].id]) == BulkFlags(server, channel, users[i], Lookup(members, users[i].id), h))
  }

  lemma AnswersOneMore(resp: map<UserId, bv64>, users: seq<User>, user: User, permission: bv64, server: Server,
                       channel: Channel, members: map<UserId, Member>, h: HashOrder)
    requires channel.TextChannel?
    requires Answers(resp, users, server, channel, members, h)
    requires Flags(permission) == BulkFlags(server, channel, user, Lookup(members, user.id), h)
    ensures Answers(resp[user.id := permission], users + [user], server, channel, members, h)
  {
    var users', resp' := users + [user], resp[user.id := permission];
    assert users'[|users|] == user;
    forall id
      ensures id in resp' <==> exists i :: 0 <= i < |users'| && users'[i].id == id
    {
      if i :| 0 <= i < |users| && users[i].id == id {
        assert users'[i].id == id;
      }
    }
    forall i | IsLastEntry(users', i)
      ensures Flags(resp'[users'[i].id]) == BulkFlags(server, channel, users'[i], Lookup(members, users'[i].id), h)
    {
      if i < |users| {
        assert IsLastEntry(users, i) by {
          forall j | i < j < |users| ensures users[j].id != users[i].id { assert users'[j] == users[j]; }
        }
      }
    }
  }

  /** The loop over users. */
  method CalculateAll(server: Server, channel: Channel, users: seq<User>, members: seq<Membership>, h: HashOrder)
    returns (resp: map<UserId, bv64>)
    requires channel.TextChannel?
    ensures Answers(resp, users, server, channel, ByUser(members), h)
  {
    var byUser := ByUser(members);
    resp := map[];
    for n := 0 to |users|
      invariant Answers(resp, users[..n], server, channel, byUser, h)
    {
      var permission := CalculateOne(server, channel, byUser, users[n], h);
      AnswersOneMore(resp, users[..n], users[n], permission, server, channel, byUser, h);
      assert users[..n] + [users[n]] == users[..n + 1];
      resp := resp[users[n].id := permission];
    }
    assert users[..|users|] == users;
  }

  // ---- Filling in a missing list from the database

  /** In the database every user is stored under their own id. */
  ghost predicate UsersKeyedById(database: Database) {
    forall id :: id in database.users ==> database.users[id].id == id
  }

  /** `found` are the stored users with the given ids, in some order. */
  ghost predicate AreFetched(found: seq<User>, ids: set<UserId>, database: Database) {
    && (forall i :: 0 <= i < |found| ==> found[i].id in ids && Lookup(database.users, found[i].id) == Some(found[i]))
    && (forall i, j :: 0 <= i < j < |found| ==> found[i].id != found[j].id)
    && (forall id :: id in ids && id in database.users ==> database.users[id] in found)
  }

  method FetchUsers(database: Database, ids: set<UserId>) returns (found: seq<User>)
    requires UsersKeyedById(database)
    ensures AreFetched(found, ids, database)
  {
    found := [];
    var rest := ids;
    while rest != {}
      invariant rest <= ids && AreFetched(found, ids - rest, database)
      decreases rest
    {
      var id :| id in rest;
      if id in database.users {
        found := found + [database.users[id]];
      }
      rest := rest - {id};
    }
    assert ids - rest == ids;
  }

  /** `found` are the stored memberships of the given users in the server. */
  ghost predicate AreFetchedMembers(found: seq<Membership>, server: ServerId, ids: set<UserId>, database: Database) {
    forall id :: Lookup(ByUser(found), id) == if id in ids then Lookup(database.members, (server, id)) else None
  }

  method FetchMembers(database: Database, server: ServerId, ids: set<UserId>) returns (found: seq<Membership>)
    ensures AreFetchedMembers(found, server, ids, database)
  {
    found := [];
    var rest := ids;
    while rest != {}
      invariant rest <= ids && AreFetchedMembers(found, server, ids - rest, database)
      decreases rest
    {
      var id :| id in rest;
      FetchedOneMore(found, server, ids - rest, id, database);
      assert ids - (rest - {id}) == ids - rest + {id};
      if (server, id) in database.members {
        found := found + [Membership(id, database.members[(server, id)])];
      }
      rest := rest - {id};
    }
    assert ids - rest == ids;
  }

  lemma FetchedOneMore(found: seq<Membership>, server: ServerId, ids: set<UserId>, id: UserId, database: Database)
    requires AreFetchedMembers(found, server, ids, database) && id !in ids
    ensures var found' := if (server, id) in database.members then found + [Membership(id, database.members[(server, id)])]
                          else found;
            AreFetchedMembers(found', server, ids + {id}, database)
  {
    if (server, id) in database.members {
      var found' := found + [Membership(id, database.members[(server, id)])];
      assert found'[..|found|] == found;
      assert ByUser(found') == ByUser(found)[id := database.members[(server, id)]];
    }
  }

  function IdsOfUsers(users: seq<User>): set<UserId> {
    set i | 0 <= i < |users| :: users[i].id
  }

  function IdsOfMembers(members: seq<Membership>): set<UserId> {
    set i | 0 <= i < |members| :: members[i].user
  }

  /** The query: users, members or both are given, and a missing list is fetched. */
  class BulkDatabasePermissionQuery {
    const database: Database
    const server: Server
    const channel: Channel
    var users: Option<seq<User>>
    var members: Option<seq<Membership>>

    constructor (database: Database, server: Server, channel: Channel, users: Option<seq<User>>, members: Option<seq<Membership>>)
      ensures this.database == database && this.server == server && this.channel == channel
      ensures this.users == users && this.members == members
    {
      this.database, this.server, this.channel := database, server, channel;
      this.users, this.members := users, members;
    }

    method FetchMissing()
      requires users.Some? || members.Some?
      requires UsersKeyedById(database)
      modifies this
      ensures users.Some? && members.Some?
      ensures old(users).Some? ==> users == old(users)
      ensures old(users).None? ==> AreFetched(users.value, IdsOfMembers(members.value), database)
      ensures old(members).Some? ==> members == old(members)
      ensures old(members).None? ==> AreFetchedMembers(members.value, server.id, IdsOfUsers(users.value), database)
    {
      if users.None? {
        var found := FetchUsers(database, IdsOfMembers(members.value));
        users := Some(found);
      }
      if members.None? {
        var found := FetchMembers(database, server.id, IdsOfUsers(users.value));
        members := Some(found);
      }
    }

    method CalculateMembersPermissions(h: HashOrder) returns (resp: map<UserId, bv64>)
      requires channel.TextChannel? && (users.Some? || members.Some?)
      requires UsersKeyedById(database)
      modifies this
      ensures users.Some? && members.Some?
      ensures old(users).Some? ==> users == old(users)
      ensures old(users).None? ==> AreFetched(users.value, IdsOfMembers(members.value), database)
      ensures old(members).Some? ==> members == old(members)
      ensures old(members).None? ==> AreFetchedMembers(members.value, server.id, IdsOfUsers(users.value), database)
      ensures Answers(resp, users.value, server, channel, ByUser(members.value), h)
    {
      FetchMissing();
      resp := CalculateAll(server, channel, users.value, members.value, h);
    }

    method MembersCanSeeChannel(h: HashOrder) returns (visible: map<UserId, bool>)
      requires channel.TextChannel? && (users.Some? || members.Some?)
      requires UsersKeyedById(database)
      modifies this
      ensures users.Some? && members.Some?
      ensures old(users).Some? ==> users == old(users)
      ensures old(users).None? ==> AreFetched(users.value, IdsOfMembers(members.value), database)
      ensures old(members).Some? ==> members == old(members)
      ensures old(members).None? ==> AreFetchedMembers(members.value, server.id, IdsOfUsers(users.value), database)
      ensures visible.Keys == IdsOfUsers(users.value)
      ensures forall i :: IsLastEntry(users.value, i) ==>
                (visible[users.value[i].id] <==>
                 VIEW_CHANNEL in BulkFlags(server, channel, users.value[i], Lookup(ByUser(members.value), users.value[i].id), h))
    {
      var permissions := CalculateMembersPermissions(h);
      visible := map id | id in permissions :: permissions[id] & VIEW_CHANNEL == VIEW_CHANNEL;
      forall id | id in permissions
        ensures visible[id] <==> VIEW_CHANNEL in Flags(permissions[id])
      {
        CoversIsSuperset(permissions[id], VIEW_CHANNEL);
        ViewFacts();
      }
    }
  }

  // ---- Agreement with the calculation for one user

  /** The flags a member loses by being muted or deafened. */
  ghost function VoiceLoss(member: Member): iset<bv64> {
    (if member.canPublish then iset{} else Flags(SPEAK) + Flags(VIDEO)) +
    (if member.canReceive then iset{} else Flags(LISTEN))
  }

  /** Two folds that start out differing only on `d` end so, in the same direction. */
  lemma {:induction false} FoldKeepsDifference(p: iset<bv64>, q: iset<bv64>, d: iset<bv64>, os: seq<Override>)
    requires p <= q <= p + d
    ensures Folded(p, os) <= Folded(q, os) <= Folded(p, os) + d
  {
    if os != [] {
      FoldKeepsDifference(p, q, d, os[..|os| - 1]);
    }
  }

  /** A query of the per-user calculator that selects, or will fetch, the server and the membership. */
  predicate QueryFor(q: Query, server: Server, channel: Channel, user: User, member: Member) {
    && q.perspective == user
    && q.channel == Some(channel)
    && channel.TextChannel?
    && q.WithServerOfChannel().server == Some(server)
    && q.WithServerOfChannel().FoundMember() == Some(member)
  }

  /** Before the gate, the two calculators differ only by timeout and voice restrictions. */
  lemma UngatedAgainstBulk(server: Server, channel: Channel, user: User, member: Member, h: HashOrder)
    requires channel.TextChannel? && !user.privileged && user.id != server.owner
    ensures member.timedOut ==>
              UngatedFlags(server, member, channel, h) ==
              BulkFlags(server, channel, user, Some(member), h) * Flags(ALLOW_IN_TIMEOUT)
    ensures !member.timedOut ==>
              UngatedFlags(server, member, channel, h)
              <= BulkFlags(server, channel, user, Some(member), h)
              <= UngatedFlags(server, member, channel, h) + VoiceLoss(member)
  {
    TimeoutMaskFacts();
    var overrides := Ordered(ChannelGrants(server, member, channel.rolePermissions), h(channel.rolePermissions.Keys));
    var one := MemberServerFlags(server, member, h);
    var bulk := BulkServerFlags(server, member, h);
    var default := DefaultOverride(channel.defaultPermissions);
    if member.timedOut {
      assert one == bulk;
    } else {
      assert one <= bulk <= one + VoiceLoss(member);
      FoldKeepsDifference(Applied(one, default), Applied(bulk, default), VoiceLoss(member), overrides);
    }
  }

  /**
    For every member of the server, whatever the iteration orders: both
    calculators agree on whether the channel is visible; an invisible channel
    leaves no permissions in the per-user result; a visible one leaves the bulk
    result, cut down to the timeout mask for a timed-out member and otherwise
    short of at most the voice flags lost to a mute or a deafen.
   */
  lemma BulkAgrees(q: Query, server: Server, channel: Channel, user: User, member: Member, h: HashOrder, h': HashOrder)
    requires QueryFor(q, server, channel, user, member)
    requires IsHashOrder(h) && IsHashOrder(h')
    requires TieFree(ServerGrants(server, member))
    requires TieFree(ChannelGrants(server, member, channel.rolePermissions))
    ensures var one, bulk := ChannelFlags(q, h), BulkFlags(server, channel, user, Some(member), h');
            && (VIEW_CHANNEL in one <==> VIEW_CHANNEL in bulk)
            && (VIEW_CHANNEL !in bulk ==> one == iset{})
            && (VIEW_CHANNEL in bulk && (user.privileged || user.id == server.owner) ==> one == bulk)
            && (VIEW_CHANNEL in bulk && !user.privileged && user.id != server.owner ==>
                  if member.timedOut then one == bulk * Flags(ALLOW_IN_TIMEOUT)
                  else one <= bulk <= one + VoiceLoss(member))
  {
    ViewFacts();
    if !user.privileged && user.id != server.owner {
      assert ChannelFlags(q, h) == MemberChannelFlags(server, member, channel, h);
      MembersAgree(server, channel, user, member, h, h');
    }
  }

  lemma MembersAgree(server: Server, channel: Channel, user: User, member: Member, h: HashOrder, h': HashOrder)
    requires channel.TextChannel? && !user.privileged && user.id != server.owner
    requires IsHashOrder(h) && IsHashOrder(h')
    requires TieFree(ServerGrants(server, member))
    requires TieFree(ChannelGrants(server, member, channel.rolePermissions))
    ensures var one, bulk := MemberChannelFlags(server, member, channel, h), BulkFlags(server, channel, user, Some(member), h');
            && (VIEW_CHANNEL in one <==> VIEW_CHANNEL in bulk)
            && (VIEW_CHANNEL !in bulk ==> one == iset{})
            && (VIEW_CHANNEL in bulk ==>
                  if member.timedOut then one == bulk * Flags(ALLOW_IN_TIMEOUT) else one <= bulk <= one + VoiceLoss(member))
  {
    ViewFacts();
    TimeoutMaskFacts();
    MemberFlagsIgnoreOrder(server, member, channel, h, h');
    UngatedAgainstBulk(server, channel, user, member, h');
  }

  /**
    End to end, with everything looked up in the same database: the bulk verdict
    on a listed user is the per-user one, exactly unless the user is no member
    but privileged or the owner.
   */
  lemma BulkVerdictIsPerUser(database: Database, server: Server, channel: Channel, user: User, ids: set<UserId>,
                             members: seq<Membership>, h: HashOrder, h': HashOrder)
    requires channel.TextChannel? && server.id == channel.server && Lookup(database.servers, channel.server) == Some(server)
    requires user.id in ids && AreFetchedMembers(members, server.id, ids, database)
    requires IsHashOrder(h) && IsHashOrder(h')
    requires forall member :: Lookup(database.members, (server.id, user.id)) == Some(member) ==>
               TieFree(ServerGrants(server, member)) && TieFree(ChannelGrants(server, member, channel.rolePermissions))
    ensures var q := Query(database, user, None, Some(channel), None, None, None);
            var bulk := BulkFlags(server, channel, user, Lookup(ByUser(members), user.id), h');
            (VIEW_CHANNEL in ChannelFlags(q, h) <==> VIEW_CHANNEL in bulk) <==>
            (server.id, user.id) in database.members || !(user.privileged || user.id == server.owner)
  {
    var q := Query(database, user, None, Some(channel), None, None, None);
    ViewFacts();
    match Lookup(database.members, (server.id, user.id))
    case Some(member) => BulkAgrees(q, server, channel, user, member, h, h');
    case None =>
  }
}
