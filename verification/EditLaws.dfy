/** When the routes accept an edit, with which error they refuse it, and what they store, from the stored data alone. */
module EditLaws {
  import opened Bits
  import opened Collections
  import opened Permissions
  import opened RoleOverrides
  import opened Entities
  import opened PermissionQueries
  import opened PermissionEdits
  import opened RoleOrdering
  import opened PermissionLaws
  import opened Wrappers

  /** An editor who is neither privileged nor the owner, and their stored membership. */
  ghost predicate IsOrdinary(database: Database, user: User, server: Server, member: Member) {
    && !user.privileged && server.owner != user.id
    && (server.id, user.id) in database.members && database.members[(server.id, user.id)] == member
  }

  /** What the editor holds in a server: the stored membership's permissions. */
  lemma OrdinaryEditorHolds(database: Database, user: User, server: Server, member: Member, h: HashOrder)
    requires IsOrdinary(database, user, server, member)
    ensures ServerFlags(ServerQuery(database, user, server), h) == MemberServerFlags(server, member, h)
  {
    ServerStanding(ServerQuery(database, user, server), Some(member), h);
  }

  /** One of the member's roles ranks above the role. */
  ghost predicate Outranks(server: Server, member: Member, id: RoleId)
    requires id in server.roles
  {
    exists held :: held in member.roles && held in server.roles && server.roles[held].rank < server.roles[id].rank
  }

  ghost predicate RanksFit(server: Server) {
    forall id :: id in server.roles ==> -0x8000_0000_0000_0000 <= server.roles[id].rank <= 0x7FFF_FFFF_FFFF_FFFF
  }

  /** The rank the code compares with: above it are the roles that some held role outranks. */
  lemma RankIsOutranking(database: Database, user: User, server: Server, member: Member, id: RoleId)
    requires IsOrdinary(database, user, server, member) && RanksFit(server) && id in server.roles
    ensures EditorRank(database, user, server).Some?
    ensures server.roles[id].rank > EditorRank(database, user, server).value <==> Outranks(server, member, id)
  {
    RankingIsLeast(member.roles, server);
    assert AfterServerCalculation(ServerQuery(database, user, server)).member == Some(member);
  }

  // ---- The override of a role

  /** Every newly allowed flag, and every flag no longer denied, is one the editor holds. */
  ghost predicate GivesOnlyHeld(held: iset<bv64>, current: Override, next: Override) {
    forall m :: m !in held ==>
      (m in Flags(next.allow) ==> m in Flags(current.allow)) && (m in Flags(current.deny) ==> m in Flags(next.deny))
  }

  /** The answer to an ordinary editor, in the order of the checks. */
  lemma RoleEditAnswer(database: Database, user: User, target: ServerId, id: RoleId, next: Override, h: HashOrder, member: Member)
    requires target in database.servers && id in database.servers[target].roles
    requires IsOrdinary(database, user, database.servers[target], member) && RanksFit(database.servers[target])
    ensures var server := database.servers[target];
            var held := MemberServerFlags(server, member, h);
            RoleEditRefusal(database, user, target, id, next, h) ==
              if MANAGE_PERMISSIONS !in held then Some(MissingPermission)
              else if !Outranks(server, member, id) then Some(NotElevated)
              else if !GivesOnlyHeld(held, server.roles[id].permissions, next) then Some(CannotGiveMissingPermissions)
              else None
  {
    var server := database.servers[target];
    OrdinaryEditorHolds(database, user, server, member, h);
    RankIsOutranking(database, user, server, member, id);
    GrantByFlag(MemberServerFlags(server, member, h), server.roles[id].permissions, next);
    FlagsOfFlag(MANAGE_PERMISSIONS);
  }

  /** The owner and privileged users may edit every role but one at the least possible rank, giving what is safe. */
  lemma RoleEditByOwner(database: Database, user: User, target: ServerId, id: RoleId, next: Override, h: HashOrder)
    requires target in database.servers && id in database.servers[target].roles && RanksFit(database.servers[target])
    requires user.privileged || database.servers[target].owner == user.id
    ensures var role := database.servers[target].roles[id];
            RoleEditRefusal(database, user, target, id, next, h) ==
              if role.rank == -0x8000_0000_0000_0000 then Some(NotElevated)
              else if !GivesOnlyHeld(Flags((1 << 52) - 1), role.permissions, next) then Some(CannotGiveMissingPermissions)
              else None
  {
    var server := database.servers[target];
    ServerStanding(ServerQuery(database, user, server), Lookup(database.members, (server.id, user.id)), h);
    FlagPositions();
    GrantByFlag(Flags(GRANT_ALL_SAFE), server.roles[id].permissions, next);
    CoversIsSuperset(GRANT_ALL_SAFE, MANAGE_PERMISSIONS);
  }

  /** Strangers are refused, and so are edits of what does not exist. */
  lemma RoleEditByStranger(database: Database, user: User, target: ServerId, id: RoleId, next: Override, h: HashOrder)
    ensures target !in database.servers || id !in database.servers[target].roles <==>
            RoleEditRefusal(database, user, target, id, next, h) == Some(NotFound)
    ensures target in database.servers && id in database.servers[target].roles && !user.privileged
            && database.servers[target].owner != user.id
            && (database.servers[target].id, user.id) !in database.members ==>
              RoleEditRefusal(database, user, target, id, next, h) == Some(MissingPermission)
  {
    FlagsOfFlag(MANAGE_PERMISSIONS);
  }

  /** What is stored: the role's override, and nothing else. */
  lemma StoredRoleEdit(server: Server, id: RoleId, next: Override)
    requires id in server.roles
    ensures var server' := WithRolePermissions(server, id, next);
            && server'.roles.Keys == server.roles.Keys
            && server'.roles[id].permissions == next && server'.roles[id].rank == server.roles[id].rank
            && (forall other :: other in server.roles && other != id ==> server'.roles[other] == server.roles[other])
            && server'.id == server.id && server'.owner == server.owner && server'.channels == server.channels
            && server'.defaultPermissions == server.defaultPermissions
  {}

  // ---- Defaults

  /** The default of a server takes only what the editor holds. */
  lemma ServerDefaultAnswer(database: Database, user: User, target: ServerId, permissions: bv64, h: HashOrder)
    ensures target !in database.servers <==> ServerDefaultRefusal(database, user, target, permissions, h) == Some(NotFound)
    ensures target in database.servers ==>
              var held := ServerFlags(ServerQuery(database, user, database.servers[target]), h);
              ServerDefaultRefusal(database, user, target, permissions, h) ==
                if MANAGE_PERMISSIONS !in held then Some(MissingPermission)
                else if exists m :: m in Flags(permissions) && m !in held then Some(CannotGiveMissingPermissions)
                else None
  {
    FlagsOfFlag(MANAGE_PERMISSIONS);
    if target in database.servers {
      var held := ServerFlags(ServerQuery(database, user, database.servers[target]), h);
      GrantByFlag(held, NO_OVERRIDE, Override(permissions, 0));
    }
  }

  /** The default of a group takes any value, that of a server channel an override that gives only what the editor holds. */
  lemma ChannelDefaultAnswer(database: Database, user: User, target: ChannelId, data: DataDefaultChannelPermissions, h: HashOrder)
    requires ChannelHasRecipient(database, user, target)
    ensures target !in database.channels <==> ChannelDefaultRefusal(database, user, target, data, h) == Some(NotFound)
    ensures target in database.channels ==>
              var channel := database.channels[target];
              var held := ChannelFlags(ChannelQuery(database, user, channel), h);
              ChannelDefaultRefusal(database, user, target, data, h) ==
                if MANAGE_PERMISSIONS !in held then Some(MissingPermission)
                else if !(channel.Group? && data.Value?) && !(channel.TextChannel? && data.Field?) then Some(InvalidOperation)
                else if channel.TextChannel? && channel.defaultPermissions.Some?
                        && !GivesOnlyHeld(held, channel.defaultPermissions.value, data.override) then Some(CannotGiveMissingPermissions)
                else if channel.TextChannel? && channel.defaultPermissions.None?
                        && exists m :: m in Flags(data.override.allow) && m !in held then Some(CannotGiveMissingPermissions)
                else None
  {
    FlagsOfFlag(MANAGE_PERMISSIONS);
    if target in database.channels && database.channels[target].TextChannel? && data.Field? {
      var channel := database.channels[target];
      GrantByFlag(ChannelFlags(ChannelQuery(database, user, channel), h), DefaultOverride(channel.defaultPermissions), data.override);
    }
  }

  /** What is stored: the group's permissions or the channel's default override, and nothing else. */
  lemma StoredChannelDefault(channel: Channel, data: DataDefaultChannelPermissions)
    ensures channel.Group? && data.Value? ==>
              WithChannelDefault(channel, data) == Group(channel.id, channel.owner, channel.recipients, Some(data.permissions))
    ensures channel.TextChannel? && data.Field? ==>
              WithChannelDefault(channel, data) ==
              TextChannel(channel.id, channel.server, Some(data.override), channel.rolePermissions)
  {}

  /** The queries of the routes select the edited server or channel and nothing else. */
  lemma RouteQueries(database: Database, user: User, server: Server, channel: Channel)
    ensures var q := ServerQuery(database, user, server);
            q.database == database && q.perspective == user && q.server == Some(server) &&
            q.member.None? && q.channel.None? && q.user.None? && q.mutualConnection.None?
    ensures var q := ChannelQuery(database, user, channel);
            q.database == database && q.perspective == user && q.channel == Some(channel) &&
            q.member.None? && q.server.None? && q.user.None? && q.mutualConnection.None?
  {}

  // ---- The order of roles

  lemma {:induction false} FirstPosition(s: seq<RoleId>, id: RoleId)
    ensures id !in s <==> Position(s, id) == None
    ensures id in s ==> Position(s, id).Some? && Position(s, id).value < |s| && s[Position(s, id).value] == id
                        && forall j :: 0 <= j < Position(s, id).value ==> s[j] != id
  {
    if s != [] {
      FirstPosition(s[..|s| - 1], id);
      assert s == s[..|s| - 1] + [s[|s| - 1]];
    }
  }

  /** The two lists name the role at the same place. */
  ghost predicate SamePlace(a: seq<RoleId>, b: seq<RoleId>, id: RoleId) {
    |a| == |b| && forall i :: 0 <= i < |a| ==> (a[i] == id <==> b[i] == id)
  }

  lemma SamePositionIsSamePlace(a: seq<RoleId>, b: seq<RoleId>, keys: set<RoleId>, id: RoleId)
    requires Enumerates(a, keys) && Enumerates(b, keys) && id in keys
    ensures Position(a, id) == Position(b, id) <==> SamePlace(a, b, id)
  {
    FirstPosition(a, id);
    FirstPosition(b, id);
    SameMultiset(a, b, keys);
    SameLength(a, b);
    var i, j := Position(a, id).value, Position(b, id).value;
    assert forall k :: 0 <= k < |a| && a[k] == id ==> k == i;
    assert forall k :: 0 <= k < |b| && b[k] == id ==> k == j;
  }

  /** No held role ranks above the role, so an ordinary editor may not move it. */
  ghost predicate MustStay(server: Server, member: Member, id: RoleId)
    requires id in server.roles
  {
    !Outranks(server, member, id)
  }

  /** The answer to an ordinary editor: every role named once, and those they do not outrank left at their places. */
  lemma ReorderAnswer(database: Database, user: User, target: ServerId, order: seq<RoleId>, h: HashOrder, member: Member)
    requires target in database.servers && IsHashOrder(h)
    requires IsOrdinary(database, user, database.servers[target], member) && RanksFit(database.servers[target])
    ensures var server := database.servers[target];
            ReorderRefusal(database, user, target, order, h) ==
              if MANAGE_ROLE !in MemberServerFlags(server, member, h) then Some(MissingPermission)
              else if |order| != |server.roles| || exists id :: id in server.roles && id !in order then Some(InvalidOperation)
              else if exists id :: id in server.roles && MustStay(server, member, id) &&
                                   !SamePlace(OrderedRoles(server.roles, h), order, id) then Some(NotElevated)
              else None
  {
    var server := database.servers[target];
    OrdinaryEditorHolds(database, user, server, member, h);
    FlagsOfFlag(MANAGE_ROLE);
    if NamesEveryRole(server.roles, order) {
      LockedStay(database, user, server, order, h, member);
    }
  }

  lemma LockedStay(database: Database, user: User, server: Server, order: seq<RoleId>, h: HashOrder, member: Member)
    requires IsHashOrder(h) && IsOrdinary(database, user, server, member) && RanksFit(server)
    requires NamesEveryRole(server.roles, order)
    ensures KeepsLocked(server.roles, EditorRank(database, user, server), OrderedRoles(server.roles, h), order) <==>
            forall id :: id in server.roles && MustStay(server, member, id) ==> SamePlace(OrderedRoles(server.roles, h), order, id)
  {
    AcceptedOrderIsPermutation(server.roles, order);
    OrderedRolesEnumerate(server.roles, h);
    var existing, top := OrderedRoles(server.roles, h), EditorRank(database, user, server);
    forall id | id in server.roles
      ensures Locked(server.roles, top, id) <==> MustStay(server, member, id)
      ensures Position(existing, id) == Position(order, id) <==> SamePlace(existing, order, id)
    {
      RankIsOutranking(database, user, server, member, id);
      SamePositionIsSamePlace(existing, order, server.roles.Keys, id);
    }
  }

  /** The owner may choose any order; a privileged user who is not the owner, none but the present one. */
  lemma ReorderByOwner(database: Database, user: User, target: ServerId, order: seq<RoleId>, h: HashOrder)
    requires target in database.servers && IsHashOrder(h)
    requires user.privileged || database.servers[target].owner == user.id
    ensures var server := database.servers[target];
            ReorderRefusal(database, user, target, order, h) ==
              if |order| != |server.roles| || exists id :: id in server.roles && id !in order then Some(InvalidOperation)
              else if server.owner != user.id && order != OrderedRoles(server.roles, h) then Some(NotElevated)
              else None
  {
    var server := database.servers[target];
    ServerStanding(ServerQuery(database, user, server), Lookup(database.members, (server.id, user.id)), h);
    FlagPositions();
    CoversIsSuperset(GRANT_ALL_SAFE, MANAGE_ROLE);
    if NamesEveryRole(server.roles, order) && server.owner != user.id {
      assert EditorRank(database, user, server) == None;
      SamePositionsSameOrder(server.roles, OrderedRoles(server.roles, h), order, h);
    }
  }

  lemma SamePositionsSameOrder(roles: map<RoleId, Role>, existing: seq<RoleId>, order: seq<RoleId>, h: HashOrder)
    requires IsHashOrder(h) && existing == OrderedRoles(roles, h) && NamesEveryRole(roles, order)
    ensures KeepsLocked(roles, None, existing, order) <==> order == existing
  {
    AcceptedOrderIsPermutation(roles, order);
    OrderedRolesEnumerate(roles, h);
    SameMultiset(existing, order, roles.Keys);
    SameLength(existing, order);
    if KeepsLocked(roles, None, existing, order) {
      forall i | 0 <= i < |existing|
        ensures order[i] == existing[i]
      {
        assert existing[i] in roles.Keys;
        assert Locked(roles, None, existing[i]);
        SamePositionIsSamePlace(existing, order, roles.Keys, existing[i]);
      }
    }
  }

  /** Strangers are refused, and so are orders for a server that does not exist. */
  lemma ReorderByStranger(database: Database, user: User, target: ServerId, order: seq<RoleId>, h: HashOrder)
    ensures target !in database.servers <==> ReorderRefusal(database, user, target, order, h) == Some(NotFound)
    ensures target in database.servers && !user.privileged && database.servers[target].owner != user.id
            && (database.servers[target].id, user.id) !in database.members ==>
              ReorderRefusal(database, user, target, order, h) == Some(MissingPermission)
  {
    FlagsOfFlag(MANAGE_ROLE);
  }
}
