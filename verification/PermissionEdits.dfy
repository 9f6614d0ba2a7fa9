/** The routes that edit role overrides and default permissions, and what members can gain from them. */
module PermissionEdits {
  import opened Bits
  import opened Permissions
  import opened RoleOverrides
  import opened StableSort
  import opened Entities
  import opened PermissionQueries
  import opened Wrappers

  const I64_MAX := 0x7FFF_FFFF_FFFF_FFFF
  const I64_MIN := -0x8000_0000_0000_0000

  /** The smallest rank among the roles `roles` of the server. */
  function Ranking(roles: seq<RoleId>, server: Server): int {
    if roles == [] then I64_MAX
    else
      var id, above := roles[|roles| - 1], Ranking(roles[..|roles| - 1], server);
      if id in server.roles && server.roles[id].rank < above then server.roles[id].rank else above
  }

  lemma {:induction false} RankingIsLeast(roles: seq<RoleId>, server: Server)
    ensures forall id :: id in roles && id in server.roles ==> Ranking(roles, server) <= server.roles[id].rank
    ensures Ranking(roles, server) == I64_MAX ||
            exists id :: id in roles && id in server.roles && server.roles[id].rank == Ranking(roles, server)
  {
    if roles != [] {
      RankingIsLeast(roles[..|roles| - 1], server);
      assert roles == roles[..|roles| - 1] + [roles[|roles| - 1]];
    }
  }

  method GetRanking(member: Member, server: Server) returns (value: int)
    ensures value == Ranking(member.roles, server)
  {
    value := I64_MAX;
    for i := 0 to |member.roles|
      invariant value == Ranking(member.roles[..i], server)
    {
      assert member.roles[..i + 1][..i] == member.roles[..i];
      var id := member.roles[i];
      if id in server.roles {
        if server.roles[id].rank < value {
          value := server.roles[id].rank;
        }
      }
    }
    assert member.roles[..|member.roles|] == member.roles;
  }

  datatype DataDefaultChannelPermissions = Value(permissions: bv64) | Field(override: Override)

  function ServerQuery(database: Database, user: User, server: Server): Query {
    Query(database, user, None, None, Some(server), None, None)
  }

  function ChannelQuery(database: Database, user: User, channel: Channel): Query {
    Query(database, user, None, Some(channel), None, None, None)
  }

  /** The editor's rank as the query knows it after calculating permissions. */
  function EditorRank(database: Database, user: User, server: Server): Option<int> {
    match AfterServerCalculation(ServerQuery(database, user, server)).member
    case None => None
    case Some(m) => Some(Ranking(m.roles, server))
  }

  function WithRolePermissions(server: Server, id: RoleId, permissions: Override): Server
    requires id in server.roles
  {
    server.(roles := server.roles[id := server.roles[id].(permissions := permissions)])
  }

  // ---- The guards: the error a request is refused with, or none

  ghost function RoleEditRefusal(database: Database, user: User, target: ServerId, id: RoleId, next: Override,
                                 h: HashOrder): Option<Error>
  {
    if target !in database.servers || id !in database.servers[target].roles then Some(NotFound)
    else
      var server := database.servers[target];
      var held := ServerFlags(ServerQuery(database, user, server), h);
      var rank := match EditorRank(database, user, server) case None => I64_MIN case Some(r) => r;
      if !(Flags(MANAGE_PERMISSIONS) <= held) then Some(MissingPermission)
      else if server.roles[id].rank <= rank then Some(NotElevated)
      else if !MayGrant(held, Some(server.roles[id].permissions), next) then Some(CannotGiveMissingPermissions)
      else None
  }

  ghost function ServerDefaultRefusal(database: Database, user: User, target: ServerId, permissions: bv64,
                                      h: HashOrder): Option<Error>
  {
    if target !in database.servers then Some(NotFound)
    else
      var held := ServerFlags(ServerQuery(database, user, database.servers[target]), h);
      if !(Flags(MANAGE_PERMISSIONS) <= held) then Some(MissingPermission)
      else if !MayGrant(held, None, Override(permissions, 0)) then Some(CannotGiveMissingPermissions)
      else None
  }

  ghost predicate ChannelHasRecipient(database: Database, user: User, target: ChannelId) {
    target in database.channels ==> HasRecipient(ChannelQuery(database, user, database.channels[target]))
  }

  ghost function ChannelDefaultRefusal(database: Database, user: User, target: ChannelId,
                                       data: DataDefaultChannelPermissions, h: HashOrder): Option<Error>
    requires ChannelHasRecipient(database, user, target)
  {
    if target !in database.channels then Some(NotFound)
    else
      var channel := database.channels[target];
      var held := ChannelFlags(ChannelQuery(database, user, channel), h);
      if !(Flags(MANAGE_PERMISSIONS) <= held) then Some(MissingPermission)
      else
        match channel
        case Group(_, _, _, _) => if data.Value? then None else Some(InvalidOperation)
        case TextChannel(_, _, default, _) =>
          if !data.Field? then Some(InvalidOperation)
          else if !MayGrant(held, default, data.override) then Some(CannotGiveMissingPermissions)
          else None
        case _ => Some(InvalidOperation)
  }

  function WithChannelDefault(channel: Channel, data: DataDefaultChannelPermissions): Channel {
    match (channel, data)
    case (Group(_, _, _, _), Value(v)) => channel.(permissions := Some(v))
    case (TextChannel(_, _, _, _), Field(o)) => channel.(defaultPermissions := Some(o))
    case _ => channel
  }

  // ---- The routes

  class Routes {
    var database: Database

    constructor (database: Database)
      ensures this.database == database
    {
      this.database := database;
    }

    /** Set the server-wide override of one role. */
    method SetRolePermission(user: User, target: ServerId, id: RoleId, next: Override, h: HashOrder)
      returns (r: Result<Server>)
      modifies this
      ensures match RoleEditRefusal(old(database), user, target, id, next, h)
              case Some(e) => r == Failure(e)
              case None => r.Success?
      ensures r.Success? ==> r.value == WithRolePermissions(old(database.servers[target]), id, next)
      ensures database == if r.Success? then old(database).(servers := old(database.servers)[target := r.value])
                          else old(database)
    {
      if target !in database.servers {
        return Failure(NotFound);
      }
      var server := database.servers[target];
      if id !in server.roles {
        return Failure(NotFound);
      }
      var current := server.roles[id].permissions;
      var query := new DatabasePermissionQuery(ServerQuery(database, user, server));
      var permissions := CalculateServerPermissions(query, h);
      var manage := permissions.ThrowIfLacking(MANAGE_PERMISSIONS);
      if manage.Failure? {
        return Failure(manage.error);
      }
      var rank := I64_MIN;
      if query.member.Some? {
        rank := GetRanking(query.member.value, server);
      }
      if server.roles[id].rank <= rank {
        return Failure(NotElevated);
      }
      var grant := permissions.ThrowPermissionOverride(Some(current), next);
      if grant.Failure? {
        return Failure(grant.error);
      }
      server := WithRolePermissions(server, id, next);
      database := database.(servers := database.servers[target := server]);
      return Success(server);
    }

    /** Set the default permissions of a server. */
    method SetDefaultServerPermissions(user: User, target: ServerId, permissions: bv64, h: HashOrder)
      returns (r: Result<Server>)
      modifies this
      ensures match ServerDefaultRefusal(old(database), user, target, permissions, h)
              case Some(e) => r == Failure(e)
              case None => r.Success?
      ensures r.Success? ==> r.value == old(database.servers[target]).(defaultPermissions := permissions)
      ensures database == if r.Success? then old(database).(servers := old(database.servers)[target := r.value])
                          else old(database)
    {
      if target !in database.servers {
        return Failure(NotFound);
      }
      var server := database.servers[target];
      var query := new DatabasePermissionQuery(ServerQuery(database, user, server));
      var held := CalculateServerPermissions(query, h);
      var manage := held.ThrowIfLacking(MANAGE_PERMISSIONS);
      if manage.Failure? {
        return Failure(manage.error);
      }
      var grant := held.ThrowPermissionOverride(None, Override(permissions, 0));
      if grant.Failure? {
        return Failure(grant.error);
      }
      server := server.(defaultPermissions := permissions);
      database := database.(servers := database.servers[target := server]);
      return Success(server);
    }

    /** Set the default permissions of a group or a text channel. */
    method SetDefaultChannelPermissions(user: User, target: ChannelId, data: DataDefaultChannelPermissions, h: HashOrder)
      returns (r: Result<Channel>)
      requires ChannelHasRecipient(database, user, target)
      modifies this
      ensures match ChannelDefaultRefusal(old(database), user, target, data, h)
              case Some(e) => r == Failure(e)
              case None => r.Success?
      ensures r.Success? ==> r.value == WithChannelDefault(old(database.channels[target]), data)
      ensures database == if r.Success? then old(database).(channels := old(database.channels)[target := r.value])
                          else old(database)
    {
      if target !in database.channels {
        return Failure(NotFound);
      }
      var channel := database.channels[target];
      var query := new DatabasePermissionQuery(ChannelQuery(database, user, channel));
      var permissions := CalculateChannelPermissions(query, h);
      var manage := permissions.ThrowIfLacking(MANAGE_PERMISSIONS);
      if manage.Failure? {
        return Failure(manage.error);
      }
      match channel {
        case Group(_, _, _, _) =>
          if !data.Value? {
            return Failure(InvalidOperation);
          }
        case TextChannel(_, _, default, _) =>
          if !data.Field? {
            return Failure(InvalidOperation);
          }
          var grant := permissions.ThrowPermissionOverride(default, data.override);
          if grant.Failure? {
            return Failure(grant.error);
          }
        case _ => return Failure(InvalidOperation);
      }
      channel := WithChannelDefault(channel, data);
      database := database.(channels := database.channels[target := channel]);
      return Success(channel);
    }
  }

  // ---- What members gain

  /** Same ranks, and every change of an override is one the editor may make. */
  ghost predicate Parallel(s: seq<Ranked>, s': seq<Ranked>, editor: iset<bv64>) {
    && |s| == |s'|
    && (forall i :: 0 <= i < |s| ==>
          s[i].rank == s'[i].rank && MayGrant(editor, Some(s[i].override), s'[i].override))
  }

  lemma {:induction false} InsertedInParallel(s: seq<Ranked>, s': seq<Ranked>, x: Ranked, x': Ranked, editor: iset<bv64>)
    requires Parallel(s, s', editor)
    requires x.rank == x'.rank && MayGrant(editor, Some(x.override), x'.override)
    ensures Parallel(Inserted(s, x, DESCENDING), Inserted(s', x', DESCENDING), editor)
  {
    if s != [] && s[|s| - 1].rank < x.rank {
      InsertedInParallel(s[..|s| - 1], s'[..|s| - 1], x, x', editor);
    }
  }

  lemma {:induction false} SortedInParallel(s: seq<Ranked>, s': seq<Ranked>, editor: iset<bv64>)
    requires Parallel(s, s', editor)
    ensures Parallel(Sorted(s, DESCENDING), Sorted(s', DESCENDING), editor)
  {
    if s != [] {
      var n := |s| - 1;
      SortedInParallel(s[..n], s'[..n], editor);
      InsertedInParallel(Sorted(s[..n], DESCENDING), Sorted(s'[..n], DESCENDING), s[n], s'[n], editor);
    }
  }

  /** One permitted change of an override lets through only the editor's flags. */
  lemma ChangedOverrideGain(p: iset<bv64>, p': iset<bv64>, editor: iset<bv64>, o: Override, o': Override)
    requires p' <= p + editor
    requires MayGrant(editor, Some(o), o')
    ensures Applied(p', o') <= Applied(p, o) + editor
  {}

  lemma {:induction false} FoldGain(p: iset<bv64>, p': iset<bv64>, editor: iset<bv64>, s: seq<Ranked>, s': seq<Ranked>)
    requires p' <= p + editor
    requires Parallel(s, s', editor)
    ensures Folded(p', OverridesOf(s')) <= Folded(p, OverridesOf(s)) + editor
  {
    if s != [] {
      var n := |s| - 1;
      FoldGain(p, p', editor, s[..n], s'[..n]);
      assert OverridesOf(s)[..n] == OverridesOf(s[..n]);
      assert OverridesOf(s')[..n] == OverridesOf(s'[..n]);
      ChangedOverrideGain(Folded(p, OverridesOf(s[..n])), Folded(p', OverridesOf(s'[..n])), editor,
                          s[n].override, s'[n].override);
    }
  }

  /** Both role tables have the same roles, the same ranks and permitted changes. */
  ghost predicate ParallelGrants(g: Grants, g': Grants, editor: iset<bv64>) {
    forall id ::
      && (g(id).Some? <==> g'(id).Some?)
      && (g(id).Some? ==>
            && g(id).value.rank == g'(id).value.rank
            && MayGrant(editor, Some(g(id).value.override), g'(id).value.override))
  }

  lemma {:induction false} ListedInParallel(g: Grants, g': Grants, order: seq<RoleId>,
                                            editor: iset<bv64>)
    requires ParallelGrants(g, g', editor)
    ensures Parallel(Listed(g, order), Listed(g', order), editor)
  {
    if order != [] {
      ListedInParallel(g, g', order[..|order| - 1], editor);
    }
  }

  lemma OrderedGain(p: iset<bv64>, p': iset<bv64>, g: Grants, g': Grants, order: seq<RoleId>,
                    editor: iset<bv64>)
    requires p' <= p + editor
    requires ParallelGrants(g, g', editor)
    ensures Folded(p', Ordered(g', order)) <= Folded(p, Ordered(g, order)) + editor
  {
    ListedInParallel(g, g', order, editor);
    SortedInParallel(Listed(g, order), Listed(g', order), editor);
    FoldGain(p, p', editor, Sorted(Listed(g, order), DESCENDING), Sorted(Listed(g', order), DESCENDING));
  }

  /**
    An accepted edit of a role gives no member a server permission that the
    member lacked and the editor does not hold, through all later roles and
    through mute, deafen and timeout.
   */
  lemma RoleEditGain(database: Database, user: User, target: ServerId, id: RoleId, next: Override, h: HashOrder,
                     member: Member, k: HashOrder)
    requires RoleEditRefusal(database, user, target, id, next, h).None?
    ensures var server := database.servers[target];
            MemberServerFlags(WithRolePermissions(server, id, next), member, k)
            <= MemberServerFlags(server, member, k) + ServerFlags(ServerQuery(database, user, server), h)
  {
    var server := database.servers[target];
    var editor := ServerFlags(ServerQuery(database, user, server), h);
    var server' := WithRolePermissions(server, id, next);
    assert server'.roles.Keys == server.roles.Keys;
    assert ParallelGrants(ServerGrants(server, member), ServerGrants(server', member), editor);
    var p := Flags(server.defaultPermissions);
    OrderedGain(p, p, ServerGrants(server, member), ServerGrants(server', member), k(server.roles.Keys), editor);
  }

  /** If no roles tie after the edit, this holds even if they are iterated in another order then. */
  lemma RoleEditGainAnyOrder(database: Database, user: User, target: ServerId, id: RoleId, next: Override, h: HashOrder,
                             member: Member, k: HashOrder, k': HashOrder)
    requires RoleEditRefusal(database, user, target, id, next, h).None?
    requires IsHashOrder(k) && IsHashOrder(k')
    requires TieFree(ServerGrants(WithRolePermissions(database.servers[target], id, next), member))
    ensures var server := database.servers[target];
            MemberServerFlags(WithRolePermissions(server, id, next), member, k')
            <= MemberServerFlags(server, member, k) + ServerFlags(ServerQuery(database, user, server), h)
  {
    ServerFlagsIgnoreOrder(WithRolePermissions(database.servers[target], id, next), member, k, k');
    RoleEditGain(database, user, target, id, next, h, member, k);
  }

  /** An accepted edit of the server default gives no member a permission the editor does not hold. */
  lemma ServerDefaultEditGain(database: Database, user: User, target: ServerId, permissions: bv64, h: HashOrder,
                              member: Member, k: HashOrder)
    requires ServerDefaultRefusal(database, user, target, permissions, h).None?
    ensures var server := database.servers[target];
            MemberServerFlags(server.(defaultPermissions := permissions), member, k)
            <= MemberServerFlags(server, member, k) + ServerFlags(ServerQuery(database, user, server), h)
  {
    var server := database.servers[target];
    var editor := ServerFlags(ServerQuery(database, user, server), h);
    var server' := server.(defaultPermissions := permissions);
    OrderedGain(Flags(server.defaultPermissions), Flags(permissions), ServerGrants(server, member),
                ServerGrants(server', member), k(server.roles.Keys), editor);
  }

  /** Before the view gate, an accepted edit of a text channel's default lets through only the editor's flags. */
  lemma ChannelDefaultEditUngatedGain(server: Server, channel: Channel, next: Override, editor: iset<bv64>,
                                      member: Member, k: HashOrder)
    requires channel.TextChannel? && MayGrant(editor, channel.defaultPermissions, next)
    ensures UngatedFlags(server, member, channel.(defaultPermissions := Some(next)), k)
            <= UngatedFlags(server, member, channel, k) + editor
  {
    var p := MemberServerFlags(server, member, k);
    var g := ChannelGrants(server, member, channel.rolePermissions);
    FlagsOfZero();
    ChangedOverrideGain(p, p, editor, DefaultOverride(channel.defaultPermissions), next);
    OrderedGain(Applied(p, DefaultOverride(channel.defaultPermissions)), Applied(p, next), g, g,
                k(channel.rolePermissions.Keys), editor);
  }

  /**
    For a text channel's default the gate matters.  Who could view the channel
    before gains only what the editor holds; in general somebody gains more
    exactly when the edit opens the gate for them and their own roles already
    gave them, behind the gate, a permission the editor lacks and the edit keeps.
   */
  lemma ChannelDefaultEditGain(database: Database, user: User, target: ChannelId, next: Override, h: HashOrder,
                               server: Server, member: Member, k: HashOrder)
    requires ChannelHasRecipient(database, user, target)
    requires ChannelDefaultRefusal(database, user, target, Field(next), h).None?
    ensures var channel := database.channels[target];
            && channel.TextChannel?
            && var channel' := channel.(defaultPermissions := Some(next));
            var editor := ChannelFlags(ChannelQuery(database, user, channel), h);
            var before, after := MemberChannelFlags(server, member, channel, k), MemberChannelFlags(server, member, channel', k);
            var hidden, shown := UngatedFlags(server, member, channel, k), UngatedFlags(server, member, channel', k);
            && (VIEW_CHANNEL in before ==> after <= before + editor)
            && (!(after <= before + editor) <==>
                VIEW_CHANNEL !in hidden && VIEW_CHANNEL in shown && !(hidden * shown <= editor))
  {
    var channel := database.channels[target];
    var editor := ChannelFlags(ChannelQuery(database, user, channel), h);
    ViewFacts();
    ChannelDefaultEditUngatedGain(server, channel, next, editor, member, k);
  }

  // ---- The gate does matter: a server in which an accepted edit reveals a hidden permission

  const REVEALING_ROLE := Override(VIEW_CHANNEL | MANAGE_PERMISSIONS, MANAGE_MESSAGES)
  const REVEALING_SERVER := Server("s", "owner", ["c"], map["mod" := Role(REVEALING_ROLE, 0)], MANAGE_MESSAGES)
  const REVEALING_CHANNEL := TextChannel("c", "s", None, map[])
  const MODERATOR := Member(["mod"], false, true, true)
  const BYSTANDER := Member([], false, true, true)
  const REVEALING_DATABASE :=
    Database(map[], map["s" := REVEALING_SERVER], map[("s", "editor") := MODERATOR], map["c" := REVEALING_CHANNEL], {})

  lemma SingletonOrder(h: HashOrder, id: RoleId)
    requires IsHashOrder(h)
    ensures h({id}) == [id]
  {
    var order := h({id});
    assert Enumerates(order, {id});
    assert id in order;
    assert order[0] in order && order[|order| - 1] in order;
    assert order[0] == order[|order| - 1];
  }

  lemma RevealingFlags()
    ensures Flags(REVEALING_ROLE.allow) == iset{VIEW_CHANNEL, MANAGE_PERMISSIONS}
    ensures Flags(MANAGE_MESSAGES) == iset{MANAGE_MESSAGES}
    ensures Flags(MANAGE_PERMISSIONS) == iset{MANAGE_PERMISSIONS}
    ensures Flags(VIEW_CHANNEL) == iset{VIEW_CHANNEL}
    ensures MANAGE_MESSAGES != VIEW_CHANNEL && MANAGE_MESSAGES != MANAGE_PERMISSIONS
    ensures Flags(0) == iset{}
  {
    FlagsOfZero();
    FlagsOfFlag(MANAGE_MESSAGES);
    FlagsOfFlag(MANAGE_PERMISSIONS);
    FlagsOfFlag(VIEW_CHANNEL);
    FlagsOfOr(VIEW_CHANNEL, MANAGE_PERMISSIONS);
  }

  lemma ModeratorServerFlags(h: HashOrder)
    requires IsHashOrder(h)
    ensures MemberServerFlags(REVEALING_SERVER, MODERATOR, h) == Applied(iset{MANAGE_MESSAGES}, REVEALING_ROLE)
  {
    assert Flags(MANAGE_MESSAGES) == iset{MANAGE_MESSAGES} by { RevealingFlags(); }
    SingletonOrder(h, "mod");
    assert REVEALING_SERVER.roles.Keys == {"mod"};
    var mine := ServerGrants(REVEALING_SERVER, MODERATOR);
    var role := Ranked(0, REVEALING_ROLE);
    assert ["mod"][..0] == [];
    assert Listed(mine, ["mod"]) == [role];
    assert Sorted([role], DESCENDING) == [role];
    assert Ordered(mine, ["mod"]) == [REVEALING_ROLE];
    assert Folded(iset{MANAGE_MESSAGES}, [REVEALING_ROLE]) == Applied(iset{MANAGE_MESSAGES}, REVEALING_ROLE);
  }

  lemma ModeratorFlags(h: HashOrder)
    requires IsHashOrder(h)
    ensures MemberChannelFlags(REVEALING_SERVER, MODERATOR, REVEALING_CHANNEL, h) == iset{VIEW_CHANNEL, MANAGE_PERMISSIONS}
  {
    ModeratorServerFlags(h);
    RevealingFlags();
    var held := iset{VIEW_CHANNEL, MANAGE_PERMISSIONS};
    assert Applied(iset{MANAGE_MESSAGES}, REVEALING_ROLE) == held;
    assert Applied(held, NO_OVERRIDE) == held;
    NoGrantsNoChange(held, ChannelGrants(REVEALING_SERVER, MODERATOR, REVEALING_CHANNEL.rolePermissions), h(REVEALING_CHANNEL.rolePermissions.Keys));
  }

  lemma BystanderFlags(h: HashOrder, default: Option<Override>)
    requires IsHashOrder(h)
    ensures UngatedFlags(REVEALING_SERVER, BYSTANDER, REVEALING_CHANNEL.(defaultPermissions := default), h)
            == Applied(iset{MANAGE_MESSAGES}, DefaultOverride(default))
  {
    RevealingFlags();
    NoGrantsNoChange(iset{MANAGE_MESSAGES}, ServerGrants(REVEALING_SERVER, BYSTANDER), h(REVEALING_SERVER.roles.Keys));
    NoGrantsNoChange(Applied(iset{MANAGE_MESSAGES}, DefaultOverride(default)),
                     ChannelGrants(REVEALING_SERVER, BYSTANDER, REVEALING_CHANNEL.rolePermissions),
                     h(REVEALING_CHANNEL.rolePermissions.Keys));
  }

  /** An accepted edit after which a member who could not view the channel holds a permission the editor lacks. */
  lemma GateRevealsHiddenPermission(h: HashOrder, user: User)
    requires IsHashOrder(h)
    requires user == User("editor", false, None, [])
    ensures ChannelDefaultRefusal(REVEALING_DATABASE, user, "c", Field(Override(VIEW_CHANNEL, 0)), h).None?
    ensures var channel' := REVEALING_CHANNEL.(defaultPermissions := Some(Override(VIEW_CHANNEL, 0)));
            && MANAGE_MESSAGES in MemberChannelFlags(REVEALING_SERVER, BYSTANDER, channel', h)
            && MANAGE_MESSAGES !in MemberChannelFlags(REVEALING_SERVER, BYSTANDER, REVEALING_CHANNEL, h)
            && MANAGE_MESSAGES !in ChannelFlags(ChannelQuery(REVEALING_DATABASE, user, REVEALING_CHANNEL), h)
  {
    RevealingFlags();
    ModeratorFlags(h);
    BystanderFlags(h, None);
    BystanderFlags(h, Some(Override(VIEW_CHANNEL, 0)));
  }
}
