/** Permission calculation for one user, and the query object it runs on. */
module PermissionQueries {
  import opened Bits
  import opened Permissions
  import opened RoleOverrides
  import opened StableSort
  import opened Entities
  import opened Wrappers

  // ---- What a member's permissions are

  /** Server permissions of a member who is neither the owner nor privileged. */
  ghost function MemberServerFlags(server: Server, member: Member, h: HashOrder): iset<bv64> {
    var roles := Folded(Flags(server.defaultPermissions),
                        Ordered(ServerGrants(server, member), h(server.roles.Keys)));
    Limited(roles, member)
  }

  /** Mute, deafen and timeout. */
  ghost function Limited(p: iset<bv64>, member: Member): iset<bv64> {
    var spoken := if member.canPublish then p else p - Flags(SPEAK) - Flags(VIDEO);
    var heard := if member.canReceive then spoken else spoken - Flags(LISTEN);
    TimedOut(heard, member)
  }

  ghost function TimedOut(p: iset<bv64>, member: Member): iset<bv64> {
    if member.timedOut then p * Flags(ALLOW_IN_TIMEOUT) else p
  }

  /** Permissions in a text channel before the view gate. */
  ghost function UngatedFlags(server: Server, member: Member, channel: Channel, h: HashOrder): iset<bv64>
    requires channel.TextChannel?
  {
    var base := Applied(MemberServerFlags(server, member, h), DefaultOverride(channel.defaultPermissions));
    TimedOut(Folded(base, Ordered(ChannelGrants(server, member, channel.rolePermissions),
                                  h(channel.rolePermissions.Keys))),
             member)
  }

  /** Without the view permission nothing is left. */
  ghost function Gated(p: iset<bv64>): iset<bv64> {
    if Flags(VIEW_CHANNEL) <= p then p else iset{}
  }

  ghost function MemberChannelFlags(server: Server, member: Member, channel: Channel, h: HashOrder): iset<bv64>
    requires channel.TextChannel?
  {
    Gated(UngatedFlags(server, member, channel, h))
  }

  // ---- The state of a query

  datatype Query = Query(
    database: Database,
    perspective: User,
    user: Option<User>,
    channel: Option<Channel>,
    server: Option<Server>,
    member: Option<Member>,
    mutualConnection: Option<bool>
  ) {
    predicate AreTheUsersSame() {
      user.Some? && perspective.id == user.value.id
    }

    function UserRelationship(): RelationshipStatus {
      if user.None? then NoRelation
      else if perspective.id == user.value.id then Self
      else if user.value.botOwner == Some(perspective.id) then Self
      else RelationIn(perspective.relations, user.value.id)
    }

    predicate UserIsBot() {
      user.Some? && user.value.botOwner.Some?
    }

    predicate HaveMutualConnection() {
      match mutualConnection
      case Some(known) => known
      case None => user.Some? && (perspective.id, user.value.id) in database.mutualConnections
    }

    /** The query after its mutual connection was asked for. */
    function WithMutualConnection(): Query {
      if mutualConnection.None? && user.Some? then this.(mutualConnection := Some(HaveMutualConnection())) else this
    }

    predicate AreWeServerOwner() {
      server.Some? && server.value.owner == perspective.id
    }

    /** The member a membership check settles on, if it succeeds. */
    function FoundMember(): Option<Member> {
      if server.None? then None
      else if member.Some? then member
      else if (server.value.id, perspective.id) in database.members
      then Some(database.members[(server.value.id, perspective.id)])
      else None
    }

    function WithFoundMember(): Query {
      if FoundMember().Some? then this.(member := FoundMember()) else this
    }

    predicate DoWeOwnTheChannel() {
      channel.Some? &&
      match channel.value
      case Group(_, owner, _, _) => owner == perspective.id
      case SavedMessages(_, owner) => owner == perspective.id
      case _ => false
    }

    predicate AreWePartOfTheChannel() {
      channel.Some? &&
      (channel.value.DirectMessage? || channel.value.Group?) &&
      perspective.id in channel.value.recipients
    }

    /** The query with the owning server of the selected text channel selected. */
    function WithServerOfChannel(): Query
      requires channel.Some? && channel.value.TextChannel?
    {
      var id := channel.value.server;
      if server.Some? && server.value.id == id then this
      else if id in database.servers then this.(server := Some(database.servers[id]))
      else this
    }

    /** The other side of a direct message, as the selected user. */
    function WithRecipient(): Query
      requires channel.Some? && channel.value.DirectMessage?
      requires exists id :: id in channel.value.recipients && id != perspective.id
    {
      var id := FirstOther(channel.value.recipients, perspective.id);
      if id in database.users then this.(user := Some(database.users[id])) else this
    }
  }

  function RelationIn(relations: seq<Relationship>, id: UserId): RelationshipStatus {
    if relations == [] then NoRelation
    else if relations[0].id == id then relations[0].status
    else RelationIn(relations[1..], id)
  }

  function FirstOther(recipients: seq<UserId>, me: UserId): (other: UserId)
    requires exists id :: id in recipients && id != me
    ensures other in recipients && other != me
  {
    if recipients[0] != me then recipients[0]
    else
      assert forall id :: id in recipients && id != me ==> id in recipients[1..];
      FirstOther(recipients[1..], me)
  }

  // ---- What the calculators return, case by case

  function UserPermissions(q: Query): bv64 {
    var status := q.UserRelationship();
    if q.perspective.privileged || q.AreTheUsersSame() || status.Friend? then GRANT_ALL
    else if status.Blocked? || status.BlockedOther? then USER_ACCESS
    else if q.HaveMutualConnection() then
      if q.UserIsBot() || q.perspective.botOwner.Some?
      then USER_ACCESS + USER_VIEW_PROFILE + USER_SEND_MESSAGE
      else USER_ACCESS + USER_VIEW_PROFILE
    else if status.Incoming? || status.Outgoing? then USER_ACCESS
    else 0
  }

  ghost function ServerFlags(q: Query, h: HashOrder): iset<bv64> {
    if q.perspective.privileged || q.AreWeServerOwner() then Flags(GRANT_ALL_SAFE)
    else
      match q.FoundMember()
      case None => iset{}
      case Some(member) => MemberServerFlags(q.server.value, member, h)
  }

  ghost function TextChannelFlags(q: Query, h: HashOrder): iset<bv64>
    requires q.channel.Some? && q.channel.value.TextChannel?
  {
    var q' := q.WithServerOfChannel();
    if q'.AreWeServerOwner() then Flags(GRANT_ALL_SAFE)
    else
      match q'.FoundMember()
      case None => iset{}
      case Some(member) => MemberChannelFlags(q'.server.value, member, q.channel.value, h)
  }

  /** A direct message that names us also names somebody else. */
  ghost predicate HasRecipient(q: Query) {
    q.channel.Some? && q.channel.value.DirectMessage? && q.AreWePartOfTheChannel() ==>
      exists id :: id in q.channel.value.recipients && id != q.perspective.id
  }

  ghost function ChannelFlags(q: Query, h: HashOrder): iset<bv64>
    requires HasRecipient(q)
  {
    if q.perspective.privileged then Flags(GRANT_ALL_SAFE)
    else if q.channel.None? then iset{}
    else
      match q.channel.value
      case SavedMessages(_, _) => if q.DoWeOwnTheChannel() then Flags(GRANT_ALL_SAFE) else iset{}
      case DirectMessage(_, _) =>
        if !q.AreWePartOfTheChannel() then iset{}
        else if UserPermissions(q.WithRecipient()) & USER_SEND_MESSAGE == USER_SEND_MESSAGE
        then Flags(DEFAULT_PERMISSION_DIRECT_MESSAGE)
        else Flags(DEFAULT_PERMISSION_VIEW_ONLY)
      case Group(_, _, _, permissions) =>
        if q.DoWeOwnTheChannel() then Flags(GRANT_ALL_SAFE)
        else if q.AreWePartOfTheChannel() then
          Flags(DEFAULT_PERMISSION_VIEW_ONLY) + Flags(GroupDefault(permissions))
        else iset{}
      case TextChannel(_, _, _, _) => TextChannelFlags(q, h)
  }

  function GroupDefault(permissions: Option<bv64>): bv64 {
    match permissions case Some(v) => v case None => DEFAULT_PERMISSION_DIRECT_MESSAGE
  }

  // ---- What the calculators leave in the query's caches

  function AfterUserCalculation(q: Query): Query {
    if q.perspective.privileged || q.AreTheUsersSame() then q
    else
      var status := q.UserRelationship();
      if status.Friend? || status.Blocked? || status.BlockedOther? then q else q.WithMutualConnection()
  }

  function AfterServerCalculation(q: Query): Query {
    if q.perspective.privileged || q.AreWeServerOwner() then q else q.WithFoundMember()
  }

  ghost function AfterChannelCalculation(q: Query): Query
    requires HasRecipient(q)
  {
    if q.perspective.privileged || q.channel.None? then q
    else
      match q.channel.value
      case DirectMessage(_, _) => if q.AreWePartOfTheChannel() then AfterUserCalculation(q.WithRecipient()) else q
      case TextChannel(_, _, _, _) => AfterServerCalculation(q.WithServerOfChannel())
      case _ => q
  }

  // ---- The query object and the calculators

  class DatabasePermissionQuery {
    const database: Database
    const perspective: User
    var user: Option<User>
    var channel: Option<Channel>
    var server: Option<Server>
    var member: Option<Member>
    var mutualConnection: Option<bool>

    function State(): Query
      reads this
    {
      Query(database, perspective, user, channel, server, member, mutualConnection)
    }

    constructor (q: Query)
      ensures State() == q
    {
      database, perspective := q.database, q.perspective;
      user, channel, server, member := q.user, q.channel, q.server, q.member;
      mutualConnection := q.mutualConnection;
    }

    method HaveMutualConnection() returns (r: bool)
      modifies this
      ensures r == old(State()).HaveMutualConnection()
      ensures State() == old(State()).WithMutualConnection()
    {
      if mutualConnection.Some? {
        r := mutualConnection.value;
      } else if user.Some? {
        r := (perspective.id, user.value.id) in database.mutualConnections;
        mutualConnection := Some(r);
      } else {
        r := false;
      }
    }

    method AreWeAMember() returns (r: bool)
      modifies this
      ensures r <==> old(State()).FoundMember().Some?
      ensures State() == old(State()).WithFoundMember()
    {
      if server.Some? {
        if member.Some? {
          r := true;
        } else if (server.value.id, perspective.id) in database.members {
          member := Some(database.members[(server.value.id, perspective.id)]);
          r := true;
        } else {
          r := false;
        }
      } else {
        r := false;
      }
    }

    /** The overrides of our roles in the server, lowest priority first. */
    method GetOurServerRoleOverrides(h: HashOrder) returns (overrides: seq<Override>)
      ensures overrides == if server.Some? && member.Some?
                           then Ordered(ServerGrants(server.value, member.value), h(server.value.roles.Keys)) else []
    {
      if server.None? || member.None? {
        return [];
      }
      var order := h(server.value.roles.Keys);
      ghost var grants := ServerGrants(server.value, member.value);
      var roles: seq<Ranked> := [];
      for i := 0 to |order|
        invariant roles == Listed(grants, order[..i])
      {
        var id := order[i];
        assert order[..i + 1][..i] == order[..i];
        if id in server.value.roles && id in member.value.roles {
          var role := server.value.roles[id];
          roles := roles + [Ranked(role.rank, role.permissions)];
        }
      }
      assert order[..|order|] == order;
      overrides := OverridesOf(Sorted(roles, DESCENDING));
    }

    /** The overrides of our roles in the selected text channel, lowest priority first. */
    method GetOurChannelRoleOverrides(h: HashOrder) returns (overrides: seq<Override>)
      ensures overrides == if channel.Some? && channel.value.TextChannel? && server.Some? && member.Some?
                           then Ordered(ChannelGrants(server.value, member.value, channel.value.rolePermissions),
                                        h(channel.value.rolePermissions.Keys))
                           else []
    {
      if channel.None? || !channel.value.TextChannel? || server.None? || member.None? {
        return [];
      }
      var permissions := channel.value.rolePermissions;
      var order := h(permissions.Keys);
      ghost var grants := ChannelGrants(server.value, member.value, permissions);
      var roles: seq<Ranked> := [];
      for i := 0 to |order|
        invariant roles == Listed(grants, order[..i])
      {
        var id := order[i];
        assert order[..i + 1][..i] == order[..i];
        if id in permissions && id in member.value.roles && id in server.value.roles {
          roles := roles + [Ranked(server.value.roles[id].rank, permissions[id])];
        }
      }
      assert order[..|order|] == order;
      overrides := OverridesOf(Sorted(roles, DESCENDING));
    }

    method SetServerFromChannel()
      requires channel.Some? && channel.value.TextChannel?
      modifies this
      ensures State() == old(State()).WithServerOfChannel()
    {
      var id := channel.value.server;
      if server.Some? && server.value.id == id {
        return;
      }
      if id in database.servers {
        server := Some(database.servers[id]);
      }
    }

    method SetRecipientAsUser()
      requires channel.Some? && channel.value.DirectMessage?
      requires exists id :: id in channel.value.recipients && id != perspective.id
      modifies this
      ensures State() == old(State()).WithRecipient()
    {
      var id := FirstOther(channel.value.recipients, perspective.id);
      if id in database.users {
        user := Some(database.users[id]);
      }
    }
  }

  method CalculateUserPermissions(query: DatabasePermissionQuery) returns (permissions: bv64)
    modifies query
    ensures permissions == UserPermissions(old(query.State()))
    ensures query.State() == AfterUserCalculation(old(query.State()))
  {
    if query.perspective.privileged {
      return GRANT_ALL;
    }
    if query.State().AreTheUsersSame() {
      return GRANT_ALL;
    }
    var status := query.State().UserRelationship();
    if status.Friend? {
      return GRANT_ALL;
    }
    if status.Blocked? || status.BlockedOther? {
      return USER_ACCESS;
    }
    permissions := if status.Incoming? || status.Outgoing? then USER_ACCESS else 0;
    var withBot := query.State().UserIsBot() || query.perspective.botOwner.Some?;
    var mutual := query.HaveMutualConnection();
    if mutual {
      permissions := if withBot then USER_ACCESS + USER_VIEW_PROFILE + USER_SEND_MESSAGE
                     else USER_ACCESS + USER_VIEW_PROFILE;
    }
  }

  /** The loop over role overrides. */
  method ApplyAll(permissions: PermissionValue, overrides: seq<Override>)
    modifies permissions
    ensures permissions.Held() == Folded(old(permissions.Held()), overrides)
  {
    for i := 0 to |overrides|
      invariant permissions.Held() == Folded(old(permissions.Held()), overrides[..i])
    {
      assert overrides[..i + 1][..i] == overrides[..i];
      permissions.Apply(overrides[i]);
    }
    assert overrides[..|overrides|] == overrides;
  }

  /** Mute, deafen and timeout. */
  method Limit(permissions: PermissionValue, member: Member)
    modifies permissions
    ensures permissions.Held() == Limited(old(permissions.Held()), member)
  {
    if !member.canPublish {
      permissions.Revoke(SPEAK);
      permissions.Revoke(VIDEO);
    }
    if !member.canReceive {
      permissions.Revoke(LISTEN);
    }
    if member.timedOut {
      permissions.Restrict(ALLOW_IN_TIMEOUT);
    }
  }

  method CalculateServerPermissions(query: DatabasePermissionQuery, h: HashOrder) returns (permissions: PermissionValue)
    modifies query
    ensures fresh(permissions)
    ensures permissions.Held() == ServerFlags(old(query.State()), h)
    ensures query.State() == AfterServerCalculation(old(query.State()))
  {
    if query.perspective.privileged || query.State().AreWeServerOwner() {
      permissions := new PermissionValue(GRANT_ALL_SAFE);
      return;
    }
    var isMember := query.AreWeAMember();
    if !isMember {
      FlagsOfZero();
      permissions := new PermissionValue(0);
      return;
    }
    permissions := new PermissionValue(query.server.value.defaultPermissions);
    var overrides := query.GetOurServerRoleOverrides(h);
    ApplyAll(permissions, overrides);
    Limit(permissions, query.member.value);
  }

  method CalculateTextChannelPermissions(query: DatabasePermissionQuery, h: HashOrder) returns (permissions: PermissionValue)
    requires query.channel.Some? && query.channel.value.TextChannel? && !query.perspective.privileged
    modifies query
    ensures fresh(permissions)
    ensures permissions.Held() == TextChannelFlags(old(query.State()), h)
    ensures query.State() == AfterServerCalculation(old(query.State()).WithServerOfChannel())
  {
    query.SetServerFromChannel();
    if query.State().AreWeServerOwner() {
      permissions := new PermissionValue(GRANT_ALL_SAFE);
      return;
    }
    var isMember := query.AreWeAMember();
    if !isMember {
      FlagsOfZero();
      permissions := new PermissionValue(0);
      return;
    }
    permissions := CalculateServerPermissions(query, h);
    permissions.Apply(DefaultOverride(query.channel.value.defaultPermissions));
    var overrides := query.GetOurChannelRoleOverrides(h);
    ApplyAll(permissions, overrides);
    if query.member.value.timedOut {
      permissions.Restrict(ALLOW_IN_TIMEOUT);
    }
    var canView := permissions.Has(VIEW_CHANNEL);
    if !canView {
      permissions.RevokeAll();
    }
  }

  method CalculateChannelPermissions(query: DatabasePermissionQuery, h: HashOrder) returns (permissions: PermissionValue)
    requires HasRecipient(query.State())
    modifies query
    ensures fresh(permissions)
    ensures permissions.Held() == ChannelFlags(old(query.State()), h)
    ensures query.State() == AfterChannelCalculation(old(query.State()))
  {
    FlagsOfZero();
    if query.perspective.privileged {
      permissions := new PermissionValue(GRANT_ALL_SAFE);
      return;
    }
    if query.channel.None? {
      permissions := new PermissionValue(0);
      return;
    }
    match query.channel.value {
      case SavedMessages(_, _) =>
        permissions := new PermissionValue(if query.State().DoWeOwnTheChannel() then GRANT_ALL_SAFE else 0);
      case DirectMessage(_, _) =>
        if query.State().AreWePartOfTheChannel() {
          query.SetRecipientAsUser();
          var userPermissions := CalculateUserPermissions(query);
          permissions := new PermissionValue(
            if userPermissions & USER_SEND_MESSAGE == USER_SEND_MESSAGE
            then DEFAULT_PERMISSION_DIRECT_MESSAGE else DEFAULT_PERMISSION_VIEW_ONLY);
        } else {
          permissions := new PermissionValue(0);
        }
      case Group(_, _, _, default) =>
        if query.State().DoWeOwnTheChannel() {
          permissions := new PermissionValue(GRANT_ALL_SAFE);
        } else if query.State().AreWePartOfTheChannel() {
          permissions := new PermissionValue(DEFAULT_PERMISSION_VIEW_ONLY);
          permissions.Allow(GroupDefault(default));
        } else {
          permissions := new PermissionValue(0);
        }
      case TextChannel(_, _, _, _) =>
        permissions := CalculateTextChannelPermissions(query, h);
    }
  }

  // ---- Laws

  ghost predicate IsGranted(q: Query, permission: bv64) {
    UserPermissions(q) & permission == permission
  }

  /** Who may do everything with the selected user. */
  predicate IsClose(q: Query) {
    q.perspective.privileged || q.AreTheUsersSame() || q.UserRelationship().Friend?
  }

  predicate IsBlockedEitherWay(q: Query) {
    q.UserRelationship().Blocked? || q.UserRelationship().BlockedOther?
  }

  /**
    Exactly when each user permission is granted.  Sending implies viewing the
    profile, which implies access; a block leaves access only, whatever
    connection there is; and strangers who share a server may write to each
    other exactly if one of them is a bot.
   */
  lemma UserPermissionLaw(q: Query)
    ensures IsGranted(q, USER_SEND_MESSAGE) <==>
            IsClose(q) || (!IsBlockedEitherWay(q) && q.HaveMutualConnection() && (q.UserIsBot() || q.perspective.botOwner.Some?))
    ensures IsGranted(q, USER_VIEW_PROFILE) <==> IsClose(q) || (!IsBlockedEitherWay(q) && q.HaveMutualConnection())
    ensures IsGranted(q, USER_ACCESS) <==>
            || IsClose(q) || IsBlockedEitherWay(q) || q.HaveMutualConnection()
            || q.UserRelationship().Incoming? || q.UserRelationship().Outgoing?
    ensures if IsClose(q) then UserPermissions(q) == 0xFFFF_FFFF_FFFF_FFFF else UserPermissions(q) < 8
  {}

  /** In every kind of channel, permissions are either none at all or include viewing it. */
  lemma NothingWithoutView(q: Query, h: HashOrder)
    requires HasRecipient(q)
    ensures ChannelFlags(q, h) == iset{} || VIEW_CHANNEL in ChannelFlags(q, h)
  {
    ViewFacts();
  }

  /** A flag is settled for a set of roles: by a deciding role, or by `before` when none mentions it. */
  ghost predicate SettledBy(grants: Grants, before: bool, m: bv64, after: bool) {
    && (forall id :: Decides(grants, id, m) ==> (after <==> !Denies(grants, id, m)))
    && ((forall id :: grants(id).Some? ==> !Mentions(grants(id).value.override, m)) ==> (after <==> before))
  }

  /** What an override without ranks makes of a flag. */
  ghost predicate After(o: Override, before: bool, m: bv64) {
    if Mentions(o, m) then m !in Flags(o.deny) else before
  }

  /** Muting, deafening and timing out take away exactly these flags. */
  ghost predicate Withheld(member: Member, m: bv64) {
    || (!member.canPublish && (m in Flags(SPEAK) || m in Flags(VIDEO)))
    || (!member.canReceive && m in Flags(LISTEN))
    || (member.timedOut && m !in Flags(ALLOW_IN_TIMEOUT))
  }

  /** Every flag of a member's server permissions, decided by priority. */
  lemma ServerFlagLaw(server: Server, member: Member, h: HashOrder, m: bv64)
    requires IsHashOrder(h)
    requires TieFree(ServerGrants(server, member))
    ensures exists byRoles ::
              && SettledBy(ServerGrants(server, member), m in Flags(server.defaultPermissions), m, byRoles)
              && (m in MemberServerFlags(server, member, h) <==> byRoles && !Withheld(member, m))
  {
    var grants, order := ServerGrants(server, member), h(server.roles.Keys);
    assert Lists(order, grants);
    PriorityLaw(Flags(server.defaultPermissions), grants, order, m);
    var byRoles := m in Folded(Flags(server.defaultPermissions), Ordered(grants, order));
    assert SettledBy(grants, m in Flags(server.defaultPermissions), m, byRoles);
  }

  /**
    Every flag of a member's channel permissions before the view gate: the
    channel role of smallest rank that mentions it, else the channel default,
    else the server permissions; in timeout only what a timeout allows.
   */
  lemma ChannelFlagLaw(server: Server, member: Member, channel: Channel, h: HashOrder, m: bv64)
    requires IsHashOrder(h) && channel.TextChannel?
    requires TieFree(ChannelGrants(server, member, channel.rolePermissions))
    ensures exists byRoles ::
              && SettledBy(ChannelGrants(server, member, channel.rolePermissions),
                           After(DefaultOverride(channel.defaultPermissions),
                                 m in MemberServerFlags(server, member, h), m),
                           m, byRoles)
              && (m in UngatedFlags(server, member, channel, h) <==>
                  byRoles && (member.timedOut ==> m in Flags(ALLOW_IN_TIMEOUT)))
  {
    var grants := ChannelGrants(server, member, channel.rolePermissions);
    var order := h(channel.rolePermissions.Keys);
    var base := Applied(MemberServerFlags(server, member, h), DefaultOverride(channel.defaultPermissions));
    assert Lists(order, grants);
    PriorityLaw(base, grants, order, m);
    var byRoles := m in Folded(base, Ordered(grants, order));
    assert m in base <==> After(DefaultOverride(channel.defaultPermissions), m in MemberServerFlags(server, member, h), m);
    assert SettledBy(grants, After(DefaultOverride(channel.defaultPermissions), m in MemberServerFlags(server, member, h), m),
                     m, byRoles);
  }

  lemma ServerFlagsIgnoreOrder(server: Server, member: Member, h: HashOrder, h': HashOrder)
    requires IsHashOrder(h) && IsHashOrder(h')
    requires TieFree(ServerGrants(server, member))
    ensures MemberServerFlags(server, member, h) == MemberServerFlags(server, member, h')
  {
    var grants := ServerGrants(server, member);
    TieFreeIsOrderIrrelevant(grants);
    assert Lists(h(server.roles.Keys), grants) && Lists(h'(server.roles.Keys), grants);
  }

  /** Two iteration orders give a member the same permissions in a channel. */
  lemma MemberFlagsIgnoreOrder(server: Server, member: Member, channel: Channel, h: HashOrder, h': HashOrder)
    requires IsHashOrder(h) && IsHashOrder(h') && channel.TextChannel?
    requires TieFree(ServerGrants(server, member))
    requires TieFree(ChannelGrants(server, member, channel.rolePermissions))
    ensures UngatedFlags(server, member, channel, h) == UngatedFlags(server, member, channel, h')
  {
    ServerFlagsIgnoreOrder(server, member, h, h');
    var grants := ChannelGrants(server, member, channel.rolePermissions);
    TieFreeIsOrderIrrelevant(grants);
    assert Lists(h(channel.rolePermissions.Keys), grants) && Lists(h'(channel.rolePermissions.Keys), grants);
  }

  /** Distinct role ranks in the server rule out ties, in the server and in every channel. */
  lemma DistinctRanksSuffice(server: Server, member: Member, rolePermissions: map<RoleId, Override>)
    requires forall a, b :: a in server.roles && b in server.roles && a != b ==>
               server.roles[a].rank != server.roles[b].rank
    ensures TieFree(ServerGrants(server, member))
    ensures TieFree(ChannelGrants(server, member, rolePermissions))
  {
    DistinctRanksAreTieFree(ServerGrants(server, member));
    DistinctRanksAreTieFree(ChannelGrants(server, member, rolePermissions));
  }
}
