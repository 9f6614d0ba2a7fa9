/**
  What the permission calculators compute, in terms of the stored roles,
  overrides, memberships and channels alone.
 */
module PermissionLaws {
  import opened Bits
  import opened Collections
  import opened Permissions
  import opened RoleOverrides
  import opened Entities
  import opened PermissionQueries
  import opened BulkPermissions
  import opened Wrappers

  // ---- Flags and masks

  lemma FlagPositions()
    ensures MANAGE_CHANNEL == 1 << 0 && MANAGE_PERMISSIONS == 1 << 2 && MANAGE_ROLE == 1 << 3
    ensures VIEW_CHANNEL == 1 << 20 && READ_MESSAGE_HISTORY == 1 << 21 && SEND_MESSAGE == 1 << 22
    ensures MANAGE_MESSAGES == 1 << 23 && INVITE_OTHERS == 1 << 25 && SEND_EMBEDS == 1 << 26 && UPLOAD_FILES == 1 << 27
    ensures MASQUERADE == 1 << 28 && REACT == 1 << 29 && CONNECT == 1 << 30 && SPEAK == 1 << 31
    ensures VIDEO == 1 << 32 && LISTEN == 1 << 36
    ensures GRANT_ALL_SAFE == (1 << 52) - 1 && GRANT_ALL == 0 - 1
    ensures USER_ACCESS == 1 << 0 && USER_VIEW_PROFILE == 1 << 1 && USER_SEND_MESSAGE == 1 << 2
  {}

  /** In a timeout, and as a mere viewer, exactly viewing and reading are left. */
  lemma ViewingMasks()
    ensures Flags(ALLOW_IN_TIMEOUT) == iset{VIEW_CHANNEL, READ_MESSAGE_HISTORY}
    ensures Flags(DEFAULT_PERMISSION_VIEW_ONLY) == iset{VIEW_CHANNEL, READ_MESSAGE_HISTORY}
  {
    FlagsOfOr(VIEW_CHANNEL, READ_MESSAGE_HISTORY);
    FlagsOfFlag(VIEW_CHANNEL);
    FlagsOfFlag(READ_MESSAGE_HISTORY);
  }

  lemma OneMoreFlag(mask: bv64, f: bv64)
    requires IsFlag(f)
    ensures Flags(mask | f) == Flags(mask) + iset{f}
  {
    FlagsOfOr(mask, f);
    FlagsOfFlag(f);
  }

  /** What everybody may do in a new server. */
  lemma DefaultMask()
    ensures Flags(DEFAULT_PERMISSION) ==
            iset{VIEW_CHANNEL, READ_MESSAGE_HISTORY, SEND_MESSAGE, INVITE_OTHERS, SEND_EMBEDS, UPLOAD_FILES, CONNECT, SPEAK, LISTEN, VIDEO}
  {
    ViewingMasks();
    var m0 := DEFAULT_PERMISSION_VIEW_ONLY;
    OneMoreFlag(m0, SEND_MESSAGE);
    var m1 := m0 | SEND_MESSAGE;
    OneMoreFlag(m1, INVITE_OTHERS);
    var m2 := m1 | INVITE_OTHERS;
    OneMoreFlag(m2, SEND_EMBEDS);
    var m3 := m2 | SEND_EMBEDS;
    OneMoreFlag(m3, UPLOAD_FILES);
    var m4 := m3 | UPLOAD_FILES;
    OneMoreFlag(m4, CONNECT);
    var m5 := m4 | CONNECT;
    OneMoreFlag(m5, SPEAK);
    var m6 := m5 | SPEAK;
    OneMoreFlag(m6, LISTEN);
    OneMoreFlag(m6 | LISTEN, VIDEO);
  }

  /** What the two sides of a direct message may do. */
  lemma DirectMessageMask()
    ensures Flags(DEFAULT_PERMISSION_DIRECT_MESSAGE) ==
            Flags(DEFAULT_PERMISSION) + iset{MANAGE_CHANNEL, REACT, MASQUERADE}
  {
    OneMoreFlag(DEFAULT_PERMISSION, MANAGE_CHANNEL);
    OneMoreFlag(DEFAULT_PERMISSION | MANAGE_CHANNEL, REACT);
    OneMoreFlag(DEFAULT_PERMISSION | MANAGE_CHANNEL | REACT, MASQUERADE);
  }

  // ---- When an override may be replaced

  /**
    An override that does not allow what it denies may replace another exactly
    if that lets nothing through that the editor lacks, whatever it is applied to.
   */
  lemma GrantIffNoGain(editor: iset<bv64>, current: Option<Override>, next: Override)
    requires Flags(next.allow) !! Flags(next.deny)
    ensures MayGrant(editor, current, next) <==>
            forall p :: Applied(p, next) <= (if current.Some? then Applied(p, current.value) else p) + editor
  {
    if forall p :: Applied(p, next) <= (if current.Some? then Applied(p, current.value) else p) + editor {
      var nothing: iset<bv64> := iset{};
      assert Applied(nothing, next) <= (if current.Some? then Applied(nothing, current.value) else nothing) + editor;
      if current.Some? {
        forall m | m in Flags(current.value.deny) - Flags(next.deny)
          ensures m in editor
        {
          var p := iset{m};
          assert Applied(p, next) <= Applied(p, current.value) + editor;
          assert m in Applied(p, next);
        }
      }
    }
  }

  /** The test flag by flag, for any two overrides. */
  lemma GrantByFlag(editor: iset<bv64>, current: Override, next: Override)
    ensures MayGrant(editor, Some(current), next) <==>
            forall m :: m !in editor ==>
              (m in Flags(next.allow) ==> m in Flags(current.allow)) && (m in Flags(current.deny) ==> m in Flags(next.deny))
    ensures MayGrant(editor, None, next) <==> forall m :: m in Flags(next.allow) ==> m in editor
  {
    if forall m :: m !in editor ==>
         (m in Flags(next.allow) ==> m in Flags(current.allow)) && (m in Flags(current.deny) ==> m in Flags(next.deny)) {
      assert Flags(next.allow) - Flags(current.allow) <= editor;
      assert Flags(current.deny) - Flags(next.deny) <= editor;
    }
  }

  // ---- Roles

  ghost predicate Speaks(o: Override, m: bv64) {
    m in Flags(o.allow) || m in Flags(o.deny)
  }

  /** Muting, deafening and timing out, flag by flag. */
  ghost predicate Restricted(member: Member, m: bv64) {
    || (!member.canPublish && (m == SPEAK || m == VIDEO))
    || (!member.canReceive && m == LISTEN)
    || Suspended(member, m)
  }

  ghost predicate Suspended(member: Member, m: bv64) {
    member.timedOut && m != VIEW_CHANNEL && m != READ_MESSAGE_HISTORY
  }

  lemma SingleDecider(p: iset<bv64>, grants: Grants, order: seq<RoleId>, id: RoleId, m: bv64)
    requires Lists(order, grants) && grants(id).Some? && Speaks(grants(id).value.override, m)
    requires forall other :: other != id && grants(other).Some? && Speaks(grants(other).value.override, m) ==>
               grants(other).value.rank > grants(id).value.rank
    ensures m in Folded(p, Ordered(grants, order)) <==> m !in Flags(grants(id).value.override.deny)
  {
    OrderedFollowsWinner(p, grants, order, m);
    WinnerDecides(grants, order, m);
    assert Mentions(grants(id).value.override, m);
    var w := Winner(Listed(grants, order), m);
    if w.Some? {
      var other :| Decides(grants, other, m) && grants(other).value == w.value;
      assert other == id;
    }
  }

  lemma NoDecider(p: iset<bv64>, grants: Grants, order: seq<RoleId>, m: bv64)
    requires Lists(order, grants)
    requires forall id :: grants(id).Some? ==> !Speaks(grants(id).value.override, m)
    ensures m in Folded(p, Ordered(grants, order)) <==> m in p
  {
    OrderedFollowsWinner(p, grants, order, m);
    WinnerDecides(grants, order, m);
  }

  lemma LimitedByFlag(p: iset<bv64>, member: Member, m: bv64)
    ensures m in Limited(p, member) <==> m in p && !Restricted(member, m)
    ensures m in TimedOut(p, member) <==> m in p && !Suspended(member, m)
  {
    ViewingMasks();
    FlagsOfFlag(SPEAK);
    FlagsOfFlag(VIDEO);
    FlagsOfFlag(LISTEN);
  }

  /** A role of the member's that speaks about the flag in the server. */
  ghost predicate SpeaksInServer(server: Server, member: Member, id: RoleId, m: bv64) {
    id in server.roles && id in member.roles && Speaks(server.roles[id].permissions, m)
  }

  /** It does, and every other such role has a larger rank. */
  ghost predicate FirstInServer(server: Server, member: Member, id: RoleId, m: bv64) {
    && SpeaksInServer(server, member, id, m)
    && (forall other :: other != id && SpeaksInServer(server, member, other, m) ==> server.roles[other].rank > server.roles[id].rank)
  }

  /** The server role of smallest rank that speaks about a flag settles it. */
  lemma ServerRoleSettles(server: Server, member: Member, h: HashOrder, id: RoleId, m: bv64)
    requires IsHashOrder(h) && FirstInServer(server, member, id, m)
    ensures m in MemberServerFlags(server, member, h) <==>
            m !in Flags(server.roles[id].permissions.deny) && !Restricted(member, m)
    ensures m in BulkServerFlags(server, member, h) <==>
            m !in Flags(server.roles[id].permissions.deny) && !Suspended(member, m)
  {
    var grants, order, p := ServerGrants(server, member), h(server.roles.Keys), Flags(server.defaultPermissions);
    assert Lists(order, grants);
    assert forall other :: grants(other).Some? && Speaks(grants(other).value.override, m) ==> SpeaksInServer(server, member, other, m);
    SingleDecider(p, grants, order, id, m);
    LimitedByFlag(Folded(p, Ordered(grants, order)), member, m);
  }

  /** A flag that no role of the member's speaks about is the server default's. */
  lemma ServerDefaultSettles(server: Server, member: Member, h: HashOrder, m: bv64)
    requires IsHashOrder(h) && forall id :: !SpeaksInServer(server, member, id, m)
    ensures m in MemberServerFlags(server, member, h) <==> m in Flags(server.defaultPermissions) && !Restricted(member, m)
    ensures m in BulkServerFlags(server, member, h) <==> m in Flags(server.defaultPermissions) && !Suspended(member, m)
  {
    var grants, order, p := ServerGrants(server, member), h(server.roles.Keys), Flags(server.defaultPermissions);
    assert Lists(order, grants);
    assert forall id :: grants(id).Some? && Speaks(grants(id).value.override, m) ==> SpeaksInServer(server, member, id, m);
    NoDecider(p, grants, order, m);
    LimitedByFlag(Folded(p, Ordered(grants, order)), member, m);
  }

  /** A role of the member's, known to the server, that speaks about the flag in the channel. */
  ghost predicate SpeaksInChannel(server: Server, member: Member, channel: Channel, id: RoleId, m: bv64)
    requires channel.TextChannel?
  {
    id in server.roles && id in member.roles && id in channel.rolePermissions && Speaks(channel.rolePermissions[id], m)
  }

  /** It does, and every other such role has a larger rank in the server. */
  ghost predicate FirstInChannel(server: Server, member: Member, channel: Channel, id: RoleId, m: bv64)
    requires channel.TextChannel?
  {
    && SpeaksInChannel(server, member, channel, id, m)
    && (forall other :: other != id && SpeaksInChannel(server, member, channel, other, m) ==>
          server.roles[other].rank > server.roles[id].rank)
  }

  /** Both calculators on an ordinary member, before the view gate; the bulk one knows neither mute, deafen nor the last timeout. */
  lemma ChannelRoleSettles(server: Server, member: Member, channel: Channel, user: User, h: HashOrder, id: RoleId, m: bv64)
    requires IsHashOrder(h) && channel.TextChannel? && FirstInChannel(server, member, channel, id, m)
    requires !user.privileged && user.id != server.owner
    ensures m in UngatedFlags(server, member, channel, h) <==>
            m !in Flags(channel.rolePermissions[id].deny) && !Suspended(member, m)
    ensures m in BulkFlags(server, channel, user, Some(member), h) <==> m !in Flags(channel.rolePermissions[id].deny)
  {
    var grants, order := ChannelGrants(server, member, channel.rolePermissions), h(channel.rolePermissions.Keys);
    var default := DefaultOverride(channel.defaultPermissions);
    var base, bulk := Applied(MemberServerFlags(server, member, h), default), Applied(BulkServerFlags(server, member, h), default);
    assert Lists(order, grants);
    assert forall other :: grants(other).Some? && Speaks(grants(other).value.override, m) ==>
             SpeaksInChannel(server, member, channel, other, m);
    SingleDecider(base, grants, order, id, m);
    SingleDecider(bulk, grants, order, id, m);
    LimitedByFlag(Folded(base, Ordered(grants, order)), member, m);
  }

  /** A flag that no channel role of the member's speaks about is the channel default's, and else the server's. */
  lemma ChannelDefaultSettles(server: Server, member: Member, channel: Channel, user: User, h: HashOrder, m: bv64)
    requires IsHashOrder(h) && channel.TextChannel? && forall id :: !SpeaksInChannel(server, member, channel, id, m)
    requires !user.privileged && user.id != server.owner
    ensures channel.defaultPermissions.Some? && Speaks(channel.defaultPermissions.value, m) ==>
              && (m in UngatedFlags(server, member, channel, h) <==>
                  m !in Flags(channel.defaultPermissions.value.deny) && !Suspended(member, m))
              && (m in BulkFlags(server, channel, user, Some(member), h) <==> m !in Flags(channel.defaultPermissions.value.deny))
    ensures !(channel.defaultPermissions.Some? && Speaks(channel.defaultPermissions.value, m)) ==>
              && (m in UngatedFlags(server, member, channel, h) <==>
                  m in MemberServerFlags(server, member, h) && !Suspended(member, m))
              && (m in BulkFlags(server, channel, user, Some(member), h) <==> m in BulkServerFlags(server, member, h))
  {
    var grants, order := ChannelGrants(server, member, channel.rolePermissions), h(channel.rolePermissions.Keys);
    var default := DefaultOverride(channel.defaultPermissions);
    var base, bulk := Applied(MemberServerFlags(server, member, h), default), Applied(BulkServerFlags(server, member, h), default);
    assert Lists(order, grants);
    assert forall id :: grants(id).Some? && Speaks(grants(id).value.override, m) ==> SpeaksInChannel(server, member, channel, id, m);
    FlagsOfZero();
    NoDecider(base, grants, order, m);
    NoDecider(bulk, grants, order, m);
    LimitedByFlag(Folded(base, Ordered(grants, order)), member, m);
  }

  /** In the bulk calculation only members count, and privileged ones and the owner hold everything safe. */
  lemma BulkStanding(server: Server, channel: Channel, user: User, member: Option<Member>, h: HashOrder)
    requires channel.TextChannel?
    ensures member.None? ==> BulkFlags(server, channel, user, member, h) == iset{}
    ensures member.Some? && (user.privileged || user.id == server.owner) ==>
              forall m :: m in BulkFlags(server, channel, user, member, h) <==> m in Flags((1 << 52) - 1)
  {
    FlagPositions();
  }

  /** Of several memberships of one user the last counts. */
  lemma {:induction false} LastMembershipCounts(members: seq<Membership>, i: nat)
    requires i < |members| && forall j :: i < j < |members| ==> members[j].user != members[i].user
    ensures Lookup(ByUser(members), members[i].user) == Some(members[i].member)
  {
    if i < |members| - 1 {
      LastMembershipCounts(members[..|members| - 1], i);
    }
  }

  /** Only users with a membership have one. */
  lemma {:induction false} HasMembership(members: seq<Membership>, user: UserId)
    ensures user in ByUser(members) <==> exists i :: 0 <= i < |members| && members[i].user == user
  {
    if members != [] {
      var front := members[..|members| - 1];
      HasMembership(front, user);
      assert forall i :: 0 <= i < |front| ==> front[i] == members[i];
      assert user in ByUser(members) <==> user in ByUser(front) || members[|members| - 1].user == user;
    }
  }

  /** A missing list is filled with the stored users of the given memberships, or the stored memberships of the given users. */
  lemma MissingListLaw(users: seq<User>, members: seq<Membership>, server: ServerId, id: UserId, database: Database)
    requires UsersKeyedById(database)
    ensures AreFetched(users, IdsOfMembers(members), database) ==>
              ((exists i :: 0 <= i < |users| && users[i].id == id) <==>
               (id in database.users && exists j :: 0 <= j < |members| && members[j].user == id))
    ensures AreFetchedMembers(members, server, IdsOfUsers(users), database) ==>
              ((exists j :: 0 <= j < |members| && members[j].user == id) <==>
               ((server, id) in database.members && exists i :: 0 <= i < |users| && users[i].id == id))
  {
    HasMembership(members, id);
    assert id in IdsOfMembers(members) <==> exists j :: 0 <= j < |members| && members[j].user == id;
    assert id in IdsOfUsers(users) <==> exists i :: 0 <= i < |users| && users[i].id == id;
  }

  // ---- Whose membership, which server

  /** The server selected, or else stored, for the channel of a query. */
  ghost predicate IsServerOf(q: Query, server: Option<Server>)
    requires q.channel.Some? && q.channel.value.TextChannel?
  {
    var id := q.channel.value.server;
    if q.server.Some? && q.server.value.id == id then server == q.server
    else if id in q.database.servers then server == Some(q.database.servers[id])
    else server == q.server
  }

  /** The membership selected, or else stored, for the user in a server. */
  ghost predicate IsMembership(q: Query, server: Server, member: Option<Member>) {
    if q.member.Some? then member == q.member
    else if (server.id, q.perspective.id) in q.database.members
    then member == Some(q.database.members[(server.id, q.perspective.id)])
    else member == None
  }

  /** Server permissions by standing: everything safe, nothing, or the member's. */
  lemma ServerStanding(q: Query, member: Option<Member>, h: HashOrder)
    requires q.server.Some? && IsMembership(q, q.server.value, member)
    ensures q.perspective.privileged || q.server.value.owner == q.perspective.id ==> ServerFlags(q, h) == Flags((1 << 52) - 1)
    ensures !q.perspective.privileged && q.server.value.owner != q.perspective.id ==>
              ServerFlags(q, h) == if member.None? then iset{} else MemberServerFlags(q.server.value, member.value, h)
  {
    FlagPositions();
  }

  /** Permissions in a server channel by standing; an ordinary member who may not view it has none. */
  lemma ServerChannelStanding(q: Query, server: Option<Server>, member: Option<Member>, h: HashOrder)
    requires q.channel.Some? && q.channel.value.TextChannel? && IsServerOf(q, server)
    requires server.Some? ==> IsMembership(q, server.value, member)
    ensures q.perspective.privileged ==> ChannelFlags(q, h) == Flags((1 << 52) - 1)
    ensures !q.perspective.privileged && server.None? ==> ChannelFlags(q, h) == iset{}
    ensures !q.perspective.privileged && server.Some? && server.value.owner == q.perspective.id ==>
              ChannelFlags(q, h) == Flags((1 << 52) - 1)
    ensures !q.perspective.privileged && server.Some? && server.value.owner != q.perspective.id ==>
              if member.None? then ChannelFlags(q, h) == iset{}
              else
                var ungated := UngatedFlags(server.value, member.value, q.channel.value, h);
                ChannelFlags(q, h) == if VIEW_CHANNEL in ungated then ungated else iset{}
  {
    FlagPositions();
    ViewFacts();
    assert q.WithServerOfChannel().server == server;
  }

  // ---- The other kinds of channel

  /** `status` is what the user's first entry about the other says, if there is one. */
  ghost predicate IsRelation(user: User, other: UserId, status: RelationshipStatus) {
    || (status == NoRelation && forall i :: 0 <= i < |user.relations| ==> user.relations[i].id != other)
    || (exists i :: 0 <= i < |user.relations| && user.relations[i] == Relationship(other, status) &&
          forall j :: 0 <= j < i ==> user.relations[j].id != other)
  }

  lemma {:induction false} FirstRelation(relations: seq<Relationship>, other: UserId)
    ensures var status := RelationIn(relations, other);
            || (status == NoRelation && forall i :: 0 <= i < |relations| ==> relations[i].id != other)
            || (exists i :: 0 <= i < |relations| && relations[i] == Relationship(other, status) &&
                  forall j :: 0 <= j < i ==> relations[j].id != other)
  {
    if relations != [] {
      if relations[0].id == other {
        assert relations[0] == Relationship(other, RelationIn(relations, other));
      } else {
        FirstRelation(relations[1..], other);
        var rest, status := relations[1..], RelationIn(relations[1..], other);
        if i :| 0 <= i < |rest| && rest[i] == Relationship(other, status) && forall j :: 0 <= j < i ==> rest[j].id != other {
          assert relations[i + 1] == Relationship(other, status);
          assert forall j :: 0 <= j < i + 1 ==> relations[j].id != other by {
            forall j | 0 <= j < i + 1 ensures relations[j].id != other { assert j == 0 || relations[j] == rest[j - 1]; }
          }
        } else {
          assert forall i :: 0 < i < |relations| ==> relations[i] == rest[i - 1];
        }
      }
    }
  }

  /** How the user relates to the selected one: oneself and one's own bots count as oneself. */
  lemma RelationshipLaw(q: Query, other: User)
    requires q.user == Some(other)
    ensures q.AreTheUsersSame() <==> q.perspective.id == other.id
    ensures q.UserIsBot() <==> other.botOwner.Some?
    ensures q.perspective.id == other.id || other.botOwner == Some(q.perspective.id) ==> q.UserRelationship() == Self
    ensures q.perspective.id != other.id && other.botOwner != Some(q.perspective.id) ==>
              IsRelation(q.perspective, other.id, q.UserRelationship())
    ensures q.mutualConnection.None? ==> (q.HaveMutualConnection() <==> (q.perspective.id, other.id) in q.database.mutualConnections)
    ensures q.mutualConnection.Some? ==> q.HaveMutualConnection() == q.mutualConnection.value
  {
    FirstRelation(q.perspective.relations, other.id);
  }

  /** Without a selected user there is no relationship. */
  lemma NobodySelected(q: Query)
    requires q.user.None?
    ensures !q.AreTheUsersSame() && !q.UserIsBot() && q.UserRelationship() == NoRelation
    ensures q.HaveMutualConnection() <==> q.mutualConnection == Some(true)
  {}

  /** Who may write to whom, from the stored users. */
  ghost predicate MayWrite(q: Query, other: User) {
    || q.perspective.id == other.id
    || (var status := q.(user := Some(other)).UserRelationship();
        || status == Friend
        || (status != Blocked && status != BlockedOther
            && (if q.mutualConnection.Some? then q.mutualConnection.value
                else (q.perspective.id, other.id) in q.database.mutualConnections)
            && (other.botOwner.Some? || q.perspective.botOwner.Some?)))
  }

  /** If nobody is known on the other side, only a bot with a remembered connection may. */
  ghost predicate MayWriteTo(q: Query, other: Option<User>) {
    match other
    case Some(user) => MayWrite(q, user)
    case None => q.mutualConnection == Some(true) && q.perspective.botOwner.Some?
  }

  /** A direct message: everything direct messages allow if the user may write to the other side, else viewing only. */
  lemma DirectMessageLaw(q: Query, first: nat, h: HashOrder)
    requires q.channel.Some? && q.channel.value.DirectMessage? && !q.perspective.privileged && HasRecipient(q)
    ensures q.perspective.id !in q.channel.value.recipients ==> ChannelFlags(q, h) == iset{}
    ensures var recipients := q.channel.value.recipients;
            && q.perspective.id in recipients
            && first < |recipients| && recipients[first] != q.perspective.id
            && (forall j :: 0 <= j < first ==> recipients[j] == q.perspective.id)
            ==> ChannelFlags(q, h) == if MayWriteTo(q, if recipients[first] in q.database.users
                                                       then Some(q.database.users[recipients[first]]) else q.user)
                                      then Flags(DEFAULT_PERMISSION) + iset{MANAGE_CHANNEL, REACT, MASQUERADE}
                                      else iset{VIEW_CHANNEL, READ_MESSAGE_HISTORY}
  {
    ViewingMasks();
    DirectMessageMask();
    if q.AreWePartOfTheChannel() {
      var recipients := q.channel.value.recipients;
      if first < |recipients| && recipients[first] != q.perspective.id && forall j :: 0 <= j < first ==> recipients[j] == q.perspective.id {
        FirstOtherAt(recipients, q.perspective.id, first);
        UserPermissionLaw(q.WithRecipient());
      }
    }
  }

  lemma FirstOtherAt(recipients: seq<UserId>, me: UserId, first: nat)
    requires first < |recipients| && recipients[first] != me && forall j :: 0 <= j < first ==> recipients[j] == me
    ensures (exists id :: id in recipients && id != me) && FirstOther(recipients, me) == recipients[first]
  {
    assert recipients[first] in recipients;
    if first > 0 {
      FirstOtherAt(recipients[1..], me, first - 1);
    }
  }

  /** A group: everything safe for its owner, viewing and the group's permissions for the others in it. */
  lemma GroupLaw(q: Query, h: HashOrder)
    requires q.channel.Some? && q.channel.value.Group? && !q.perspective.privileged
    ensures var group, me := q.channel.value, q.perspective.id;
            && (group.owner == me ==> ChannelFlags(q, h) == Flags((1 << 52) - 1))
            && (group.owner != me && me !in group.recipients ==> ChannelFlags(q, h) == iset{})
            && (group.owner != me && me in group.recipients ==>
                  forall m :: m in ChannelFlags(q, h) <==>
                    || m == VIEW_CHANNEL || m == READ_MESSAGE_HISTORY
                    || (if group.permissions.Some? then m in Flags(group.permissions.value)
                        else m in Flags(DEFAULT_PERMISSION) || m == MANAGE_CHANNEL || m == REACT || m == MASQUERADE))
  {
    FlagPositions();
    ViewingMasks();
    DirectMessageMask();
  }

  /** Saved messages are their owner's; without a channel there are no permissions; privileged users hold everything safe. */
  lemma SavedMessagesLaw(q: Query, h: HashOrder)
    requires HasRecipient(q)
    ensures q.perspective.privileged ==> ChannelFlags(q, h) == Flags((1 << 52) - 1)
    ensures !q.perspective.privileged && q.channel.None? ==> ChannelFlags(q, h) == iset{}
    ensures !q.perspective.privileged && q.channel.Some? && q.channel.value.SavedMessages? ==>
              ChannelFlags(q, h) == if q.channel.value.user == q.perspective.id then Flags((1 << 52) - 1) else iset{}
  {
    FlagPositions();
  }

  // ---- What a calculation leaves selected

  /** A calculation changes nothing of a query but what it had to look up. */
  lemma CalculationsOnlySelect(q: Query)
    ensures var u := AfterUserCalculation(q);
            && u == q.(mutualConnection := u.mutualConnection)
            && (u.mutualConnection != q.mutualConnection ==>
                  && q.mutualConnection.None? && q.user.Some? && !q.perspective.privileged
                  && q.perspective.id != q.user.value.id
                  && !q.UserRelationship().Friend? && !q.UserRelationship().Blocked? && !q.UserRelationship().BlockedOther?
                  && u.mutualConnection == Some((q.perspective.id, q.user.value.id) in q.database.mutualConnections))
    ensures var s := AfterServerCalculation(q);
            && s == q.(member := s.member)
            && (s.member != q.member ==>
                  && q.member.None? && q.server.Some? && !q.perspective.privileged && q.server.value.owner != q.perspective.id
                  && s.member == Lookup(q.database.members, (q.server.value.id, q.perspective.id)))
            && (!q.perspective.privileged && q.server.Some? && q.server.value.owner != q.perspective.id ==>
                  IsMembership(q, q.server.value, s.member))
  {}

  /** A user calculation that gets as far as the mutual connection keeps the answer. */
  lemma MutualConnectionIsKept(q: Query, other: User)
    requires q.user == Some(other) && !q.perspective.privileged && q.perspective.id != other.id
    requires var status := q.UserRelationship(); !status.Friend? && !status.Blocked? && !status.BlockedOther?
    ensures AfterUserCalculation(q).mutualConnection ==
            if q.mutualConnection.Some? then q.mutualConnection
            else Some((q.perspective.id, other.id) in q.database.mutualConnections)
  {}

  /** What a channel calculation leaves selected. */
  lemma ChannelCalculationSelects(q: Query)
    requires HasRecipient(q)
    ensures var c := AfterChannelCalculation(q);
            && c.database == q.database && c.perspective == q.perspective && c.channel == q.channel
            && (q.perspective.privileged || q.channel.None? ==> c == q)
            && (q.channel.Some? && (q.channel.value.Group? || q.channel.value.SavedMessages?) ==> c == q)
            && (!q.perspective.privileged && q.channel.Some? && q.channel.value.TextChannel? ==>
                  && c.user == q.user && c.mutualConnection == q.mutualConnection && IsServerOf(q, c.server)
                  && (c.server.Some? && c.server.value.owner != q.perspective.id ==> IsMembership(q, c.server.value, c.member)))
            && (!q.perspective.privileged && q.channel.Some? && q.channel.value.DirectMessage? ==>
                  && c.server == q.server && c.member == q.member
                  && (q.perspective.id !in q.channel.value.recipients ==> c == q))
  {}

  /** In a direct message the first other recipient is selected, if stored, and a connection looked up is kept. */
  lemma DirectMessageSelects(q: Query, first: nat)
    requires q.channel.Some? && q.channel.value.DirectMessage? && !q.perspective.privileged && HasRecipient(q)
    requires var recipients := q.channel.value.recipients;
             && q.perspective.id in recipients && first < |recipients| && recipients[first] != q.perspective.id
             && forall j :: 0 <= j < first ==> recipients[j] == q.perspective.id
    ensures var other := q.channel.value.recipients[first];
            var selected := q.(user := if other in q.database.users then Some(q.database.users[other]) else q.user);
            AfterChannelCalculation(q) == AfterUserCalculation(selected)
  {
    FirstOtherAt(q.channel.value.recipients, q.perspective.id, first);
  }
}
