/** Which events change what a user may view, and which of those changes no recalculation follows. */
module Visibility {
  import opened Bits
  import opened Collections
  import opened Permissions
  import opened RoleOverrides
  import opened Entities
  import opened PermissionQueries
  import opened ClientState
  import opened Subscriptions
  import opened Wrappers

  ghost predicate SameGrants(g: Grants, g': Grants) {
    forall id :: g(id) == g'(id)
  }

  lemma {:induction false} SameListing(g: Grants, g': Grants, order: seq<RoleId>)
    requires SameGrants(g, g')
    ensures Listed(g, order) == Listed(g', order)
  {
    if order != [] {
      SameListing(g, g', order[..|order| - 1]);
    }
  }

  /** Equal entries give equal permissions, whichever keys surround them in the map. */
  lemma SameFold(p: iset<bv64>, g: Grants, g': Grants, order: seq<RoleId>, order': seq<RoleId>)
    requires SameGrants(g, g') && TieFree(g)
    requires Lists(order, g) && Lists(order', g)
    ensures Folded(p, Ordered(g, order)) == Folded(p, Ordered(g', order'))
  {
    TieFreeIsOrderIrrelevant(g);
    SameListing(g, g', order');
  }

  /** A member's permissions do not depend on roles the member lacks. */
  lemma UnheldRolesDoNotMatter(server: Server, server': Server, member: Member, channel: Channel, h: HashOrder)
    requires channel.TextChannel? && IsHashOrder(h)
    requires server'.defaultPermissions == server.defaultPermissions
    requires forall id :: id in member.roles ==> Lookup(server.roles, id) == Lookup(server'.roles, id)
    requires TieFree(ServerGrants(server, member))
    requires TieFree(ChannelGrants(server, member, channel.rolePermissions))
    ensures MemberChannelFlags(server', member, channel, h) == MemberChannelFlags(server, member, channel, h)
  {
    var sg, sg' := ServerGrants(server, member), ServerGrants(server', member);
    forall id
      ensures sg(id) == sg'(id)
      ensures ChannelGrants(server, member, channel.rolePermissions)(id)
              == ChannelGrants(server', member, channel.rolePermissions)(id)
    {
      if id in member.roles {
        assert Lookup(server.roles, id) == Lookup(server'.roles, id);
      }
    }
    assert Lists(h(server.roles.Keys), sg);
    assert Lists(h(server'.roles.Keys), sg) by {
      assert Enumerates(h(server'.roles.Keys), server'.roles.Keys);
      assert forall id :: sg(id).Some? ==> sg'(id).Some?;
    }
    SameFold(Flags(server.defaultPermissions), sg, sg', h(server.roles.Keys), h(server'.roles.Keys));
    var cg, cg' := ChannelGrants(server, member, channel.rolePermissions), ChannelGrants(server', member, channel.rolePermissions);
    var order := h(channel.rolePermissions.Keys);
    assert Lists(order, cg);
    SameFold(Applied(MemberServerFlags(server, member, h), DefaultOverride(channel.defaultPermissions)), cg, cg', order, order);
  }

  /** Timeouts, mutes and deafenings change no flag that a timeout allows and that is not about voice. */
  lemma RestrictionsKeepFlag(server: Server, member: Member, member': Member, channel: Channel, h: HashOrder, m: bv64)
    requires channel.TextChannel? && member'.roles == member.roles
    requires m in Flags(ALLOW_IN_TIMEOUT)
    ensures m in UngatedFlags(server, member, channel, h) <==> m in UngatedFlags(server, member', channel, h)
  {
    TimeoutMaskFacts();
    SameListing(ServerGrants(server, member), ServerGrants(server, member'), h(server.roles.Keys));
    SameListing(ChannelGrants(server, member, channel.rolePermissions), ChannelGrants(server, member', channel.rolePermissions),
                h(channel.rolePermissions.Keys));
    var overrides := Ordered(ChannelGrants(server, member, channel.rolePermissions), h(channel.rolePermissions.Keys));
    var default := DefaultOverride(channel.defaultPermissions);
    var base, base' := MemberServerFlags(server, member, h), MemberServerFlags(server, member', h);
    assert m in base <==> m in base';
    FoldIsPointwise(Applied(base, default), Applied(base', default), overrides, m);
  }

  lemma {:induction false} FoldIsPointwise(p: iset<bv64>, q: iset<bv64>, os: seq<Override>, m: bv64)
    requires m in p <==> m in q
    ensures m in Folded(p, os) <==> m in Folded(q, os)
  {
    if os != [] {
      FoldIsPointwise(p, q, os[..|os| - 1], m);
    }
  }

  /** The membership alone lets its holder view the channel. */
  ghost predicate Permits(server: Server, member: Member, channel: Channel, h: HashOrder)
    requires channel.TextChannel?
  {
    VIEW_CHANNEL in MemberChannelFlags(server, member, channel, h)
  }

  lemma RestrictionsKeepView(server: Server, member: Member, member': Member, channel: Channel, h: HashOrder)
    requires channel.TextChannel? && member'.roles == member.roles
    ensures Permits(server, member, channel, h) <==> Permits(server, member', channel, h)
  {
    ViewFacts();
    TimeoutMaskFacts();
    assert VIEW_CHANNEL in Flags(VIEW_CHANNEL);
    RestrictionsKeepFlag(server, member, member', channel, h, VIEW_CHANNEL);
  }

  // ---- What decides whether a cached member views a channel

  /** The cached server is the one the calculation runs on; otherwise it is the stored one. */
  predicate UsesCached(p: Perspective, channel: Channel)
    requires channel.TextChannel?
  {
    channel.server in p.servers &&
    (p.servers[channel.server].id == channel.server || channel.server !in p.database.servers)
  }

  function ServerFor(p: Perspective, channel: Channel): Option<Server>
    requires channel.TextChannel?
  {
    if UsesCached(p, channel) then Some(p.servers[channel.server]) else Lookup(p.database.servers, channel.server)
  }

  /** The membership the calculation runs on: the cached one, otherwise the user's stored one. */
  function MemberFor(p: Perspective, channel: Channel): Option<Member>
    requires channel.TextChannel?
  {
    if ServerFor(p, channel).None? then None
    else if channel.server in p.members then Some(p.members[channel.server])
    else Lookup(p.database.members, (ServerFor(p, channel).value.id, p.user.id))
  }

  /** The user views the channel as privileged user or as owner. */
  predicate Stands(p: Perspective, channel: Channel)
    requires channel.TextChannel?
  {
    p.user.privileged || (ServerFor(p, channel).Some? && ServerFor(p, channel).value.owner == p.user.id)
  }

  /** The user views the channel by the membership. */
  ghost predicate Shows(p: Perspective, channel: Channel)
    requires channel.TextChannel?
  {
    MemberFor(p, channel).Some? && Permits(ServerFor(p, channel).value, MemberFor(p, channel).value, channel, p.hash)
  }

  /** A channel is viewed as privileged user, as owner, or by the membership, and in no other way. */
  lemma ViewDecided(p: Perspective, channel: Channel)
    requires channel.TextChannel?
    ensures CanView(p, channel) <==> Stands(p, channel) || Shows(p, channel)
  {
    ViewFacts();
    assert VIEW_CHANNEL in Flags(VIEW_CHANNEL);
    var q := ViewQuery(p, channel).WithServerOfChannel();
    assert q.server == ServerFor(p, channel);
    assert q.FoundMember() == MemberFor(p, channel);
  }

  // ---- Which events change it

  /** Every cached server is one whose membership is cached. */
  ghost predicate MembershipsCached(c: Cache) {
    forall id :: id in c.servers ==> id in c.members
  }

  /** Every event keeps that, with or without a recalculation; an empty cache starts with it. */
  lemma EventsKeepMemberships(c: Cache, topics: set<Topic>, event: Event, me: UserId, database: Database, h: HashOrder,
                              bot: bool, fetched: bool, after: Cache, topics': set<Topic>, event': Event,
                              deleted: seq<ChannelId>, created: seq<Channel>)
    requires me in c.users && MembershipsCached(c)
    requires IsHandled(c, topics, event, me, database, h, bot, fetched, after, topics', event', deleted, created)
    ensures MembershipsCached(after)
  {
    assert MembershipsCached(AfterEvent(c, event, me, database));
  }

  /** No role ties for the user in any cached server, nor in `channel`. */
  ghost predicate NoTies(c: Cache, channel: Channel)
    requires channel.TextChannel?
  {
    forall id :: id in c.servers && id in c.members ==>
      && TieFree(ServerGrants(c.servers[id], c.members[id]))
      && TieFree(ChannelGrants(c.servers[id], c.members[id], channel.rolePermissions))
  }

  predicate ChangesPermissions(event: Event) {
    event.ServerUpdate? || event.ServerMemberUpdate? || event.ServerRoleUpdate? || event.ServerRoleDelete?
  }

  /** A role table inside a server update, if there is one, agrees on the roles the member holds. */
  ghost predicate KeepsHeldRoles(c: Cache, event: Event) {
    event.ServerUpdate? && event.update.roles.Some? && event.id in c.servers && event.id in c.members ==>
      forall id :: id in c.members[event.id].roles ==> Lookup(event.update.roles.value, id) == Lookup(c.servers[event.id].roles, id)
  }

  /** An ownership transfer that takes from the user, or gives to the user, a channel the membership does not show. */
  ghost predicate TransferFlips(p: Perspective, update: PartialServer, channel: Channel)
    requires channel.TextChannel?
  {
    && UsesCached(p, channel) && channel.server in p.members
    && update.owner.Some?
    && !p.user.privileged
    && !(p.servers[channel.server].owner == p.user.id <==> update.owner.value == p.user.id)
    && !Permits(p.servers[channel.server], p.members[channel.server], channel, p.hash)
  }

  /**
    Another entry under the user's own key that stands differently where the
    cached membership does not show the channel; without a cached membership the
    stored one of the entry counts as well.
   */
  ghost predicate EntryFlips(p: Perspective, user: User, channel: Channel)
    requires channel.TextChannel?
  {
    var p' := p.(user := user);
    if channel.server in p.members then !Shows(p, channel) && !(Stands(p, channel) <==> Stands(p', channel))
    else !(Stands(p, channel) || Shows(p, channel) <==> Stands(p', channel) || Shows(p', channel))
  }

  /** Leaving a server for which the stored server and membership decide otherwise than the cached ones. */
  ghost predicate LeavingFlips(p: Perspective, channel: Channel)
    requires channel.TextChannel?
  {
    var p' := p.(servers := p.servers - {channel.server}, members := p.members - {channel.server});
    !(Stands(p, channel) || Shows(p, channel) <==> Stands(p', channel) || Shows(p', channel))
  }

  /** The events that change the view of a channel without queueing its server. */
  ghost predicate FlipsView(c: Cache, event: Event, me: UserId, database: Database, h: HashOrder, channel: Channel)
    requires me in c.users && channel.TextChannel?
  {
    var p := PerspectiveOf(c, me, database, h);
    match event
    case ServerUpdate(id, update) => id == channel.server && TransferFlips(p, update, channel)
    case UserRelationship(id, user) => id == me && EntryFlips(p, user, channel)
    case ServerMemberLeave(id, user) => user == me && id == channel.server && LeavingFlips(p, channel)
    case ServerDelete(id) => id == channel.server && LeavingFlips(p, channel)
    case _ => false
  }

  lemma SameServerSameView(p: Perspective, p': Perspective, channel: Channel)
    requires channel.TextChannel?
    requires p'.database == p.database && p'.user == p.user && p'.hash == p.hash
    requires Lookup(p'.servers, channel.server) == Lookup(p.servers, channel.server)
    requires Lookup(p'.members, channel.server) == Lookup(p.members, channel.server)
    ensures CanView(p', channel) <==> CanView(p, channel)
  {
    assert ViewQuery(p', channel) == ViewQuery(p, channel);
  }

  /** The roles a user holds look the same after an unqueued role event. */
  lemma HeldRolesUnchanged(c: Cache, event: Event, me: UserId, database: Database)
    requires event.ServerRoleUpdate? || event.ServerRoleDelete?
    requires event.id in c.servers && event.id in c.members
    requires Queued(c, event, me).None?
    ensures var c' := AfterEvent(c, event, me, database);
            && c'.members == c.members && c'.users == c.users && event.id in c'.servers
            && var server, server' := c.servers[event.id], c'.servers[event.id];
            && c'.servers == c.servers[event.id := server.(roles := server'.roles)]
            && (forall id :: id in c.members[event.id].roles ==> Lookup(server.roles, id) == Lookup(server'.roles, id))
  {
    if event.ServerRoleUpdate? && event.role in c.servers[event.id].roles {
      var server := c.servers[event.id];
      var server' := WithRole(server, event.role, event.rank, event.permissions);
      if event.role in c.members[event.id].roles {
        assert server'.roles[event.role] == server.roles[event.role];
      }
    }
  }

  /** Servers and memberships other than the event's are untouched. */
  lemma OtherServersUnchanged(c: Cache, event: Event, me: UserId, database: Database, id: ServerId)
    requires ChangesPermissions(event)
    requires event.id != id || (!event.ServerMemberUpdate? && event.id !in c.servers) ||
             (event.ServerMemberUpdate? && (event.user != me || event.id !in c.members))
    ensures var c' := AfterEvent(c, event, me, database);
            && c'.users == c.users
            && Lookup(c'.servers, id) == Lookup(c.servers, id)
            && Lookup(c'.members, id) == Lookup(c.members, id)
  {}

  /** A server update in the channel's own server: exact, for any update that leaves default and held roles alone. */
  lemma ServerUpdateView(p: Perspective, p': Perspective, update: PartialServer, channel: Channel)
    requires channel.TextChannel? && IsHashOrder(p.hash)
    requires channel.server in p.servers && channel.server in p.members
    requires p' == p.(servers := p.servers[channel.server := WithUpdate(p.servers[channel.server], update)])
    requires var server, server', member := p.servers[channel.server], p'.servers[channel.server], p.members[channel.server];
             && server'.defaultPermissions == server.defaultPermissions
             && (forall id :: id in member.roles ==> Lookup(server.roles, id) == Lookup(server'.roles, id))
             && TieFree(ServerGrants(server, member))
             && TieFree(ChannelGrants(server, member, channel.rolePermissions))
    ensures (CanView(p', channel) <==> CanView(p, channel)) <==>
            || p.user.privileged || !UsesCached(p, channel)
            || (p.servers[channel.server].owner == p.user.id <==> p'.servers[channel.server].owner == p.user.id)
            || Permits(p.servers[channel.server], p.members[channel.server], channel, p.hash)
  {
    UnheldRolesDoNotMatter(p.servers[channel.server], p'.servers[channel.server], p.members[channel.server], channel, p.hash);
    ViewDecided(p, channel);
    ViewDecided(p', channel);
  }

  /** Changing roles the user does not hold leaves every channel of the server as visible as it was. */
  lemma UnheldRoleSameView(p: Perspective, p': Perspective, roles: map<RoleId, Role>, channel: Channel)
    requires channel.TextChannel? && IsHashOrder(p.hash)
    requires channel.server in p.servers && channel.server in p.members
    requires var server, member := p.servers[channel.server], p.members[channel.server];
             && p' == p.(servers := p.servers[channel.server := server.(roles := roles)])
             && (forall id :: id in member.roles ==> Lookup(server.roles, id) == Lookup(roles, id))
             && TieFree(ServerGrants(server, member))
             && TieFree(ChannelGrants(server, member, channel.rolePermissions))
    ensures CanView(p', channel) <==> CanView(p, channel)
  {
    var update := PartialServer(None, None, Some(roles), None);
    assert WithUpdate(p.servers[channel.server], update) == p.servers[channel.server].(roles := roles);
    ServerUpdateView(p, p', update, channel);
  }

  /** A timeout, a mute or a deafening needs no recalculation. */
  lemma RestrictedMemberSameView(p: Perspective, p': Perspective, channel: Channel)
    requires channel.TextChannel? && channel.server in p.members && channel.server in p'.members
    requires p' == p.(members := p'.members)
    requires p'.members[channel.server].roles == p.members[channel.server].roles
    ensures CanView(p', channel) <==> CanView(p, channel)
  {
    ViewDecided(p, channel);
    ViewDecided(p', channel);
    if ServerFor(p, channel).Some? {
      RestrictionsKeepView(ServerFor(p, channel).value, p.members[channel.server], p'.members[channel.server], channel, p.hash);
    }
  }

  /** The view of the channel is the same before and after the event. */
  ghost predicate KeepsView(c: Cache, event: Event, me: UserId, database: Database, h: HashOrder, channel: Channel)
    requires me in c.users
  {
    CanView(PerspectiveOf(AfterEvent(c, event, me, database), me, database, h), channel) <==>
    CanView(PerspectiveOf(c, me, database, h), channel)
  }

  /** The events that change the channel's own server or membership without queueing it. */
  lemma OwnServerView(c: Cache, event: Event, me: UserId, database: Database, h: HashOrder, channel: Channel)
    requires me in c.users && IsHashOrder(h) && channel.TextChannel?
    requires ChangesPermissions(event) && event.id == channel.server
    requires event.id in c.members && (event.ServerMemberUpdate? || event.id in c.servers)
    requires NoTies(c, channel) && KeepsHeldRoles(c, event)
    requires Queued(c, event, me).None?
    ensures KeepsView(c, event, me, database, h, channel) <==> !FlipsView(c, event, me, database, h, channel)
  {
    var c' := AfterEvent(c, event, me, database);
    var p, p' := PerspectiveOf(c, me, database, h), PerspectiveOf(c', me, database, h);
    if event.ServerUpdate? {
      ServerUpdateView(p, p', event.update, channel);
    } else if event.ServerMemberUpdate? {
      RestrictedMemberSameView(p, p', channel);
    } else {
      HeldRolesUnchanged(c, event, me, database);
      UnheldRoleSameView(p, p', c'.servers[event.id].roles, channel);
    }
  }

  lemma PermissionEventView(c: Cache, event: Event, me: UserId, database: Database, h: HashOrder, channel: Channel)
    requires me in c.users && IsHashOrder(h) && channel.TextChannel?
    requires ChangesPermissions(event) && KeepsHeldRoles(c, event)
    requires MembershipsCached(c) && NoTies(c, channel)
    requires Queued(c, event, me) != Some(channel.server)
    ensures KeepsView(c, event, me, database, h, channel) <==> !FlipsView(c, event, me, database, h, channel)
  {
    if event.id == channel.server && event.id in c.members && (event.ServerMemberUpdate? || event.id in c.servers) {
      OwnServerView(c, event, me, database, h, channel);
    } else {
      OtherServersUnchanged(c, event, me, database, channel.server);
      SameServerSameView(PerspectiveOf(c, me, database, h),
                         PerspectiveOf(AfterEvent(c, event, me, database), me, database, h), channel);
    }
  }

  /** An entry stored under the user's own key: exact. */
  lemma EntryView(p: Perspective, user: User, channel: Channel)
    requires channel.TextChannel?
    ensures (CanView(p.(user := user), channel) <==> CanView(p, channel)) <==> !EntryFlips(p, user, channel)
  {
    ViewDecided(p, channel);
    ViewDecided(p.(user := user), channel);
  }

  lemma LeavingView(p: Perspective, channel: Channel)
    requires channel.TextChannel?
    ensures var p' := p.(servers := p.servers - {channel.server}, members := p.members - {channel.server});
            (CanView(p', channel) <==> CanView(p, channel)) <==> !LeavingFlips(p, channel)
  {
    ViewDecided(p, channel);
    ViewDecided(p.(servers := p.servers - {channel.server}, members := p.members - {channel.server}), channel);
  }

  /** Relationships, departures, and every event that is about something else. */
  lemma OtherEventView(c: Cache, event: Event, me: UserId, database: Database, h: HashOrder, channel: Channel)
    requires me in c.users && channel.TextChannel? && !ChangesPermissions(event)
    requires Queued(c, event, me) != Some(channel.server)
    ensures KeepsView(c, event, me, database, h, channel) <==> !FlipsView(c, event, me, database, h, channel)
  {
    var p, p' := PerspectiveOf(c, me, database, h), PerspectiveOf(AfterEvent(c, event, me, database), me, database, h);
    if event.UserRelationship? && event.id == me {
      EntryView(p, event.userData, channel);
    } else if IsDeparture(event, me) && event.id == channel.server {
      LeavingView(p, channel);
    } else {
      SameServerSameView(p, p', channel);
    }
  }

  predicate IsDeparture(event: Event, me: UserId) {
    event.ServerDelete? || (event.ServerMemberLeave? && event.user == me)
  }

  /**
    Every event leaves the view of a text channel outside the server it queues
    alone, with exactly three kinds of exception: an ownership transfer from or
    to the user, another entry stored under the user's own key, and a departure
    from the server, each only where it makes a difference.
   */
  lemma QueueIsComplete(c: Cache, event: Event, me: UserId, database: Database, h: HashOrder, channel: Channel)
    requires me in c.users && IsHashOrder(h) && channel.TextChannel?
    requires KeepsHeldRoles(c, event)
    requires MembershipsCached(c) && NoTies(c, channel)
    requires Queued(c, event, me) != Some(channel.server)
    ensures KeepsView(c, event, me, database, h, channel) <==> !FlipsView(c, event, me, database, h, channel)
  {
    if ChangesPermissions(event) {
      PermissionEventView(c, event, me, database, h, channel);
    } else {
      OtherEventView(c, event, me, database, h, channel);
    }
  }

  // ---- The cache stays in step with what may be viewed

  /** Every cached channel of the server is viewable and subscribed. */
  ghost predicate InStep(c: Cache, topics: set<Topic>, me: UserId, database: Database, h: HashOrder, server: ServerId) {
    forall id :: id in c.channels && BelongsTo(c.channels[id], server) ==> Sees(c, me, database, h, id) && id in topics
  }

  /** No role ties for the user in any cached server or channel. */
  ghost predicate NoTiesAnywhere(c: Cache) {
    forall id :: id in c.channels && c.channels[id].TextChannel? ==> NoTies(c, c.channels[id])
  }

  /** A channel that was cached before, as it was, keeps its view; one that the event puts there is viewable. */
  ghost predicate FitsAt(c: Cache, event: Event, me: UserId, database: Database, h: HashOrder, id: ChannelId)
    requires me in c.users
  {
    var c' := AfterEvent(c, event, me, database);
    id in c'.channels && c'.channels[id].TextChannel? &&
    if Lookup(c.channels, id) == Some(c'.channels[id]) then !FlipsView(c, event, me, database, h, c'.channels[id])
    else Sees(c', me, database, h, id)
  }

  /** Every channel of the server that is cached after the event fits and is subscribed. */
  ghost predicate Fits(c: Cache, topics: set<Topic>, event: Event, me: UserId, database: Database, h: HashOrder, bot: bool,
                       server: ServerId)
    requires me in c.users
  {
    var c' := AfterEvent(c, event, me, database);
    forall id :: id in c'.channels && BelongsTo(c'.channels[id], server) ==>
      FitsAt(c, event, me, database, h, id) && id in TopicsAfter(c, topics, event, me, database, h, bot)
  }

  lemma FitsIsSeen(c: Cache, event: Event, me: UserId, database: Database, h: HashOrder, id: ChannelId)
    requires me in c.users && IsHashOrder(h) && KeepsHeldRoles(c, event)
    requires MembershipsCached(c) && NoTiesAnywhere(c)
    requires var c' := AfterEvent(c, event, me, database);
             && id in c'.channels && c'.channels[id].TextChannel? && Queued(c, event, me) != Some(c'.channels[id].server)
             && (Lookup(c.channels, id) == Some(c'.channels[id]) ==> Sees(c, me, database, h, id))
    ensures Sees(AfterEvent(c, event, me, database), me, database, h, id) <==> FitsAt(c, event, me, database, h, id)
  {
    var c' := AfterEvent(c, event, me, database);
    if Lookup(c.channels, id) == Some(c'.channels[id]) {
      QueueIsComplete(c, event, me, database, h, c.channels[id]);
    }
  }

  /** Before any recalculation, a server that is not queued stays in step exactly if everything fits. */
  lemma UnqueuedInStep(c: Cache, topics: set<Topic>, event: Event, me: UserId, database: Database, h: HashOrder, bot: bool,
                       server: ServerId)
    requires me in c.users && IsHashOrder(h) && KeepsHeldRoles(c, event)
    requires MembershipsCached(c) && NoTiesAnywhere(c)
    requires Queued(c, event, me) != Some(server) && InStep(c, topics, me, database, h, server)
    ensures InStep(AfterEvent(c, event, me, database), TopicsAfter(c, topics, event, me, database, h, bot), me, database, h, server)
            <==> Fits(c, topics, event, me, database, h, bot, server)
  {
    var c' := AfterEvent(c, event, me, database);
    forall id | id in c'.channels && BelongsTo(c'.channels[id], server)
      ensures Sees(c', me, database, h, id) <==> FitsAt(c, event, me, database, h, id)
    {
      FitsIsSeen(c, event, me, database, h, id);
    }
  }

  /** A recalculation of one server leaves every other in step, and makes its own so. */
  lemma RecalculationKeepsStep(c: Cache, after: Cache, topics: set<Topic>, topics': set<Topic>, me: UserId,
                               database: Database, h: HashOrder, recalculated: ServerId, fetched: bool,
                               deleted: seq<ChannelId>, created: seq<Channel>, server: ServerId)
    requires me in c.users && recalculated in c.servers && KeyedById(database)
    requires after == c.(channels := after.channels)
    requires Recalculated(PerspectiveOf(c, me, database, h), recalculated, fetched, c.channels, after.channels,
                          topics, topics', deleted, created)
    requires server == recalculated || InStep(c, topics, me, database, h, server)
    ensures InStep(after, topics', me, database, h, server)
  {
    var p := PerspectiveOf(c, me, database, h);
    assert PerspectiveOf(after, me, database, h) == p;
    if server == recalculated {
      RecalculationLaws(p, server, fetched, c.channels, after.channels, topics, topics', deleted, created);
    } else {
      forall id | id in after.channels && BelongsTo(after.channels[id], server)
        ensures CanView(p, after.channels[id]) && id in topics'
      {
        if id !in Revealed(p, c.channels, recalculated, fetched) {
          assert Sees(c, me, database, h, id);
        }
      }
    }
  }

  /** Only a joined server brings a recalculation together with new channels; other queued events touch no channel. */
  lemma QueuedElsewhereFits(c: Cache, topics: set<Topic>, event: Event, me: UserId, database: Database, h: HashOrder, bot: bool,
                            server: ServerId)
    requires me in c.users && InStep(c, topics, me, database, h, server)
    requires Queued(c, event, me).Some? && Queued(c, event, me) != Some(server) && !event.ServerCreate?
    ensures Fits(c, topics, event, me, database, h, bot, server)
  {}

  /**
    If every cached channel of a server is viewable and subscribed, then after
    any event has been handled they still are, if and only if the server was
    queued, or what stays cached keeps its view and subscription and what the
    event puts into the cache is viewable.  A joined server's recalculation may
    also mend another server's channel that it lists.
   */
  lemma EventsKeepStep(c: Cache, topics: set<Topic>, event: Event, me: UserId, database: Database, h: HashOrder,
                       bot: bool, fetched: bool, after: Cache, topics': set<Topic>, event': Event,
                       deleted: seq<ChannelId>, created: seq<Channel>, server: ServerId)
    requires me in c.users && IsHashOrder(h) && KeyedById(database) && KeepsHeldRoles(c, event)
    requires MembershipsCached(c) && NoTiesAnywhere(c)
    requires IsHandled(c, topics, event, me, database, h, bot, fetched, after, topics', event', deleted, created)
    requires InStep(c, topics, me, database, h, server)
    requires Queued(c, event, me) == Some(server) ==> server in AfterEvent(c, event, me, database).servers
    ensures Queued(c, event, me) == Some(server) || Fits(c, topics, event, me, database, h, bot, server) ==>
              InStep(after, topics', me, database, h, server)
    ensures InStep(after, topics', me, database, h, server) ==>
              || Queued(c, event, me) == Some(server)
              || Fits(c, topics, event, me, database, h, bot, server)
              || (event.ServerCreate? && event.id != server)
  {
    var c', t, queue := AfterEvent(c, event, me, database), TopicsAfter(c, topics, event, me, database, h, bot), Queued(c, event, me);
    if queue != Some(server) {
      UnqueuedInStep(c, topics, event, me, database, h, bot, server);
      if queue.Some? && !event.ServerCreate? {
        QueuedElsewhereFits(c, topics, event, me, database, h, bot, server);
      }
    }
    if queue.Some? && queue.value in c'.servers && (queue == Some(server) || InStep(c', t, me, database, h, server)) {
      RecalculationKeepsStep(c', after, t, topics', me, database, h, queue.value, fetched, deleted, created, server);
    }
  }

  // ---- Events that leave the cache out of step

  const TRANSFERRED := Server("s", "me", ["c"], map[], 0)
  const OWNED_CHANNEL := TextChannel("c", "s", None, map[])
  const OLD_OWNER := User("me", false, None, [])
  const OWNING := Cache(map["me" := OLD_OWNER], map["c" := OWNED_CHANNEL], map["s" := Member([], false, true, true)],
                        map["s" := TRANSFERRED])
  const TRANSFER := ServerUpdate("s", PartialServer(Some("you"), None, None, None))

  lemma MembershipShowsNothing(owner: UserId, h: HashOrder)
    ensures !Permits(TRANSFERRED.(owner := owner), OWNING.members["s"], OWNED_CHANNEL, h)
  {
    var server, member := TRANSFERRED.(owner := owner), OWNING.members["s"];
    FlagsOfZero();
    NoGrantsNoChange(iset{}, ServerGrants(server, member), h(server.roles.Keys));
    NoGrantsNoChange(Applied(iset{}, NO_OVERRIDE), ChannelGrants(server, member, map[]), h(OWNED_CHANNEL.rolePermissions.Keys));
  }

  /** The cache with another owner of the server and another entry under the user's key. */
  function Owned(owner: UserId, entry: User): Cache {
    OWNING.(servers := map["s" := TRANSFERRED.(owner := owner)], users := map["me" := entry])
  }

  lemma OnlyTheOwnerSees(owner: UserId, entry: User, database: Database, h: HashOrder)
    requires !entry.privileged
    ensures Sees(Owned(owner, entry), "me", database, h, "c") <==> owner == entry.id
  {
    MembershipShowsNothing(owner, h);
    ViewDecided(PerspectiveOf(Owned(owner, entry), "me", database, h), OWNED_CHANNEL);
  }

  /**
    The old owner saw the channel only as owner.  The transfer queues nothing,
    so after it is handled the channel is still cached and subscribed, but no
    longer viewable.
   */
  lemma TransferLeavesStep(database: Database, h: HashOrder, bot: bool, fetched: bool, after: Cache, topics': set<Topic>,
                           event': Event, deleted: seq<ChannelId>, created: seq<Channel>)
    requires IsHandled(OWNING, {"c"}, TRANSFER, "me", database, h, bot, fetched, after, topics', event', deleted, created)
    ensures MembershipsCached(OWNING) && NoTiesAnywhere(OWNING) && InStep(OWNING, {"c"}, "me", database, h, "s")
    ensures "c" in after.channels && "c" in topics' && !Sees(after, "me", database, h, "c")
    ensures !InStep(after, topics', "me", database, h, "s")
  {
    assert OWNING == Owned("me", OLD_OWNER);
    assert after == Owned("you", OLD_OWNER) && topics' == {"c"};
    OnlyTheOwnerSees("me", OLD_OWNER, database, h);
    OnlyTheOwnerSees("you", OLD_OWNER, database, h);
  }

  /** The same, with a server that does not list the channel. */
  const UNLISTED := OWNING.(servers := map["s" := TRANSFERRED.(channels := [])])

  /** A deleted server takes the channels it lists out of the cache; another one stays, subscribed and no longer viewable. */
  lemma DepartureLeavesStep(database: Database, h: HashOrder, bot: bool, fetched: bool, after: Cache, topics': set<Topic>,
                            event': Event, deleted: seq<ChannelId>, created: seq<Channel>)
    requires "s" !in database.servers
    requires IsHandled(UNLISTED, {"c"}, ServerDelete("s"), "me", database, h, bot, fetched, after, topics', event', deleted, created)
    ensures InStep(UNLISTED, {"c"}, "me", database, h, "s")
    ensures "c" in after.channels && "c" in topics' && !Sees(after, "me", database, h, "c")
  {
    ViewDecided(PerspectiveOf(UNLISTED, "me", database, h), OWNED_CHANNEL);
    assert after == OWNING.(servers := map[], members := map[]) && topics' == {"c"};
    ViewDecided(PerspectiveOf(after, "me", database, h), OWNED_CHANNEL);
  }

  const OTHER_USER := User("you", false, None, [])
  /** What the receiver of a changed relationship is told: the other user, under the receiver's own id. */
  const RELATED := UserRelationship("me", OTHER_USER)

  /** A changed relationship makes the owner lose a channel that stays cached and subscribed; nothing is queued. */
  lemma RelationshipLeavesStep(database: Database, h: HashOrder, bot: bool, fetched: bool, after: Cache, topics': set<Topic>,
                               event': Event, deleted: seq<ChannelId>, created: seq<Channel>)
    requires IsHandled(OWNING, {"c"}, RELATED, "me", database, h, bot, fetched, after, topics', event', deleted, created)
    ensures Queued(OWNING, RELATED, "me").None? && InStep(OWNING, {"c"}, "me", database, h, "s")
    ensures "c" in after.channels && "c" in topics' && !Sees(after, "me", database, h, "c")
    ensures !InStep(after, topics', "me", database, h, "s")
  {
    assert OWNING == Owned("me", OLD_OWNER);
    assert after == Owned("me", OTHER_USER) && "c" in topics';
    OnlyTheOwnerSees("me", OLD_OWNER, database, h);
    OnlyTheOwnerSees("me", OTHER_USER, database, h);
  }

  /** In a server of the other user's, the same event makes viewable what the user could not view. */
  lemma RelationshipRevealsChannel(database: Database, h: HashOrder)
    ensures var c := Owned("you", OLD_OWNER);
            && !Sees(c, "me", database, h, "c")
            && Sees(AfterEvent(c, RELATED, "me", database), "me", database, h, "c")
            && Queued(c, RELATED, "me").None?
  {
    var c := Owned("you", OLD_OWNER);
    assert AfterEvent(c, RELATED, "me", database) == Owned("you", OTHER_USER);
    OnlyTheOwnerSees("you", OLD_OWNER, database, h);
    OnlyTheOwnerSees("you", OTHER_USER, database, h);
  }

  /** After a channel update, subscription and announcement follow visibility if they did before. */
  lemma ChannelUpdateKeepsStep(c: Cache, topics: set<Topic>, known: set<ChannelId>, event: Event, me: UserId,
                               database: Database, h: HashOrder, bot: bool)
    requires event.ChannelUpdate?
    requires event.id in topics <==> Sees(c, me, database, h, event.id)
    requires event.id in known <==> Sees(c, me, database, h, event.id)
    requires event.id in c.channels ==> c.channels[event.id].id == event.id
    requires KeyedById(database)
    ensures var c' := AfterEvent(c, event, me, database);
            && (event.id in TopicsAfter(c, topics, event, me, database, h, bot) <==> Sees(c', me, database, h, event.id))
            && (event.id in Replayed(known, [Sent(c, event, me, database, h)]) <==> Sees(c', me, database, h, event.id))
  {
    var sent := Sent(c, event, me, database, h);
    assert [sent][..0] == [];
    assert Replayed(known, []) == known;
  }
}
