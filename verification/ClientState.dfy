/** The state of one client connection: its cache, its subscriptions and its handling of events. */
module ClientState {
  import opened Collections
  import opened Permissions
  import opened RoleOverrides
  import opened Entities
  import opened PermissionQueries
  import opened Subscriptions
  import opened SeenEvents
  import opened Wrappers

  datatype PartialChannel = PartialChannel(
    defaultPermissions: Option<Override>,
    rolePermissions: Option<map<RoleId, Override>>
  )

  /** The parts of a server update that permissions and visibility depend on. */
  datatype PartialServer = PartialServer(
    owner: Option<UserId>,
    channels: Option<seq<ChannelId>>,
    roles: Option<map<RoleId, Role>>,
    defaultPermissions: Option<bv64>
  )

  /** `timedOut` is the verdict of comparing the new timeout with the clock. */
  datatype PartialMember = PartialMember(
    roles: Option<seq<RoleId>>,
    timedOut: Option<bool>,
    canPublish: Option<bool>,
    canReceive: Option<bool>
  )

  datatype FieldsMember = Roles | Timeout | CanPublish | CanReceive | OtherField

  /** The events that touch the cache or the subscriptions, with the parts that do. */
  datatype Event =
    | ChannelCreate(channel: Channel)
    | ChannelUpdate(id: string, data: PartialChannel, clearDefault: bool)
    | ChannelDelete(id: string)
    | ChannelGroupJoin(id: string, user: UserId)
    | ChannelGroupLeave(id: string, user: UserId)
    | ServerCreate(id: string, server: Server, serverChannels: seq<Channel>)
    | ServerUpdate(id: string, update: PartialServer)
    | ServerMemberLeave(id: string, user: UserId)
    | ServerDelete(id: string)
    | ServerMemberUpdate(id: string, user: UserId, change: PartialMember, clear: set<FieldsMember>)
    | ServerRoleUpdate(id: string, role: RoleId, rank: Option<int>, permissions: Option<Override>)
    | ServerRoleDelete(id: string, role: RoleId)
    | ServerRoleRanksUpdate(id: string, ranks: seq<RoleId>)
    | UserUpdate(id: string, eventId: Option<string>)
    | UserRelationship(id: string, userData: User)
    | Bulk(events: seq<Event>)
    | Other

  // ---- Visibility of channels

  datatype Perspective = Perspective(
    database: Database,
    user: User,
    servers: map<ServerId, Server>,
    members: map<ServerId, Member>,
    hash: HashOrder
  )

  function ViewQuery(p: Perspective, channel: Channel): Query
    requires channel.TextChannel?
  {
    Query(p.database, p.user, None, Some(channel), Lookup(p.servers, channel.server), Lookup(p.members, channel.server), None)
  }

  ghost predicate CanView(p: Perspective, channel: Channel) {
    channel.TextChannel? ==> VIEW_CHANNEL in ChannelFlags(ViewQuery(p, channel), p.hash)
  }

  /** The viewable channels, in the order given. */
  ghost function Viewable(p: Perspective, channels: seq<Channel>): seq<Channel> {
    if channels == [] then []
    else
      var last := channels[|channels| - 1];
      Viewable(p, channels[..|channels| - 1]) + (if CanView(p, last) then [last] else [])
  }

  lemma {:induction false} ViewableLaws(p: Perspective, channels: seq<Channel>)
    ensures forall c :: c in Viewable(p, channels) <==> c in channels && CanView(p, c)
    ensures NoDuplicates(channels) ==> NoDuplicates(Viewable(p, channels))
  {
    if channels != [] {
      ViewableLaws(p, channels[..|channels| - 1]);
      assert channels == channels[..|channels| - 1] + [channels[|channels| - 1]];
    }
  }

  predicate BelongsTo(channel: Channel, server: ServerId) {
    channel.TextChannel? && channel.server == server
  }

  // ---- What a recalculation of a server has to achieve

  ghost function CachedOf(channels: map<ChannelId, Channel>, server: ServerId): set<ChannelId> {
    set c | c in channels && BelongsTo(channels[c], server)
  }

  ghost function Hidden(p: Perspective, channels: map<ChannelId, Channel>, server: ServerId): set<ChannelId> {
    set c | c in CachedOf(channels, server) && !CanView(p, channels[c])
  }

  ghost function Unknown(p: Perspective, channels: map<ChannelId, Channel>, server: ServerId): set<ChannelId>
    requires server in p.servers
  {
    Elements(p.servers[server].channels) - CachedOf(channels, server)
  }

  /** The listed but uncached channels that a fetch returns and the user may view. */
  ghost function Revealed(p: Perspective, channels: map<ChannelId, Channel>, server: ServerId, fetched: bool): set<ChannelId>
    requires server in p.servers
  {
    set c | c in Unknown(p, channels, server) && fetched && c in p.database.channels && CanView(p, p.database.channels[c])
  }

  function Deletions(ids: seq<ChannelId>): seq<Event> {
    seq(|ids|, i requires 0 <= i < |ids| => ChannelDelete(ids[i]))
  }

  function Creations(channels: seq<Channel>): seq<Event> {
    seq(|channels|, i requires 0 <= i < |channels| => ChannelCreate(channels[i]))
  }

  /** The original event goes last in a bulk event announcing the changes, or alone if there are none. */
  function Announced(changes: seq<Event>, event: Event): Event {
    if changes == [] then event else Bulk(changes + [event])
  }

  /** What a client that follows deletes and creates makes of its set of channels. */
  ghost function Replayed(known: set<ChannelId>, events: seq<Event>): set<ChannelId> {
    if events == [] then known
    else
      var before := Replayed(known, events[..|events| - 1]);
      match events[|events| - 1]
      case ChannelDelete(id) => before - {id}
      case ChannelCreate(channel) => before + {channel.id}
      case _ => before
  }

  /** A recalculation took `before` to `after`, announced by `deleted` and then `created`. */
  ghost predicate Recalculated(p: Perspective, server: ServerId, fetched: bool,
                               before: map<ChannelId, Channel>, after: map<ChannelId, Channel>,
                               subscribed: set<Topic>, subscribed': set<Topic>,
                               deleted: seq<ChannelId>, created: seq<Channel>)
    requires server in p.servers
  {
    var hidden, revealed := Hidden(p, before, server), Revealed(p, before, server, fetched);
    && after.Keys == before.Keys - hidden + revealed
    && (forall c :: c in revealed ==> after[c] == p.database.channels[c])
    && (forall c :: c in before.Keys - hidden - revealed ==> after[c] == before[c])
    && subscribed' == subscribed + (CachedOf(before, server) - hidden) - hidden + revealed
    && Enumerates(deleted, hidden)
    && NoDuplicates(created)
    && (forall c :: c in created <==> c.id in revealed && c == p.database.channels[c.id])
  }

  /** In the database every channel is stored under its own id. */
  ghost predicate KeyedById(database: Database) {
    forall c :: c in database.channels ==> database.channels[c].id == c
  }

  function IdsOf(channels: seq<Channel>): set<ChannelId> {
    if channels == [] then {} else IdsOf(channels[..|channels| - 1]) + {channels[|channels| - 1].id}
  }

  lemma {:induction false} IdsOfMembers(channels: seq<Channel>)
    ensures forall c :: c in channels ==> c.id in IdsOf(channels)
    ensures forall id :: id in IdsOf(channels) ==> exists c :: c in channels && c.id == id
  {
    if channels != [] {
      IdsOfMembers(channels[..|channels| - 1]);
      assert channels == channels[..|channels| - 1] + [channels[|channels| - 1]];
    }
  }

  /** The cache after channels were put in, one by one. */
  function Recorded(channels: map<ChannelId, Channel>, added: seq<Channel>): map<ChannelId, Channel> {
    if added == [] then channels
    else Recorded(channels, added[..|added| - 1])[added[|added| - 1].id := added[|added| - 1]]
  }

  lemma {:induction false} RecordedEntries(channels: map<ChannelId, Channel>, added: seq<Channel>)
    ensures Recorded(channels, added).Keys == channels.Keys + IdsOf(added)
    ensures forall k :: k in channels && k !in IdsOf(added) ==> Recorded(channels, added)[k] == channels[k]
  {
    if added != [] {
      RecordedEntries(channels, added[..|added| - 1]);
    }
  }

  lemma {:induction false} RecordedLatest(channels: map<ChannelId, Channel>, added: seq<Channel>)
    requires forall c, d :: c in added && d in added && c.id == d.id ==> c == d
    ensures forall c :: c in added ==> c.id in Recorded(channels, added) && Recorded(channels, added)[c.id] == c
  {
    if added != [] {
      var front, last := added[..|added| - 1], added[|added| - 1];
      assert added == front + [last];
      RecordedLatest(channels, front);
    }
  }

  lemma {:induction false} ReplayedDeletions(known: set<ChannelId>, ids: seq<ChannelId>)
    ensures Replayed(known, Deletions(ids)) == known - Elements(ids)
  {
    if ids != [] {
      var front := ids[..|ids| - 1];
      ReplayedDeletions(known, front);
      assert Deletions(ids)[..|ids| - 1] == Deletions(front);
      assert ids == front + [ids[|ids| - 1]];
      assert Elements(ids) == Elements(front) + {ids[|ids| - 1]};
    }
  }

  lemma {:induction false} ReplayedCreations(known: set<ChannelId>, events: seq<Event>, channels: seq<Channel>)
    ensures Replayed(known, events + Creations(channels)) == Replayed(known, events) + IdsOf(channels)
  {
    if channels == [] {
      assert events + Creations(channels) == events;
    } else {
      var front, last := channels[..|channels| - 1], channels[|channels| - 1];
      ReplayedCreations(known, events, front);
      assert (events + Creations(channels))[..|events + Creations(channels)| - 1] == events + Creations(front);
    }
  }

  /**
    What a recalculation means for the client: every cached channel of the
    server is viewable and subscribed; every listed channel that is known or
    fetched and viewable is cached; what was removed is neither cached nor
    subscribed; and replaying the announced events on the channels known
    before gives the channels known after.
   */
  lemma RecalculationLaws(p: Perspective, server: ServerId, fetched: bool,
                          before: map<ChannelId, Channel>, after: map<ChannelId, Channel>,
                          subscribed: set<Topic>, subscribed': set<Topic>,
                          deleted: seq<ChannelId>, created: seq<Channel>)
    requires server in p.servers && KeyedById(p.database)
    requires Recalculated(p, server, fetched, before, after, subscribed, subscribed', deleted, created)
    ensures forall c :: c in after && BelongsTo(after[c], server) ==> CanView(p, after[c]) && c in subscribed'
    ensures forall c :: c in p.servers[server].channels ==>
              && (c in before && BelongsTo(before[c], server) && CanView(p, before[c]) ==> c in after)
              && (c !in CachedOf(before, server) && fetched && c in p.database.channels && CanView(p, p.database.channels[c])
                  ==> c in after)
    ensures forall c :: c in before && c !in after ==> c !in subscribed'
    ensures Replayed(before.Keys, Deletions(deleted) + Creations(created)) == after.Keys
  {
    ReplayedDeletions(before.Keys, deleted);
    ReplayedCreations(before.Keys, Deletions(deleted), created);
    var hidden, revealed := Hidden(p, before, server), Revealed(p, before, server, fetched);
    assert Elements(deleted) == hidden;
    assert IdsOf(created) == revealed by {
      IdsOfMembers(created);
      forall c | c in revealed
        ensures c in IdsOf(created)
      {
        assert p.database.channels[c] in created;
      }
    }
  }

  // ---- The connection state

  function Patched(channel: Channel, data: PartialChannel, clearDefault: bool): Channel {
    if !channel.TextChannel? then channel
    else
      var cleared := if clearDefault then channel.(defaultPermissions := None) else channel;
      var withDefault := if data.defaultPermissions.Some? then cleared.(defaultPermissions := data.defaultPermissions) else cleared;
      if data.rolePermissions.Some? then withDefault.(rolePermissions := data.rolePermissions.value) else withDefault
  }

  /** The cache after a channel update: patched if cached, else fetched if it exists. */
  function Updated(channels: map<ChannelId, Channel>, database: Database, event: Event): map<ChannelId, Channel>
    requires event.ChannelUpdate?
  {
    if event.id in channels then channels[event.id := Patched(channels[event.id], event.data, event.clearDefault)]
    else if event.id in database.channels then channels[event.id := database.channels[event.id]]
    else channels
  }

  function OrElse<T>(o: Option<T>, otherwise: T): T {
    match o case Some(v) => v case None => otherwise
  }

  /** Fields are cleared first, then set. */
  function WithChange(member: Member, change: PartialMember, clear: set<FieldsMember>): Member {
    var roles := if Roles in clear then [] else member.roles;
    var timedOut := if Timeout in clear then false else member.timedOut;
    var canPublish := if CanPublish in clear then true else member.canPublish;
    var canReceive := if CanReceive in clear then true else member.canReceive;
    Member(OrElse(change.roles, roles), OrElse(change.timedOut, timedOut),
           OrElse(change.canPublish, canPublish), OrElse(change.canReceive, canReceive))
  }

  function WithUpdate(server: Server, update: PartialServer): Server {
    Server(server.id, OrElse(update.owner, server.owner), OrElse(update.channels, server.channels),
           OrElse(update.roles, server.roles), OrElse(update.defaultPermissions, server.defaultPermissions))
  }

  function WithRole(server: Server, id: RoleId, rank: Option<int>, permissions: Option<Override>): Server
    requires id in server.roles
  {
    var role := server.roles[id];
    var ranked := if rank.Some? then role.(rank := rank.value) else role;
    var changed := if permissions.Some? then ranked.(permissions := permissions.value) else ranked;
    server.(roles := server.roles[id := changed])
  }

  /** What a connection has cached. */
  datatype Cache = Cache(
    users: map<UserId, User>,
    channels: map<ChannelId, Channel>,
    members: map<ServerId, Member>,
    servers: map<ServerId, Server>
  )

  /** The channels a cached server lists. */
  function ListedBy(c: Cache, id: ServerId): set<ChannelId> {
    if id in c.servers then Elements(c.servers[id].channels) else {}
  }

  function WithoutServer(c: Cache, id: ServerId): Cache {
    c.(servers := c.servers - {id}, members := c.members - {id}, channels := c.channels - ListedBy(c, id))
  }

  /** The cache after an event, before any recalculation. */
  function AfterEvent(c: Cache, event: Event, me: UserId, database: Database): Cache {
    match event
    case ChannelCreate(channel) => c.(channels := c.channels[channel.id := channel])
    case ChannelUpdate(_, _, _) => c.(channels := Updated(c.channels, database, event))
    case ChannelDelete(id) => c.(channels := c.channels - {id})
    case ServerCreate(id, server, serverChannels) =>
      c.(servers := c.servers[id := server], members := c.members[id := Member([], false, true, true)],
         channels := Recorded(c.channels, serverChannels))
    case ServerUpdate(id, update) =>
      if id in c.servers then c.(servers := c.servers[id := WithUpdate(c.servers[id], update)]) else c
    case ServerMemberLeave(id, user) => if user == me then WithoutServer(c, id) else c
    case ServerDelete(id) => WithoutServer(c, id)
    case ServerMemberUpdate(id, user, change, clear) =>
      if user == me && id in c.members
      then c.(members := c.members[id := WithChange(c.members[id], change, clear)]) else c
    case ServerRoleUpdate(id, role, rank, permissions) =>
      if id in c.servers && role in c.servers[id].roles
      then c.(servers := c.servers[id := WithRole(c.servers[id], role, rank, permissions)]) else c
    case ServerRoleDelete(id, role) =>
      if id in c.servers
      then c.(servers := c.servers[id := c.servers[id].(roles := c.servers[id].roles - {role})]) else c
    case UserRelationship(id, user) => c.(users := c.users[id := user])
    case _ => c
  }

  /** The server an event asks to recalculate. */
  function Queued(c: Cache, event: Event, me: UserId): Option<ServerId> {
    match event
    case ServerCreate(id, _, _) => Some(id)
    case ServerUpdate(id, update) => if update.defaultPermissions.Some? then Some(id) else None
    case ServerMemberUpdate(id, user, change, clear) =>
      if user == me && (change.roles.Some? || Roles in clear) then Some(id) else None
    case ServerRoleUpdate(id, role, rank, permissions) =>
      if (rank.Some? || permissions.Some?) && id in c.members && role in c.members[id].roles then Some(id) else None
    case ServerRoleDelete(id, role) => if id in c.members && role in c.members[id].roles then Some(id) else None
    case _ => None
  }

  function PerspectiveOf(c: Cache, me: UserId, database: Database, hash: HashOrder): Perspective
    requires me in c.users
  {
    Perspective(database, c.users[me], c.servers, c.members, hash)
  }

  /** Channel `id` is cached and viewable. */
  ghost predicate Sees(c: Cache, me: UserId, database: Database, hash: HashOrder, id: ChannelId) {
    me in c.users && id in c.channels && CanView(PerspectiveOf(c, me, database, hash), c.channels[id])
  }

  /** Whether the user knows another user well enough to follow them. */
  predicate MaySubscribe(users: map<UserId, User>, channels: map<ChannelId, Channel>, me: UserId, other: UserId) {
    me in users &&
    (var status := if users[me].id == other then Self else RelationIn(users[me].relations, other);
     || status.Friend? || status.Incoming? || status.Outgoing? || status.Self?
     || exists c | c in channels ::
          (channels[c].DirectMessage? || channels[c].Group?) && other in channels[c].recipients)
  }

  /** The topics after an event, before any recalculation. */
  ghost function TopicsAfter(c: Cache, topics: set<Topic>, event: Event, me: UserId, database: Database, hash: HashOrder,
                             bot: bool): set<Topic>
  {
    var c' := AfterEvent(c, event, me, database);
    match event
    case ChannelCreate(channel) => topics + {channel.id}
    case ChannelUpdate(id, _, _) =>
      var could, can := Sees(c, me, database, hash, id), Sees(c', me, database, hash, id);
      if can && !could then topics + {id} else if could && !can then topics - {id} else topics
    case ChannelDelete(id) => topics - {id}
    case ChannelGroupJoin(_, user) => topics + {user}
    case ChannelGroupLeave(id, user) =>
      if user == me then topics - {id} else if MaySubscribe(c'.users, c'.channels, me, user) then topics else topics - {user}
    case ServerCreate(id, _, _) => topics + {id} + if bot then {MemberTopic(id)} else {}
    case ServerMemberLeave(id, user) => if user == me then topics - {id} - ListedBy(c, id) else topics
    case ServerDelete(id) => topics - {id} - ListedBy(c, id)
    case UserRelationship(id, _) =>
      if MaySubscribe(c'.users, c'.channels, me, id) then topics + {id} else topics - {id}
    case _ => topics
  }

  /** What is sent for an event that is not suppressed, before any recalculation. */
  ghost function Sent(c: Cache, event: Event, me: UserId, database: Database, hash: HashOrder): Event {
    var c' := AfterEvent(c, event, me, database);
    match event
    case ChannelUpdate(id, _, _) =>
      var could, can := Sees(c, me, database, hash, id), Sees(c', me, database, hash, id);
      if can && !could then ChannelCreate(c'.channels[id]) else if could && !can then ChannelDelete(id) else event
    case UserUpdate(id, _) => UserUpdate(id, None)
    case _ => event
  }

  /** A queued server that is cached is recalculated; otherwise cache, topics and event stay as they are. */
  ghost predicate IsSettled(p: Perspective, queue: Option<ServerId>, fetched: bool, c: Cache, topics: set<Topic>, event: Event,
                            after: Cache, topics': set<Topic>, event': Event, deleted: seq<ChannelId>, created: seq<Channel>)
  {
    if queue.Some? && queue.value in p.servers then
      && after == c.(channels := after.channels)
      && Recalculated(p, queue.value, fetched, c.channels, after.channels, topics, topics', deleted, created)
      && event' == Announced(Deletions(deleted) + Creations(created), event)
    else after == c && topics' == topics && event' == event
  }

  /** The whole effect of handling an event that is not suppressed. */
  ghost predicate IsHandled(c: Cache, topics: set<Topic>, event: Event, me: UserId, database: Database, hash: HashOrder,
                            bot: bool, fetched: bool,
                            after: Cache, topics': set<Topic>, event': Event,
                            deleted: seq<ChannelId>, created: seq<Channel>)
    requires me in c.users
  {
    var c' := AfterEvent(c, event, me, database);
    IsSettled(PerspectiveOf(c', me, database, hash), Queued(c, event, me), fetched,
              c', TopicsAfter(c, topics, event, me, database, hash, bot), Sent(c, event, me, database, hash),
              after, topics', event', deleted, created)
  }

  function OneTopic(topic: Option<Topic>): set<Topic> {
    match topic case None => {} case Some(t) => {t}
  }

  /** Events about servers, roles and memberships. */
  predicate IsServerSide(event: Event) {
    || event.ServerCreate? || event.ServerMemberLeave? || event.ServerDelete?
    || event.ServerUpdate? || event.ServerMemberUpdate? || event.ServerRoleUpdate? || event.ServerRoleDelete?
  }

  predicate CarriesId(event: Event) {
    event.UserUpdate? && event.eventId.Some?
  }

  predicate IsDuplicate(event: Event, seen: seq<string>) {
    CarriesId(event) && event.eventId.value in seen
  }

  /** `ops` take the subscriptions from `s` to `s'` without a panic. */
  ghost predicate Reaches(s: Subscription, ops: seq<Operation>, s': Subscription) {
    Performed(s, ops) == Some(s')
  }

  lemma ReachesOneMore(s: Subscription, ops: seq<Operation>, s': Subscription, op: Operation)
    requires Reaches(s, ops, s')
    requires op.Remove? ==> !RemovalPanics(s', op.topic)
    ensures Reaches(s, ops + [op], if op.Insert? then Added(s', op.topic) else Removed(s', op.topic))
  {
    assert (ops + [op])[..|ops|] == ops;
  }

  lemma ReachesFurther(s: Subscription, a: seq<Operation>, s': Subscription, b: seq<Operation>, s'': Subscription)
    requires Reaches(s, a, s') && Reaches(s', b, s'')
    ensures Reaches(s, a + b, s'')
  {
    PerformedConcat(s, a, b);
  }

  /** The topics of a user's servers; bots also follow the members of each. */
  function ServerTopics(serverIds: seq<ServerId>, isBot: bool): set<Topic> {
    if serverIds == [] then {}
    else
      var id := serverIds[|serverIds| - 1];
      ServerTopics(serverIds[..|serverIds| - 1], isBot) + (if isBot then {id, MemberTopic(id)} else {id})
  }

  /** The iteration order of a hash set or of the keys of a hash map: any order. */
  method AnyOrder(keys: set<string>) returns (order: seq<string>)
    ensures Enumerates(order, keys)
  {
    order := [];
    var rest := keys;
    while rest != {}
      invariant rest <= keys
      invariant Enumerates(order, keys - rest)
      decreases rest
    {
      var k :| k in rest;
      order := order + [k];
      rest := rest - {k};
    }
  }

  // ---- The Ready payload

  datatype ServerMember = ServerMember(server: ServerId, member: Member)

  /** Memberships by server; a later entry for the same server replaces an earlier one, whoever's it is. */
  function ByServer(members: seq<ServerMember>): map<ServerId, Member> {
    if members == [] then map[]
    else ByServer(members[..|members| - 1])[members[|members| - 1].server := members[|members| - 1].member]
  }

  function ServersById(servers: seq<Server>): map<ServerId, Server> {
    if servers == [] then map[]
    else ServersById(servers[..|servers| - 1])[servers[|servers| - 1].id := servers[|servers| - 1]]
  }

  function UsersById(users: seq<User>): map<UserId, User> {
    if users == [] then map[]
    else UsersById(users[..|users| - 1])[users[|users| - 1].id := users[|users| - 1]]
  }

  function UserIds(users: seq<User>): seq<UserId> {
    seq(|users|, i requires 0 <= i < |users| => users[i].id)
  }

  function ServerIds(servers: seq<Server>): seq<ServerId> {
    seq(|servers|, i requires 0 <= i < |servers| => servers[i].id)
  }

  function ChannelIds(channels: seq<Channel>): seq<ChannelId> {
    seq(|channels|, i requires 0 <= i < |channels| => channels[i].id)
  }

  /** What the payload fetches: the user's memberships, their servers, the channels, voice participants and other users. */
  datatype Fetched = Fetched(
    own: seq<ServerMember>,
    servers: seq<Server>,
    channels: seq<Channel>,
    voice: seq<ServerMember>,
    others: seq<User>
  )

  /** The channels are filtered with the new servers and the memberships cached before. */
  function ReadyPerspective(before: Cache, me: UserId, database: Database, hash: HashOrder, f: Fetched): Perspective
    requires me in before.users
  {
    Perspective(database, before.users[me], ServersById(f.servers), before.members, hash)
  }

  ghost function ReadyChannels(before: Cache, me: UserId, database: Database, hash: HashOrder, f: Fetched): seq<Channel>
    requires me in before.users
  {
    Viewable(ReadyPerspective(before, me, database, hash, f), f.channels)
  }

  ghost function ReadyCache(before: Cache, me: UserId, database: Database, hash: HashOrder, f: Fetched): Cache
    requires me in before.users
  {
    Cache(UsersById(f.others)[me := before.users[me]],
          Recorded(map[], ReadyChannels(before, me, database, hash, f)),
          ByServer(f.own + f.voice),
          ServersById(f.servers))
  }

  ghost function ReadyTopics(before: Cache, me: UserId, database: Database, hash: HashOrder, f: Fetched, privateTopic: Topic)
    : set<Topic>
    requires me in before.users
  {
    var user := before.users[me];
    {privateTopic} + Elements(UserIds(f.others) + [user.id]) + ServerTopics(ServerIds(f.servers), user.botOwner.Some?) +
    Elements(ChannelIds(ReadyChannels(before, me, database, hash, f)))
  }

  /** Bots ignore the active-server notices. */
  function HeededBy(bot: bool, notices: seq<TimedEntry>): seq<TimedEntry> {
    if bot then [] else notices
  }

  class State {
    const userId: UserId
    const privateTopic: Topic
    const database: Database
    const hash: HashOrder

    var isBot: bool
    var users: map<UserId, User>
    var channels: map<ChannelId, Channel>
    var members: map<ServerId, Member>
    var servers: map<ServerId, Server>
    var seenEvents: seq<string>

    var subscribed: set<Topic>
    var state: StateChange

    /** Something is always cached under the user's own id, though an event may replace the user's own entry there. */
    ghost predicate Valid()
      reads this
    {
      userId in users
    }

    function Client(): Subscription
      reads this`subscribed, this`state
    {
      Subscription(subscribed, state)
    }

    function View(): Perspective
      requires userId in users
      reads this`users, this`servers, this`members
    {
      Perspective(database, users[userId], servers, members, hash)
    }

    constructor From(user: User, database: Database, hash: HashOrder)
      ensures Valid() && userId == user.id && this.database == database && this.hash == hash
      ensures Client() == Subscription({user.id + "!", user.id}, Reset)
      ensures channels == map[] && servers == map[] && members == map[] && seenEvents == [] && !isBot
      ensures privateTopic == user.id + "!" && users == map[user.id := user]
    {
      userId := user.id;
      privateTopic := user.id + "!";
      this.database, this.hash := database, hash;
      isBot := false;
      users := map[user.id := user];
      channels, members, servers := map[], map[], map[];
      seenEvents := [];
      subscribed := {user.id + "!", user.id};
      state := Reset;
    }

    method ResetState()
      modifies this`subscribed, this`state
      ensures Client() == Subscription({}, Reset)
    {
      state := Reset;
      subscribed := {};
    }

    method InsertSubscription(topic: Topic)
      modifies this`subscribed, this`state
      ensures Client() == Added(old(Client()), topic)
    {
      if topic in subscribed {
        return;
      }
      match state {
        case NoChange => state := Change([topic], []);
        case Change(add, remove) => state := Change(add + [topic], remove);
        case Reset =>
      }
      subscribed := subscribed + {topic};
    }

    method RemoveSubscription(topic: Topic) returns (panicked: bool)
      modifies this`subscribed, this`state
      ensures panicked <==> RemovalPanics(old(Client()), topic)
      ensures Client() == if panicked then old(Client()) else Removed(old(Client()), topic)
    {
      if topic !in subscribed {
        return false;
      }
      match state {
        case NoChange => state := Change([], [topic]);
        case Change(add, remove) => state := Change(add, remove + [topic]);
        case Reset => return true;
      }
      subscribed := subscribed - {topic};
      return false;
    }

    /** The notices that reach the subscriptions: none for a bot. */
    function Heeded(notices: seq<TimedEntry>): seq<TimedEntry>
      reads this`isBot
    {
      HeededBy(isBot, notices)
    }

    /** Apply the active-server notices, then flush the client's side of the pending change. */
    method ApplyState(notices: seq<TimedEntry>) returns (panicked: bool, pending: StateChange)
      modifies this`subscribed, this`state
      ensures match Performed(old(Client()), OperationsOf(Heeded(notices)))
              case None => panicked
              case Some(s) => !panicked && pending == s.pending && Client() == FlushedClient(s)
    {
      panicked, pending := false, NoChange;
      if !isBot {
        panicked := ApplyNotices(notices);
        if panicked {
          return;
        }
      }
      pending := state;
      state := NoChange;
      if pending.Change? {
        ghost var before := subscribed;
        for i := 0 to |pending.add|
          invariant subscribed == before + Elements(pending.add[..i])
          invariant state == NoChange
        {
          subscribed := subscribed + {pending.add[i]};
        }
        assert pending.add[..|pending.add|] == pending.add;
        for i := 0 to |pending.remove|
          invariant subscribed == before + Elements(pending.add) - Elements(pending.remove[..i])
          invariant state == NoChange
        {
          subscribed := subscribed - {pending.remove[i]};
        }
        assert pending.remove[..|pending.remove|] == pending.remove;
      }
    }

    method ApplyNotices(notices: seq<TimedEntry>) returns (panicked: bool)
      modifies this`subscribed, this`state
      ensures match Performed(old(Client()), OperationsOf(notices))
              case None => panicked
              case Some(s) => !panicked && Client() == s
    {
      var changes := OperationsOf(notices);
      ghost var start := Client();
      for i := 0 to |changes|
        invariant Reaches(start, changes[..i], Client())
      {
        assert changes[..i + 1][..i] == changes[..i];
        PerformedConcat(start, changes[..i + 1], changes[i + 1..]);
        assert changes[..i + 1] + changes[i + 1..] == changes;
        match changes[i] {
          case Insert(k) => InsertSubscription(k);
          case Remove(k) =>
            panicked := RemoveSubscription(k);
            if panicked {
              return;
            }
        }
      }
      assert changes[..|changes|] == changes;
      return false;
    }

    /** Subscriptions made while a reset is pending. */
    method InsertAll(topics: seq<Topic>)
      requires state == Reset
      modifies this`subscribed, this`state
      ensures state == Reset && subscribed == old(subscribed) + Elements(topics)
    {
      for i := 0 to |topics|
        invariant state == Reset && subscribed == old(subscribed) + Elements(topics[..i])
      {
        InsertSubscription(topics[i]);
      }
      assert topics[..|topics|] == topics;
    }

    method InsertServers(serverIds: seq<ServerId>)
      requires state == Reset
      modifies this`subscribed, this`state
      ensures state == Reset && subscribed == old(subscribed) + ServerTopics(serverIds, isBot)
    {
      for i := 0 to |serverIds|
        invariant state == Reset && subscribed == old(subscribed) + ServerTopics(serverIds[..i], isBot)
      {
        assert serverIds[..i + 1][..i] == serverIds[..i];
        InsertSubscription(serverIds[i]);
        if isBot {
          InsertSubscription(MemberTopic(serverIds[i]));
        }
      }
      assert serverIds[..|serverIds|] == serverIds;
    }

    /** The subscriptions of the Ready payload. */
    method SubscribeReady(userIds: seq<UserId>, serverIds: seq<ServerId>, channelIds: seq<ChannelId>)
      modifies this`subscribed, this`state
      ensures state == Reset
      ensures subscribed == {privateTopic} + Elements(userIds) + ServerTopics(serverIds, isBot) + Elements(channelIds)
    {
      ResetState();
      InsertSubscription(privateTopic);
      InsertAll(userIds);
      InsertServers(serverIds);
      InsertAll(channelIds);
    }

    // ---- Visibility

    method CanViewChannel(channel: Channel) returns (r: bool)
      requires Valid()
      ensures r <==> CanView(View(), channel)
    {
      if !channel.TextChannel? {
        return true;
      }
      var query := new DatabasePermissionQuery(ViewQuery(View(), channel));
      var permissions := CalculateChannelPermissions(query, hash);
      ViewFacts();
      r := permissions.Has(VIEW_CHANNEL);
    }

    method FilterAccessibleChannels(channels: seq<Channel>) returns (viewable: seq<Channel>)
      requires Valid()
      ensures viewable == Viewable(View(), channels)
      ensures forall c :: c in viewable <==> c in channels && CanView(View(), c)
      ensures NoDuplicates(channels) ==> NoDuplicates(viewable)
    {
      viewable := [];
      for i := 0 to |channels|
        invariant viewable == Viewable(View(), channels[..i])
      {
        assert channels[..i + 1][..i] == channels[..i];
        var visible := CanViewChannel(channels[i]);
        if visible {
          viewable := viewable + [channels[i]];
        }
      }
      assert channels[..|channels|] == channels;
      ViewableLaws(View(), channels);
    }

    /** Build the Ready payload: fill the cache and set the subscriptions. */
    method GenerateReady(f: Fetched)
      requires Valid()
      modifies this`isBot, this`users, this`channels, this`members, this`servers, this`subscribed, this`state
      ensures Valid() && state == Reset
      ensures Known() == ReadyCache(old(Known()), userId, database, hash, f)
      ensures subscribed == ReadyTopics(old(Known()), userId, database, hash, f, privateTopic)
    {
      var user := users[userId];
      isBot := user.botOwner.Some?;
      servers := ServersById(f.servers);
      var viewable := FilterAccessibleChannels(f.channels);
      members := ByServer(f.own + f.voice);
      users := UsersById(f.others)[userId := user];
      channels := Recorded(map[], viewable);
      SubscribeReady(UserIds(f.others) + [user.id], ServerIds(f.servers), ChannelIds(viewable));
    }

    // ---- Recalculating a server

    method Classify(id: ServerId) returns (cached: set<ChannelId>, added: seq<ChannelId>, removed: seq<ChannelId>)
      requires Valid()
      ensures cached == CachedOf(channels, id)
      ensures Enumerates(removed, Hidden(View(), channels, id))
      ensures Enumerates(added, cached - Hidden(View(), channels, id))
    {
      var order := AnyOrder(channels.Keys);
      cached, added, removed := {}, [], [];
      for i := 0 to |order|
        invariant forall c :: c in cached <==> c in order[..i] && BelongsTo(channels[c], id)
        invariant forall c :: c in removed <==> c in cached && !CanView(View(), channels[c])
        invariant forall c :: c in added <==> c in cached && CanView(View(), channels[c])
        invariant NoDuplicates(added) && NoDuplicates(removed)
      {
        var c := order[i];
        assert c !in order[..i] && c in order;
        assert order[..i + 1] == order[..i] + [c];
        if BelongsTo(channels[c], id) {
          cached := cached + {c};
          var visible := CanViewChannel(channels[c]);
          if visible {
            added := added + [c];
          } else {
            removed := removed + [c];
          }
        }
      }
      assert order[..|order|] == order;
    }

    method SubscribeAdded(added: seq<ChannelId>) returns (ghost ops: seq<Operation>)
      requires !state.Reset?
      modifies this`subscribed, this`state
      ensures !state.Reset? && Reaches(old(Client()), ops, Client())
      ensures subscribed == old(subscribed) + Elements(added)
    {
      ops := [];
      for i := 0 to |added|
        invariant !state.Reset? && Reaches(old(Client()), ops, Client())
        invariant subscribed == old(subscribed) + Elements(added[..i])
      {
        ReachesOneMore(old(Client()), ops, Client(), Insert(added[i]));
        ops := ops + [Insert(added[i])];
        InsertSubscription(added[i]);
      }
      assert added[..|added|] == added;
    }

    method DropRemoved(removed: seq<ChannelId>) returns (events: seq<Event>, ghost ops: seq<Operation>)
      requires !state.Reset?
      modifies this`subscribed, this`state, this`channels
      ensures !state.Reset? && Reaches(old(Client()), ops, Client())
      ensures subscribed == old(subscribed) - Elements(removed)
      ensures channels == old(channels) - Elements(removed)
      ensures events == Deletions(removed)
    {
      events, ops := [], [];
      for i := 0 to |removed|
        invariant !state.Reset? && Reaches(old(Client()), ops, Client())
        invariant subscribed == old(subscribed) - Elements(removed[..i])
        invariant channels == old(channels) - Elements(removed[..i])
        invariant events == Deletions(removed[..i])
      {
        var id := removed[i];
        assert removed[..i + 1] == removed[..i] + [id];
        ReachesOneMore(old(Client()), ops, Client(), Remove(id));
        ops := ops + [Remove(id)];
        var _ := RemoveSubscription(id);
        channels := channels - {id};
        events := events + [ChannelDelete(id)];
      }
      assert removed[..|removed|] == removed;
    }

    /** The database's answer to a request for several channels: those that exist. */
    method FetchChannels(ids: seq<ChannelId>) returns (found: seq<Channel>)
      requires KeyedById(database) && NoDuplicates(ids)
      ensures NoDuplicates(found)
      ensures forall c :: c in found <==> c.id in ids && c.id in database.channels && c == database.channels[c.id]
    {
      found := [];
      for i := 0 to |ids|
        invariant NoDuplicates(found)
        invariant forall c :: c in found <==> c.id in ids[..i] && c.id in database.channels && c == database.channels[c.id]
      {
        assert ids[i] !in ids[..i];
        assert ids[..i + 1] == ids[..i] + [ids[i]];
        if ids[i] in database.channels {
          found := found + [database.channels[ids[i]]];
        }
      }
      assert ids[..|ids|] == ids;
    }

    method AddRevealed(viewable: seq<Channel>) returns (events: seq<Event>, ghost ops: seq<Operation>)
      requires !state.Reset?
      modifies this`subscribed, this`state, this`channels
      ensures !state.Reset? && Reaches(old(Client()), ops, Client())
      ensures subscribed == old(subscribed) + IdsOf(viewable)
      ensures channels == Recorded(old(channels), viewable)
      ensures events == Creations(viewable)
    {
      events, ops := [], [];
      for i := 0 to |viewable|
        invariant !state.Reset? && Reaches(old(Client()), ops, Client())
        invariant subscribed == old(subscribed) + IdsOf(viewable[..i])
        invariant channels == Recorded(old(channels), viewable[..i])
        invariant events == Creations(viewable[..i])
      {
        var channel := viewable[i];
        assert viewable[..i + 1][..i] == viewable[..i];
        channels := channels[channel.id := channel];
        ReachesOneMore(old(Client()), ops, Client(), Insert(channel.id));
        ops := ops + [Insert(channel.id)];
        InsertSubscription(channel.id);
        events := events + [ChannelCreate(channel)];
      }
      assert viewable[..|viewable|] == viewable;
    }

    /** Fetch the listed channels that are not cached, and add those the user may view. */
    method AddUnknown(known: set<ChannelId>, cached: set<ChannelId>, fetched: bool)
      returns (events: seq<Event>, ghost created: seq<Channel>, ghost ops: seq<Operation>)
      requires Valid() && KeyedById(database) && !state.Reset?
      modifies this`subscribed, this`state, this`channels
      ensures !state.Reset? && Reaches(old(Client()), ops, Client())
      ensures NoDuplicates(created) && events == Creations(created)
      ensures forall c :: c in created <==>
                c.id in known - cached && fetched && c.id in database.channels && c == database.channels[c.id] && CanView(View(), c)
      ensures subscribed == old(subscribed) + IdsOf(created)
      ensures channels.Keys == old(channels).Keys + IdsOf(created)
      ensures forall c :: c in created ==> c.id in channels && channels[c.id] == c
      ensures forall k :: k in old(channels) && k !in IdsOf(created) ==> channels[k] == old(channels)[k]
    {
      events, created, ops := [], [], [];
      var unknowns := AnyOrder(known - cached);
      if unknowns != [] && fetched {
        var found := FetchChannels(unknowns);
        var viewable := FilterAccessibleChannels(found);
        created := viewable;
        RecordedEntries(channels, viewable);
        RecordedLatest(channels, viewable);
        events, ops := AddRevealed(viewable);
      }
    }

    /** Re-determine the accessible channels of a server, and announce the difference. */
    method RecalculateServer(id: ServerId, event: Event, fetched: bool)
      returns (event': Event, ghost deleted: seq<ChannelId>, ghost created: seq<Channel>, ghost ops: seq<Operation>)
      requires Valid() && KeyedById(database) && !state.Reset?
      modifies this`subscribed, this`state, this`channels
      ensures !state.Reset? && Reaches(old(Client()), ops, Client())
      ensures id !in servers ==> event' == event && channels == old(channels) && Client() == old(Client())
      ensures id in servers ==>
                && Recalculated(View(), id, fetched, old(channels), channels, old(subscribed), subscribed, deleted, created)
                && event' == Announced(Deletions(deleted) + Creations(created), event)
    {
      event', deleted, created, ops := event, [], [], [];
      if id in servers {
        var cached, added, removed := Classify(id);
        var known := Elements(servers[id].channels);
        ghost var ops1 := SubscribeAdded(added);
        ghost var afterAdded := Client();
        var deletions, ops2 := DropRemoved(removed);
        ghost var afterRemoved := Client();
        var creations, newChannels, ops3 := AddUnknown(known, cached, fetched);
        ReachesFurther(old(Client()), ops1, afterAdded, ops2, afterRemoved);
        ReachesFurther(old(Client()), ops1 + ops2, afterRemoved, ops3, Client());
        deleted, created, ops := removed, newChannels, ops1 + ops2 + ops3;
        Assembled(View(), id, fetched, old(channels), channels, old(subscribed), subscribed, added, deleted, created);
        if deletions + creations != [] {
          event' := Bulk(deletions + creations + [event]);
        }
      }
    }

    // ---- Handling events

    predicate CanSubscribeToUser(other: UserId)
      reads this`users, this`channels
    {
      MaySubscribe(users, channels, userId, other)
    }

    /** A channel's change may make it appear or disappear for the user, which replaces the event. */
    method OnChannelUpdate(event: Event) returns (event': Event, add: Option<Topic>, remove: Option<Topic>)
      requires Valid() && event.ChannelUpdate?
      modifies this`channels
      ensures Known() == AfterEvent(old(Known()), event, userId, database)
      ensures event' == Sent(old(Known()), event, userId, database, hash)
      ensures var could, can := Sees(old(Known()), userId, database, hash, event.id), Sees(Known(), userId, database, hash, event.id);
              && add == (if can && !could then Some(event.id) else None)
              && remove == (if could && !can then Some(event.id) else None)
    {
      event', add, remove := event, None, None;
      var couldView := false;
      if event.id in channels {
        couldView := CanViewChannel(channels[event.id]);
      }
      if event.id in channels {
        channels := channels[event.id := Patched(channels[event.id], event.data, event.clearDefault)];
      } else if event.id in database.channels {
        channels := channels[event.id := database.channels[event.id]];
      }
      if event.id in channels {
        var canView := CanViewChannel(channels[event.id]);
        if couldView != canView {
          if canView {
            add := Some(event.id);
            event' := ChannelCreate(channels[event.id]);
          } else {
            remove := Some(event.id);
            event' := ChannelDelete(event.id);
          }
        }
      }
    }

    method Subscribe(topic: Topic) returns (ghost ops: seq<Operation>)
      requires !state.Reset?
      modifies this`subscribed, this`state
      ensures !state.Reset? && Reaches(old(Client()), ops, Client())
      ensures subscribed == old(subscribed) + {topic}
    {
      ops := SubscribeAdded([topic]);
      assert Elements([topic]) == {topic};
    }

    method Unsubscribe(topic: Topic) returns (ghost ops: seq<Operation>)
      requires !state.Reset?
      modifies this`subscribed, this`state
      ensures !state.Reset? && Reaches(old(Client()), ops, Client())
      ensures subscribed == old(subscribed) - {topic}
    {
      ReachesOneMore(Client(), [], Client(), Remove(topic));
      ops := [] + [Remove(topic)];
      var _ := RemoveSubscription(topic);
    }

    /** Forget a server: its topic, its listed channels and the membership. */
    method LeaveServer(id: ServerId) returns (ghost ops: seq<Operation>)
      requires !state.Reset?
      modifies this`subscribed, this`state, this`channels, this`servers, this`members
      ensures !state.Reset? && Reaches(old(Client()), ops, Client())
      ensures servers == old(servers) - {id} && members == old(members) - {id}
      ensures var listed := if id in old(servers) then Elements(old(servers)[id].channels) else {};
              subscribed == old(subscribed) - {id} - listed && channels == old(channels) - listed
    {
      ops := Unsubscribe(id);
      if id in servers {
        var server := servers[id];
        servers := servers - {id};
        ghost var middle := Client();
        var events, ops' := DropRemoved(server.channels);
        ReachesFurther(old(Client()), ops, middle, ops', Client());
        ops := ops + ops';
      }
      members := members - {id};
    }

    method CacheChannels(added: seq<Channel>)
      modifies this`channels
      ensures channels == Recorded(old(channels), added)
    {
      for i := 0 to |added|
        invariant channels == Recorded(old(channels), added[..i])
      {
        assert added[..i + 1][..i] == added[..i];
        channels := channels[added[i].id := added[i]];
      }
      assert added[..|added|] == added;
    }

    /** Join a server: its topic, its channels and a fresh membership. */
    method JoinServer(id: ServerId, server: Server, serverChannels: seq<Channel>) returns (ghost ops: seq<Operation>)
      requires !state.Reset?
      modifies this`subscribed, this`state, this`channels, this`servers, this`members
      ensures !state.Reset? && Reaches(old(Client()), ops, Client())
      ensures subscribed == old(subscribed) + {id} + (if isBot then {MemberTopic(id)} else {})
      ensures servers == old(servers)[id := server]
      ensures members == old(members)[id := Member([], false, true, true)]
      ensures channels == Recorded(old(channels), serverChannels)
    {
      ops := Subscribe(id);
      if isBot {
        ghost var middle := Client();
        ghost var ops' := Subscribe(MemberTopic(id));
        ReachesFurther(old(Client()), ops, middle, ops', Client());
        ops := ops + ops';
      }
      servers := servers[id := server];
      members := members[id := Member([], false, true, true)];
      CacheChannels(serverChannels);
    }

    function Known(): Cache
      reads this`users, this`channels, this`members, this`servers
    {
      Cache(users, channels, members, servers)
    }

    /** Events about channels that neither appear nor disappear by their permissions. */
    method OnChannelEvent(event: Event) returns (ghost ops: seq<Operation>)
      requires Valid() && !state.Reset?
      requires event.ChannelCreate? || event.ChannelDelete? || event.ChannelGroupJoin? || event.ChannelGroupLeave?
      modifies this`subscribed, this`state, this`channels
      ensures !state.Reset? && Reaches(old(Client()), ops, Client())
      ensures Known() == AfterEvent(old(Known()), event, userId, database)
      ensures subscribed == TopicsAfter(old(Known()), old(subscribed), event, userId, database, hash, isBot)
    {
      ops := [];
      match event {
        case ChannelCreate(channel) =>
          ops := Subscribe(channel.id);
          channels := channels[channel.id := channel];
        case ChannelDelete(id) =>
          ops := Unsubscribe(id);
          channels := channels - {id};
        case ChannelGroupJoin(_, user) =>
          ops := Subscribe(user);
        case ChannelGroupLeave(id, user) =>
          if user == userId {
            ops := Unsubscribe(id);
          } else if !CanSubscribeToUser(user) {
            ops := Unsubscribe(user);
          }
      }
    }

    /** Events that change the permissions of a server the user is in. */
    method OnPermissionEvent(event: Event) returns (queue: Option<ServerId>)
      requires event.ServerUpdate? || event.ServerMemberUpdate? || event.ServerRoleUpdate? || event.ServerRoleDelete?
      modifies this`servers, this`members
      ensures Known() == AfterEvent(old(Known()), event, userId, database)
      ensures queue == Queued(old(Known()), event, userId)
    {
      queue := None;
      match event {
        case ServerUpdate(id, update) =>
          if id in servers {
            servers := servers[id := WithUpdate(servers[id], update)];
          }
          if update.defaultPermissions.Some? {
            queue := Some(id);
          }
        case ServerMemberUpdate(id, user, change, clear) =>
          if user == userId {
            if id in members {
              members := members[id := WithChange(members[id], change, clear)];
            }
            if change.roles.Some? || Roles in clear {
              queue := Some(id);
            }
          }
        case ServerRoleUpdate(id, role, rank, permissions) =>
          if id in servers && role in servers[id].roles {
            servers := servers[id := WithRole(servers[id], role, rank, permissions)];
          }
          if (rank.Some? || permissions.Some?) && id in members && role in members[id].roles {
            queue := Some(id);
          }
        case ServerRoleDelete(id, role) =>
          if id in servers {
            servers := servers[id := servers[id].(roles := servers[id].roles - {role})];
          }
          if id in members && role in members[id].roles {
            queue := Some(id);
          }
      }
    }

    /** Suppress a user update whose id was forwarded recently. */
    method OnUserUpdate(id: UserId, eventId: Option<string>) returns (event': Event, forward: bool)
      modifies this`seenEvents
      ensures forward <==> !IsDuplicate(UserUpdate(id, eventId), old(seenEvents))
      ensures seenEvents == if forward && eventId.Some? then Put(old(seenEvents), eventId.value) else old(seenEvents)
      ensures event' == UserUpdate(id, if forward then None else eventId)
    {
      if eventId.Some? {
        if eventId.value in seenEvents {
          return UserUpdate(id, eventId), false;
        }
        seenEvents := Put(seenEvents, eventId.value);
      }
      return UserUpdate(id, None), true;
    }

    /** Events about joining and leaving servers. */
    method OnServerEvent(event: Event) returns (queue: Option<ServerId>, ghost ops: seq<Operation>)
      requires !state.Reset?
      requires event.ServerCreate? || event.ServerMemberLeave? || event.ServerDelete?
      modifies this`subscribed, this`state, this`channels, this`servers, this`members
      ensures !state.Reset? && Reaches(old(Client()), ops, Client())
      ensures Known() == AfterEvent(old(Known()), event, userId, database)
      ensures queue == Queued(old(Known()), event, userId)
      ensures subscribed == TopicsAfter(old(Known()), old(subscribed), event, userId, database, hash, isBot)
    {
      queue, ops := None, [];
      match event {
        case ServerCreate(id, server, serverChannels) =>
          ops := JoinServer(id, server, serverChannels);
          queue := Some(id);
        case ServerMemberLeave(id, user) =>
          if user == userId {
            ops := LeaveServer(id);
          }
        case ServerDelete(id) =>
          ops := LeaveServer(id);
      }
    }

    method OnUserRelationship(id: UserId, user: User) returns (ghost ops: seq<Operation>)
      requires !state.Reset?
      modifies this`subscribed, this`state, this`users
      ensures !state.Reset? && Reaches(old(Client()), ops, Client())
      ensures users == old(users)[id := user]
      ensures subscribed == if MaySubscribe(users, channels, userId, id) then old(subscribed) + {id} else old(subscribed) - {id}
    {
      users := users[id := user];
      if CanSubscribeToUser(id) {
        ops := Subscribe(id);
      } else {
        ops := Unsubscribe(id);
      }
    }

    /** Events about servers, which may queue a recalculation. */
    method OnServerSideEvent(event: Event) returns (queue: Option<ServerId>, ghost ops: seq<Operation>)
      requires !state.Reset? && IsServerSide(event)
      modifies this`subscribed, this`state, this`channels, this`servers, this`members
      ensures !state.Reset? && Reaches(old(Client()), ops, Client())
      ensures Known() == AfterEvent(old(Known()), event, userId, database)
      ensures queue == Queued(old(Known()), event, userId)
      ensures subscribed == TopicsAfter(old(Known()), old(subscribed), event, userId, database, hash, isBot)
    {
      if event.ServerCreate? || event.ServerMemberLeave? || event.ServerDelete? {
        queue, ops := OnServerEvent(event);
      } else {
        ops := [];
        queue := OnPermissionEvent(event);
      }
    }

    /** Events about channels and users, which may change one subscription. */
    method OnUserSideEvent(event: Event)
      returns (event': Event, forward: bool, add: Option<Topic>, remove: Option<Topic>, ghost ops: seq<Operation>)
      requires Valid() && !state.Reset? && !IsServerSide(event)
      modifies this`subscribed, this`state, this`channels, this`users, this`seenEvents
      ensures !state.Reset? && Reaches(old(Client()), ops, Client())
      ensures Known() == AfterEvent(old(Known()), event, userId, database)
      ensures TopicsAfter(old(Known()), old(subscribed), event, userId, database, hash, isBot) ==
              subscribed + OneTopic(add) - OneTopic(remove)
      ensures forward <==> !IsDuplicate(event, old(seenEvents))
      ensures forward ==> event' == Sent(old(Known()), event, userId, database, hash)
      ensures !forward ==> Client() == old(Client()) && Known() == old(Known())
      ensures seenEvents == if forward && CarriesId(event) then Put(old(seenEvents), event.eventId.value) else old(seenEvents)
    {
      event', forward, add, remove, ops := event, true, None, None, [];
      if event.ChannelUpdate? {
        event', add, remove := OnChannelUpdate(event);
      } else if event.ChannelCreate? || event.ChannelDelete? || event.ChannelGroupJoin? || event.ChannelGroupLeave? {
        ops := OnChannelEvent(event);
      } else if event.UserUpdate? {
        event', forward := OnUserUpdate(event.id, event.eventId);
      } else if event.UserRelationship? {
        ops := OnUserRelationship(event.id, event.userData);
      }
    }

    /** The part of an event's handling that precedes any recalculation. */
    method OnEvent(event: Event) returns (event': Event, forward: bool, queue: Option<ServerId>, add: Option<Topic>,
                                          remove: Option<Topic>, ghost ops: seq<Operation>)
      requires Valid() && !state.Reset?
      modifies this`subscribed, this`state, this`channels, this`servers, this`members, this`users, this`seenEvents
      ensures Valid() && !state.Reset? && Reaches(old(Client()), ops, Client())
      ensures Known() == AfterEvent(old(Known()), event, userId, database)
      ensures queue == Queued(old(Known()), event, userId)
      ensures TopicsAfter(old(Known()), old(subscribed), event, userId, database, hash, isBot) ==
              subscribed + OneTopic(add) - OneTopic(remove)
      ensures queue.Some? ==> add.None? && remove.None?
      ensures forward <==> !IsDuplicate(event, old(seenEvents))
      ensures forward ==> event' == Sent(old(Known()), event, userId, database, hash)
      ensures !forward ==> Client() == old(Client()) && Known() == old(Known())
      ensures seenEvents == if forward && CarriesId(event) then Put(old(seenEvents), event.eventId.value) else old(seenEvents)
    {
      if IsServerSide(event) {
        event', forward, add, remove := event, true, None, None;
        queue, ops := OnServerSideEvent(event);
      } else {
        queue := None;
        event', forward, add, remove, ops := OnUserSideEvent(event);
      }
    }

    /** The queued single subscription and unsubscription. */
    method Adjust(add: Option<Topic>, remove: Option<Topic>) returns (ghost ops: seq<Operation>)
      requires !state.Reset?
      modifies this`subscribed, this`state
      ensures !state.Reset? && Reaches(old(Client()), ops, Client())
      ensures subscribed == old(subscribed) + OneTopic(add) - OneTopic(remove)
    {
      ops := [];
      if add.Some? {
        ops := Subscribe(add.value);
      }
      if remove.Some? {
        ghost var middle := Client();
        ghost var ops' := Unsubscribe(remove.value);
        ReachesFurther(old(Client()), ops, middle, ops', Client());
        ops := ops + ops';
      }
    }

    /** The queued recalculation, then the queued single subscription and unsubscription. */
    method Settle(queue: Option<ServerId>, add: Option<Topic>, remove: Option<Topic>, event: Event, fetched: bool)
      returns (event': Event, ghost deleted: seq<ChannelId>, ghost created: seq<Channel>, ghost ops: seq<Operation>)
      requires Valid() && KeyedById(database) && !state.Reset?
      requires queue.Some? ==> add.None? && remove.None?
      modifies this`subscribed, this`state, this`channels
      ensures !state.Reset? && Reaches(old(Client()), ops, Client())
      ensures IsSettled(View(), queue, fetched, old(Known()), old(subscribed) + OneTopic(add) - OneTopic(remove), event,
                        Known(), subscribed, event', deleted, created)
    {
      event', deleted, created, ops := event, [], [], [];
      if queue.Some? {
        event', deleted, created, ops := RecalculateServer(queue.value, event, fetched);
      }
      ghost var middle := Client();
      ghost var ops' := Adjust(add, remove);
      ReachesFurther(old(Client()), ops, middle, ops', Client());
      ops := ops + ops';
    }

    /** Handle one event; a recalculation or a changed channel may replace what is sent to the client. */
    method HandleIncomingEvent(event: Event, fetched: bool)
      returns (forward: bool, event': Event, ghost deleted: seq<ChannelId>, ghost created: seq<Channel>, ghost ops: seq<Operation>)
      requires Valid() && KeyedById(database) && !state.Reset?
      modifies this`subscribed, this`state, this`channels, this`servers, this`members, this`users, this`seenEvents
      ensures Valid() && !state.Reset? && Reaches(old(Client()), ops, Client())
      ensures forward <==> !IsDuplicate(event, old(seenEvents))
      ensures !forward ==> Client() == old(Client()) && Known() == old(Known())
      ensures forward ==> IsHandled(old(Known()), old(subscribed), event, userId, database, hash, isBot, fetched,
                                    Known(), subscribed, event', deleted, created)
      ensures seenEvents == if forward && CarriesId(event) then Put(old(seenEvents), event.eventId.value) else old(seenEvents)
    {
      var queue, add, remove;
      deleted, created := [], [];
      event', forward, queue, add, remove, ops := OnEvent(event);
      if !forward {
        return;
      }
      ghost var c, topics, sent, middle := Known(), subscribed + OneTopic(add) - OneTopic(remove), event', Client();
      ghost var ops';
      event', deleted, created, ops' := Settle(queue, add, remove, event', fetched);
      ReachesFurther(old(Client()), ops, middle, ops', Client());
      ops := ops + ops';
      Handles(old(Known()), old(subscribed), event, userId, database, hash, isBot, fetched, c, topics, sent, queue,
              Known(), subscribed, event', deleted, created);
    }
  }

  /** The effect on cache and topics, completed by a recalculation if the queued server is cached, is the whole effect. */
  lemma Handles(c: Cache, topics: set<Topic>, event: Event, me: UserId, database: Database, hash: HashOrder,
                bot: bool, fetched: bool, c': Cache, t: set<Topic>, sent: Event, queue: Option<ServerId>,
                after: Cache, topics': set<Topic>, event': Event, deleted: seq<ChannelId>, created: seq<Channel>)
    requires me in c.users && me in c'.users
    requires c' == AfterEvent(c, event, me, database) && queue == Queued(c, event, me)
    requires t == TopicsAfter(c, topics, event, me, database, hash, bot) && sent == Sent(c, event, me, database, hash)
    requires IsSettled(PerspectiveOf(c', me, database, hash), queue, fetched, c', t, sent, after, topics', event', deleted, created)
    ensures IsHandled(c, topics, event, me, database, hash, bot, fetched, after, topics', event', deleted, created)
  {}

  /** The created channels are exactly the revealed ones. */
  lemma IdsOfCreated(p: Perspective, channels: map<ChannelId, Channel>, server: ServerId, fetched: bool, created: seq<Channel>)
    requires server in p.servers && KeyedById(p.database)
    requires AreRevealed(p, channels, server, fetched, created)
    ensures IdsOf(created) == Revealed(p, channels, server, fetched)
    ensures forall c :: c in created <==>
              c.id in Revealed(p, channels, server, fetched) && c == p.database.channels[c.id]
  {
    IdsOfMembers(created);
    forall id | id in Revealed(p, channels, server, fetched)
      ensures id in IdsOf(created)
    {
      assert p.database.channels[id] in created;
    }
  }

  ghost predicate AreRevealed(p: Perspective, channels: map<ChannelId, Channel>, server: ServerId, fetched: bool,
                              created: seq<Channel>)
    requires server in p.servers
  {
    forall c :: c in created <==>
      && c.id in Elements(p.servers[server].channels) - CachedOf(channels, server)
      && fetched && c.id in p.database.channels && c == p.database.channels[c.id] && CanView(p, c)
  }

  /** The steps of a recalculation together. */
  lemma Assembled(p: Perspective, server: ServerId, fetched: bool,
                  before: map<ChannelId, Channel>, after: map<ChannelId, Channel>,
                  subscribed: set<Topic>, subscribed': set<Topic>,
                  added: seq<ChannelId>, deleted: seq<ChannelId>, created: seq<Channel>)
    requires server in p.servers && KeyedById(p.database)
    requires Enumerates(deleted, Hidden(p, before, server))
    requires Enumerates(added, CachedOf(before, server) - Hidden(p, before, server))
    requires NoDuplicates(created) && AreRevealed(p, before, server, fetched, created)
    requires subscribed' == subscribed + Elements(added) - Elements(deleted) + IdsOf(created)
    requires after.Keys == (before - Elements(deleted)).Keys + IdsOf(created)
    requires forall c :: c in created ==> c.id in after && after[c.id] == c
    requires forall k :: k in before - Elements(deleted) && k !in IdsOf(created) ==> after[k] == before[k]
    ensures Recalculated(p, server, fetched, before, after, subscribed, subscribed', deleted, created)
  {
    IdsOfCreated(p, before, server, fetched, created);
    assert Elements(deleted) == Hidden(p, before, server);
    assert Elements(added) == CachedOf(before, server) - Hidden(p, before, server);
    forall c | c in Revealed(p, before, server, fetched)
      ensures after[c] == p.database.channels[c]
    {
      assert p.database.channels[c] in created;
    }
  }
}
