/** What an event does to the cache, the topics and the queue, field by field. */
module EventLaws {
  import opened Collections
  import opened Permissions
  import opened RoleOverrides
  import opened Entities
  import opened PermissionQueries
  import opened PermissionLaws
  import opened Subscriptions
  import opened ClientState
  import opened Wrappers

  // ---- The cache

  /** What a field is after it was cleared and then set. */
  ghost predicate Becomes<T>(after: T, before: T, given: Option<T>, cleared: bool, empty: T) {
    after == if given.Some? then given.value else if cleared then empty else before
  }

  /** The user's own membership, if it is cached, takes the given fields; nothing else changes. */
  lemma MemberUpdateLaw(c: Cache, id: ServerId, user: UserId, change: PartialMember, clear: set<FieldsMember>, me: UserId,
                        database: Database)
    ensures var c' := AfterEvent(c, ServerMemberUpdate(id, user, change, clear), me, database);
            && c' == c.(members := c'.members) && c'.members.Keys == c.members.Keys
            && (forall other :: other in c.members && (other != id || user != me) ==> c'.members[other] == c.members[other])
            && (user == me && id in c.members ==>
                  var before, after := c.members[id], c'.members[id];
                  && Becomes(after.roles, before.roles, change.roles, Roles in clear, [])
                  && Becomes(after.timedOut, before.timedOut, change.timedOut, Timeout in clear, false)
                  && Becomes(after.canPublish, before.canPublish, change.canPublish, CanPublish in clear, true)
                  && Becomes(after.canReceive, before.canReceive, change.canReceive, CanReceive in clear, true))
  {}

  /** A cached server takes the given fields and keeps its id; nothing else changes. */
  lemma ServerUpdateLaw(c: Cache, id: ServerId, update: PartialServer, me: UserId, database: Database)
    ensures var c' := AfterEvent(c, ServerUpdate(id, update), me, database);
            && c' == c.(servers := c'.servers) && c'.servers.Keys == c.servers.Keys
            && (forall other :: other in c.servers && other != id ==> c'.servers[other] == c.servers[other])
            && (id in c.servers ==>
                  var before, after := c.servers[id], c'.servers[id];
                  && after.id == before.id
                  && Becomes(after.owner, before.owner, update.owner, false, "")
                  && Becomes(after.channels, before.channels, update.channels, false, [])
                  && Becomes(after.roles, before.roles, update.roles, false, map[])
                  && Becomes(after.defaultPermissions, before.defaultPermissions, update.defaultPermissions, false, 0))
  {}

  /** A cached role takes the given rank and override; nothing else changes, and an unknown role is ignored. */
  lemma RoleUpdateLaw(c: Cache, id: ServerId, role: RoleId, rank: Option<int>, permissions: Option<Override>, me: UserId,
                      database: Database)
    ensures var c' := AfterEvent(c, ServerRoleUpdate(id, role, rank, permissions), me, database);
            && c' == c.(servers := c'.servers) && c'.servers.Keys == c.servers.Keys
            && (forall other :: other in c.servers && other != id ==> c'.servers[other] == c.servers[other])
            && (id in c.servers ==>
                  var before, after := c.servers[id], c'.servers[id];
                  && after == before.(roles := after.roles) && after.roles.Keys == before.roles.Keys
                  && (forall other :: other in before.roles && other != role ==> after.roles[other] == before.roles[other])
                  && (role in before.roles ==>
                        && Becomes(after.roles[role].rank, before.roles[role].rank, rank, false, 0)
                        && Becomes(after.roles[role].permissions, before.roles[role].permissions, permissions, false, NO_OVERRIDE)))
  {}

  /** A deleted role leaves its cached server; nothing else changes. */
  lemma RoleDeleteLaw(c: Cache, id: ServerId, role: RoleId, me: UserId, database: Database)
    ensures var c' := AfterEvent(c, ServerRoleDelete(id, role), me, database);
            && c' == c.(servers := c'.servers) && c'.servers.Keys == c.servers.Keys
            && (forall other :: other in c.servers && other != id ==> c'.servers[other] == c.servers[other])
            && (id in c.servers ==>
                  var before, after := c.servers[id], c'.servers[id];
                  && after == before.(roles := after.roles)
                  && after.roles.Keys == before.roles.Keys - {role}
                  && forall other :: other in after.roles ==> after.roles[other] == before.roles[other])
  {}

  /** A cached server channel takes the given overrides; one that is not cached is fetched if it exists. */
  lemma ChannelUpdateLaw(c: Cache, id: ChannelId, data: PartialChannel, clearDefault: bool, me: UserId, database: Database)
    ensures var c' := AfterEvent(c, ChannelUpdate(id, data, clearDefault), me, database);
            && c' == c.(channels := c'.channels)
            && c'.channels.Keys == c.channels.Keys + (if id in database.channels then {id} else {})
            && (forall other :: other in c.channels && other != id ==> c'.channels[other] == c.channels[other])
            && (id !in c.channels && id in database.channels ==> c'.channels[id] == database.channels[id])
            && (id in c.channels ==>
                  var before, after := c.channels[id], c'.channels[id];
                  if !before.TextChannel? then after == before
                  else
                    && after.TextChannel? && after.id == before.id && after.server == before.server
                    && Becomes(after.rolePermissions, before.rolePermissions, data.rolePermissions, false, map[])
                    && after.defaultPermissions == if data.defaultPermissions.Some? then data.defaultPermissions
                                                   else if clearDefault then None else before.defaultPermissions)
  {}

  /** `channel` is the last of the list with its id. */
  ghost predicate IsLastOf(channels: seq<Channel>, channel: Channel) {
    exists i :: 0 <= i < |channels| && channels[i] == channel && forall j :: i < j < |channels| ==> channels[j].id != channel.id
  }

  /** The list names the id. */
  ghost predicate Names(channels: seq<Channel>, id: ChannelId) {
    exists i :: 0 <= i < |channels| && channels[i].id == id
  }

  lemma NamesOneMore(front: seq<Channel>, last: Channel, id: ChannelId)
    ensures Names(front + [last], id) <==> Names(front, id) || last.id == id
  {
    var all := front + [last];
    assert all[|front|] == last;
    if i :| 0 <= i < |front| && front[i].id == id {
      assert all[i].id == id;
    }
  }

  lemma LastOneMore(front: seq<Channel>, last: Channel, channel: Channel)
    ensures IsLastOf(front + [last], last)
    ensures IsLastOf(front, channel) && last.id != channel.id ==> IsLastOf(front + [last], channel)
  {
    var all := front + [last];
    assert all[|front|] == last;
    if i :| 0 <= i < |front| && front[i] == channel && forall j :: i < j < |front| ==> front[j].id != channel.id {
      assert all[i] == channel;
    }
  }

  /** Of several channels put into a cache under one id the last stays. */
  lemma {:induction false} RecordedIsLast(channels: map<ChannelId, Channel>, added: seq<Channel>, id: ChannelId)
    ensures id in Recorded(channels, added) <==> id in channels || Names(added, id)
    ensures id in Recorded(channels, added) ==>
              if Names(added, id) then Recorded(channels, added)[id].id == id && IsLastOf(added, Recorded(channels, added)[id])
              else Recorded(channels, added)[id] == channels[id]
  {
    if added != [] {
      var front, last := added[..|added| - 1], added[|added| - 1];
      assert added == front + [last];
      RecordedIsLast(channels, front, id);
      NamesOneMore(front, last, id);
      LastOneMore(front, last, if id in Recorded(channels, front) then Recorded(channels, front)[id] else last);
    }
  }

  /** Joining a server caches it, a plain membership and its channels; leaving it drops these. */
  lemma JoinAndLeaveLaw(c: Cache, id: ServerId, server: Server, channels: seq<Channel>, user: UserId, me: UserId, database: Database)
    ensures var c' := AfterEvent(c, ServerCreate(id, server, channels), me, database);
            && c'.users == c.users
            && c'.servers.Keys == c.servers.Keys + {id} && c'.servers[id] == server
            && c'.members.Keys == c.members.Keys + {id}
            && c'.members[id].roles == [] && !c'.members[id].timedOut && c'.members[id].canPublish && c'.members[id].canReceive
            && (forall other :: other in c.servers && other != id ==> c'.servers[other] == c.servers[other])
            && (forall other :: other in c.members && other != id ==> c'.members[other] == c.members[other])
            && (forall k :: k in c'.channels <==> k in c.channels || Names(channels, k))
            && (forall k :: k in c'.channels ==>
                  if Names(channels, k) then c'.channels[k].id == k && IsLastOf(channels, c'.channels[k])
                  else c'.channels[k] == c.channels[k])
    ensures user != me ==> AfterEvent(c, ServerMemberLeave(id, user), me, database) == c
    ensures AfterEvent(c, ServerMemberLeave(id, me), me, database) == AfterEvent(c, ServerDelete(id), me, database)
    ensures var c' := AfterEvent(c, ServerDelete(id), me, database);
            && c'.users == c.users
            && c'.servers.Keys == c.servers.Keys - {id} && c'.members.Keys == c.members.Keys - {id}
            && (forall other :: other in c'.servers ==> c'.servers[other] == c.servers[other])
            && (forall other :: other in c'.members ==> c'.members[other] == c.members[other])
            && (forall k :: k in c'.channels <==> k in c.channels && !(id in c.servers && k in c.servers[id].channels))
            && (forall k :: k in c'.channels ==> c'.channels[k] == c.channels[k])
  {
    forall k
      ensures k in Recorded(c.channels, channels) <==> k in c.channels || Names(channels, k)
      ensures k in Recorded(c.channels, channels) ==>
                if Names(channels, k)
                then Recorded(c.channels, channels)[k].id == k && IsLastOf(channels, Recorded(c.channels, channels)[k])
                else Recorded(c.channels, channels)[k] == c.channels[k]
    {
      RecordedIsLast(c.channels, channels, k);
    }
  }

  /** The events about one channel or one user, and those that are ignored. */
  lemma SingleEntryLaw(c: Cache, channel: Channel, id: string, user: User, event: Event, me: UserId, database: Database)
    ensures AfterEvent(c, ChannelCreate(channel), me, database) == c.(channels := c.channels[channel.id := channel])
    ensures var c' := AfterEvent(c, ChannelDelete(id), me, database);
            && c' == c.(channels := c'.channels) && c'.channels.Keys == c.channels.Keys - {id}
            && forall k :: k in c'.channels ==> c'.channels[k] == c.channels[k]
    ensures AfterEvent(c, UserRelationship(id, user), me, database) == c.(users := c.users[id := user])
    ensures event.ChannelGroupJoin? || event.ChannelGroupLeave? ==> AfterEvent(c, event, me, database) == c
    ensures event.ServerRoleRanksUpdate? || event.UserUpdate? || event.Bulk? || event.Other? ==>
              AfterEvent(c, event, me, database) == c
  {}

  // ---- The queue

  /** A recalculation is queued for a joined server, a new default, new roles of the user's, and changes to a role they hold. */
  lemma QueueLaw(c: Cache, event: Event, me: UserId, id: ServerId)
    ensures Queued(c, event, me) == Some(id) <==>
            || (event.ServerCreate? && event.id == id)
            || (event.ServerUpdate? && event.id == id && event.update.defaultPermissions.Some?)
            || (event.ServerMemberUpdate? && event.id == id && event.user == me && (event.change.roles.Some? || Roles in event.clear))
            || (event.ServerRoleUpdate? && event.id == id && (event.rank.Some? || event.permissions.Some?)
                && id in c.members && event.role in c.members[id].roles)
            || (event.ServerRoleDelete? && event.id == id && id in c.members && event.role in c.members[id].roles)
  {}

  // ---- The topics

  /** The user may follow another: oneself, friends and requests either way, and whoever shares a direct message or group. */
  ghost predicate Knows(c: Cache, me: UserId, other: UserId) {
    && me in c.users
    && (|| c.users[me].id == other
        || (exists status :: IsRelation(c.users[me], other, status) &&
              (status == Friend || status == Incoming || status == Outgoing || status == Self))
        || (exists k :: k in c.channels && (c.channels[k].DirectMessage? || c.channels[k].Group?) && other in c.channels[k].recipients))
  }

  lemma RelationIsUnique(user: User, other: UserId, a: RelationshipStatus, b: RelationshipStatus)
    requires IsRelation(user, other, a) && IsRelation(user, other, b)
    ensures a == b
  {}

  lemma FollowLaw(c: Cache, me: UserId, other: UserId)
    ensures MaySubscribe(c.users, c.channels, me, other) <==> Knows(c, me, other)
  {
    if me in c.users {
      var user := c.users[me];
      FirstRelation(user.relations, other);
      assert IsRelation(user, other, RelationIn(user.relations, other));
      forall status | IsRelation(user, other, status)
        ensures status == RelationIn(user.relations, other)
      {
        RelationIsUnique(user, other, status, RelationIn(user.relations, other));
      }
    }
  }

  /** Which topics are subscribed after an event, topic by topic. */
  lemma TopicLaw(c: Cache, topics: set<Topic>, event: Event, me: UserId, database: Database, h: HashOrder, bot: bool, t: Topic)
    ensures var after := t in TopicsAfter(c, topics, event, me, database, h, bot);
            match event
            case ChannelCreate(channel) => after <==> t in topics || t == channel.id
            case ChannelUpdate(id, _, _) =>
              var could, can := Sees(c, me, database, h, id), Sees(AfterEvent(c, event, me, database), me, database, h, id);
              after <==> if t == id && could != can then can else t in topics
            case ChannelDelete(id) => after <==> t in topics && t != id
            case ChannelGroupJoin(_, user) => after <==> t in topics || t == user
            case ChannelGroupLeave(id, user) =>
              after <==> t in topics && !(if user == me then t == id else t == user && !Knows(c, me, user))
            case ServerCreate(id, _, _) => after <==> t in topics || t == id || (bot && t == id + "u")
            case ServerMemberLeave(id, user) =>
              after <==> t in topics && !(user == me && (t == id || (id in c.servers && t in c.servers[id].channels)))
            case ServerDelete(id) => after <==> t in topics && t != id && !(id in c.servers && t in c.servers[id].channels)
            case UserRelationship(id, user) =>
              after <==> if t == id then Knows(c.(users := c.users[id := user]), me, id) else t in topics
            case _ => after <==> t in topics
  {
    match event
    case ChannelGroupLeave(_, user) => FollowLaw(c, me, user);
    case UserRelationship(id, user) => FollowLaw(c.(users := c.users[id := user]), me, id);
    case _ =>
  }

  /** What is sent: a channel that appears or disappears replaces its update, and user updates lose their id. */
  lemma SentLaw(c: Cache, event: Event, me: UserId, database: Database, h: HashOrder)
    ensures var sent, c' := Sent(c, event, me, database, h), AfterEvent(c, event, me, database);
            && (event.ChannelUpdate? && Sees(c', me, database, h, event.id) && !Sees(c, me, database, h, event.id) ==>
                  sent == ChannelCreate(c'.channels[event.id]))
            && (event.ChannelUpdate? && !Sees(c', me, database, h, event.id) && Sees(c, me, database, h, event.id) ==>
                  sent == ChannelDelete(event.id))
            && (event.ChannelUpdate? && (Sees(c', me, database, h, event.id) <==> Sees(c, me, database, h, event.id)) ==> sent == event)
            && (event.UserUpdate? ==> sent == UserUpdate(event.id, None))
            && (!event.ChannelUpdate? && !event.UserUpdate? ==> sent == event)
  {}

  // ---- Recalculation

  /** Channels other than text channels are always viewable, and a view is the one the calculator grants. */
  lemma ViewLaw(p: Perspective, channel: Channel)
    ensures !channel.TextChannel? ==> CanView(p, channel)
    ensures channel.TextChannel? ==>
              var q := Query(p.database, p.user, None, Some(channel), Lookup(p.servers, channel.server), Lookup(p.members, channel.server), None);
              CanView(p, channel) <==> VIEW_CHANNEL in ChannelFlags(q, p.hash)
  {}

  /** What a recalculation announces and what it leaves alone, channel by channel. */
  lemma RecalculationFrame(p: Perspective, server: ServerId, fetched: bool, before: map<ChannelId, Channel>,
                           after: map<ChannelId, Channel>, subscribed: set<Topic>, subscribed': set<Topic>,
                           deleted: seq<ChannelId>, created: seq<Channel>, id: ChannelId)
    requires server in p.servers && KeyedById(p.database)
    requires Recalculated(p, server, fetched, before, after, subscribed, subscribed', deleted, created)
    ensures id in deleted <==> id in before && before[id].TextChannel? && before[id].server == server && !CanView(p, before[id])
    ensures (exists channel :: channel in created && channel.id == id) <==>
            && fetched && id in p.servers[server].channels && id in p.database.channels
            && !(id in before && before[id].TextChannel? && before[id].server == server)
            && CanView(p, p.database.channels[id])
    ensures forall channel :: channel in created && channel.id == id ==> Lookup(p.database.channels, id) == Some(channel)
    ensures id !in deleted && (forall channel :: channel in created ==> channel.id != id) ==>
              && Lookup(after, id) == Lookup(before, id)
              && (id in subscribed' <==>
                  id in subscribed || (id in before && before[id].TextChannel? && before[id].server == server))
    ensures forall channel :: channel in created ==> Lookup(after, channel.id) == Some(channel) && channel.id in subscribed'
    ensures id in deleted && (forall channel :: channel in created ==> channel.id != id) ==> id !in after && id !in subscribed'
  {
    if id in Revealed(p, before, server, fetched) {
      assert p.database.channels[id] in created;
    }
  }

  /** What the client is sent: the event alone, or behind a deletion of each hidden and a creation of each revealed channel. */
  lemma AnnouncementLaw(deleted: seq<ChannelId>, created: seq<Channel>, event: Event)
    ensures var event' := Announced(Deletions(deleted) + Creations(created), event);
            var n, k := |deleted|, |created|;
            if n + k == 0 then event' == event
            else
              && event'.Bulk? && |event'.events| == n + k + 1
              && (forall i :: 0 <= i < n ==> event'.events[i] == ChannelDelete(deleted[i]))
              && (forall i :: n <= i < n + k ==> event'.events[i] == ChannelCreate(created[i - n]))
              && event'.events[n + k] == event
  {}

  // ---- The Ready payload

  /** The entry at `i` is the last one about its server. */
  ghost predicate IsLastAt(members: seq<ServerMember>, i: int, entry: ServerMember) {
    && 0 <= i < |members| && members[i] == entry
    && (forall j :: i < j < |members| ==> members[j].server != entry.server)
  }

  lemma {:induction false} LastMembership(members: seq<ServerMember>, server: ServerId) returns (i: int)
    requires server in ByServer(members)
    ensures IsLastAt(members, i, ServerMember(server, ByServer(members)[server]))
  {
    i := |members| - 1;
    if members[i].server != server {
      i := LastMembership(members[..|members| - 1], server);
    }
  }

  lemma {:induction false} ListedMembership(members: seq<ServerMember>, i: nat)
    requires i < |members|
    ensures members[i].server in ByServer(members)
  {
    if i < |members| - 1 {
      ListedMembership(members[..|members| - 1], i);
    }
  }

  lemma {:induction false} ListedServers(servers: seq<Server>, id: ServerId)
    ensures id in ServersById(servers) <==> exists i :: 0 <= i < |servers| && servers[i].id == id
    ensures id in ServersById(servers) ==> ServersById(servers)[id] in servers && ServersById(servers)[id].id == id
  {
    if servers != [] {
      ListedServers(servers[..|servers| - 1], id);
      var front := servers[..|servers| - 1];
      assert servers == front + [servers[|servers| - 1]];
      if i :| 0 <= i < |servers| && servers[i].id == id && i < |front| {
        assert front[i].id == id;
      }
      if i :| 0 <= i < |front| && front[i].id == id {
        assert servers[i].id == id;
      }
      assert servers[|servers| - 1].id == id ==> exists i :: 0 <= i < |servers| && servers[i].id == id;
    }
  }

  lemma {:induction false} ListedUsers(users: seq<User>, id: UserId)
    ensures id in UsersById(users) <==> exists i :: 0 <= i < |users| && users[i].id == id
    ensures id in UsersById(users) ==> UsersById(users)[id] in users && UsersById(users)[id].id == id
  {
    if users != [] {
      ListedUsers(users[..|users| - 1], id);
      var front := users[..|users| - 1];
      assert users == front + [users[|users| - 1]];
      if i :| 0 <= i < |users| && users[i].id == id && i < |front| {
        assert front[i].id == id;
      }
      if i :| 0 <= i < |front| && front[i].id == id {
        assert users[i].id == id;
      }
      assert users[|users| - 1].id == id ==> exists i :: 0 <= i < |users| && users[i].id == id;
    }
  }

  lemma ReadyMembership(members: seq<ServerMember>, server: ServerId)
    ensures server in ByServer(members) <==> exists i :: 0 <= i < |members| && members[i].server == server
    ensures server in ByServer(members) ==>
              exists i :: IsLastAt(members, i, ServerMember(server, ByServer(members)[server]))
  {
    if server in ByServer(members) {
      var i := LastMembership(members, server);
      assert members[i].server == server;
    } else if i :| 0 <= i < |members| && members[i].server == server {
      ListedMembership(members, i);
    }
  }

  /** What the payload caches: the fetched servers and users, the own entry, and the last membership per server. */
  lemma ReadyCacheLaw(before: Cache, me: UserId, database: Database, h: HashOrder, f: Fetched, server: ServerId, user: UserId)
    requires me in before.users
    ensures var c := ReadyCache(before, me, database, h, f);
            && c.users[me] == before.users[me]
            && (user in c.users <==> user == me || exists i :: 0 <= i < |f.others| && f.others[i].id == user)
            && (user != me && user in c.users ==> c.users[user] in f.others)
            && (server in c.servers <==> exists i :: 0 <= i < |f.servers| && f.servers[i].id == server)
            && (server in c.servers ==> c.servers[server] in f.servers && c.servers[server].id == server)
            && (server in c.members <==> exists i :: 0 <= i < |f.own + f.voice| && (f.own + f.voice)[i].server == server)
            && (server in c.members ==> exists i :: IsLastAt(f.own + f.voice, i, ServerMember(server, c.members[server])))
  {
    ReadyMembership(f.own + f.voice, server);
    ListedServers(f.servers, server);
    ListedUsers(f.others, user);
  }

  /** Which channels it caches: the fetched ones that may be viewed with the new servers and the old memberships. */
  lemma ReadyChannelLaw(before: Cache, me: UserId, database: Database, h: HashOrder, f: Fetched, channel: Channel)
    requires me in before.users
    ensures channel in ReadyChannels(before, me, database, h, f) <==>
            channel in f.channels && CanView(Perspective(database, before.users[me], ServersById(f.servers), before.members, h), channel)
    ensures forall id :: id in ReadyCache(before, me, database, h, f).channels <==>
              Names(ReadyChannels(before, me, database, h, f), id)
    ensures forall id :: id in ReadyCache(before, me, database, h, f).channels ==>
              IsLastOf(ReadyChannels(before, me, database, h, f), ReadyCache(before, me, database, h, f).channels[id])
  {
    ViewableLaws(ReadyPerspective(before, me, database, h, f), f.channels);
    var shown := ReadyChannels(before, me, database, h, f);
    forall id
      ensures id in Recorded(map[], shown) <==> Names(shown, id)
      ensures id in Recorded(map[], shown) ==> IsLastOf(shown, Recorded(map[], shown)[id])
    {
      RecordedIsLast(map[], shown, id);
    }
  }

  lemma {:induction false} ServerTopicsLaw(ids: seq<ServerId>, bot: bool, t: Topic)
    ensures t in ServerTopics(ids, bot) <==> exists i :: 0 <= i < |ids| && (t == ids[i] || (bot && t == ids[i] + "u"))
  {
    if ids != [] {
      var front, last := ids[..|ids| - 1], ids[|ids| - 1];
      ServerTopicsLaw(front, bot, t);
      if t == last || (bot && t == last + "u") {
        assert ids[|ids| - 1] == last;
      }
      if i :| 0 <= i < |front| && (t == front[i] || (bot && t == front[i] + "u")) {
        assert ids[i] == front[i];
      }
      if i :| 0 <= i < |ids| && (t == ids[i] || (bot && t == ids[i] + "u")) {
        assert i == |front| || front[i] == ids[i];
      }
    }
  }

  /** Its topics: the private one, the user and the fetched users, the servers, for bots also their members, and the channels. */
  lemma ReadyTopicLaw(before: Cache, me: UserId, database: Database, h: HashOrder, f: Fetched, privateTopic: Topic, t: Topic)
    requires me in before.users
    ensures var shown := ReadyChannels(before, me, database, h, f);
            t in ReadyTopics(before, me, database, h, f, privateTopic) <==>
            || t == privateTopic || t == before.users[me].id
            || (exists i :: 0 <= i < |f.others| && f.others[i].id == t)
            || (exists i :: 0 <= i < |f.servers| &&
                  (t == f.servers[i].id || (before.users[me].botOwner.Some? && t == f.servers[i].id + "u")))
            || Names(shown, t)
  {
    var shown, bot := ReadyChannels(before, me, database, h, f), before.users[me].botOwner.Some?;
    ServerTopicsLaw(ServerIds(f.servers), bot, t);
    var users, ids := UserIds(f.others) + [before.users[me].id], ChannelIds(shown);
    assert users[|f.others|] == before.users[me].id;
    if i :| 0 <= i < |f.others| && f.others[i].id == t {
      assert users[i] == t;
    }
    if i :| 0 <= i < |shown| && shown[i].id == t {
      assert ids[i] == t;
    }
    if i :| 0 <= i < |f.servers| && (t == f.servers[i].id || (bot && t == f.servers[i].id + "u")) {
      assert ServerIds(f.servers)[i] == f.servers[i].id;
    }
  }
}
