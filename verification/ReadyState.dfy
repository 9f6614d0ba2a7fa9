/** Whether a connection starts in step: what the Ready payload leaves in the cache. */
module ReadyState {
  import opened Bits
  import opened Collections
  import opened Entities
  import opened PermissionEdits
  import opened Subscriptions
  import opened ClientState
  import opened Visibility
  import opened Wrappers

  lemma {:induction false} RecordedAreAdded(added: seq<Channel>)
    ensures forall id :: id in Recorded(map[], added) ==> Recorded(map[], added)[id] in added && Recorded(map[], added)[id].id == id
  {
    if added != [] {
      RecordedAreAdded(added[..|added| - 1]);
      assert added == added[..|added| - 1] + [added[|added| - 1]];
    }
  }

  lemma {:induction false} ServersAreKeyed(servers: seq<Server>)
    ensures forall id :: id in ServersById(servers) ==> ServersById(servers)[id] in servers && ServersById(servers)[id].id == id
  {
    if servers != [] {
      ServersAreKeyed(servers[..|servers| - 1]);
      assert servers == servers[..|servers| - 1] + [servers[|servers| - 1]];
    }
  }

  lemma {:induction false} ByServerIsListed(members: seq<ServerMember>)
    ensures forall e :: e in members ==> e.server in ByServer(members)
    ensures forall id :: id in ByServer(members) ==> ServerMember(id, ByServer(members)[id]) in members
  {
    if members != [] {
      ByServerIsListed(members[..|members| - 1]);
      assert members == members[..|members| - 1] + [members[|members| - 1]];
    }
  }

  /** The user's memberships and their servers as the database has them. */
  ghost predicate AreOwn(f: Fetched, user: User, database: Database) {
    forall s :: s in f.servers ==> s.id in ByServer(f.own) && Lookup(database.members, (s.id, user.id)) == Some(ByServer(f.own)[s.id])
  }

  /** For a cached server: the user's own membership, and the one that is cached in the end. */
  function OwnMember(f: Fetched, server: ServerId): Member
    requires server in ByServer(f.own)
  {
    ByServer(f.own)[server]
  }

  /** The cached membership hides a channel that the user's own shows, and the user views it in no other way. */
  ghost predicate Replaces(f: Fetched, p: Perspective, h: HashOrder, channel: Channel)
    requires channel.TextChannel? && channel.server in p.servers && channel.server in p.members
    requires channel.server in ByServer(f.own)
  {
    && !Stands(p, channel)
    && Permits(p.servers[channel.server], OwnMember(f, channel.server), channel, h)
    && !Permits(p.servers[channel.server], p.members[channel.server], channel, h)
  }

  /** The caches of a fresh connection once the payload is built: every server has a membership and its own key. */
  lemma ReadyIsWellFormed(before: Cache, me: UserId, database: Database, h: HashOrder, f: Fetched)
    requires me in before.users && AreOwn(f, before.users[me], database)
    ensures var c := ReadyCache(before, me, database, h, f);
            && MembershipsCached(c)
            && forall id :: id in c.servers ==> id in ByServer(f.own) && c.servers[id].id == id
  {
    ServersAreKeyed(f.servers);
    ByServerIsListed(f.own);
    ByServerIsListed(f.own + f.voice);
    forall id | id in ServersById(f.servers)
      ensures id in ByServer(f.own) && id in ByServer(f.own + f.voice)
    {
      var e := ServerMember(id, ByServer(f.own)[id]);
      assert e in f.own + f.voice;
    }
  }

  /** A channel that passed the filter was shown by the user's own membership or standing. */
  lemma FilteredView(before: Cache, me: UserId, database: Database, h: HashOrder, f: Fetched, channel: Channel)
    requires me in before.users && before.members == map[] && AreOwn(f, before.users[me], database)
    requires channel.TextChannel? && channel.server in ServersById(f.servers)
    requires CanView(ReadyPerspective(before, me, database, h, f), channel)
    ensures channel.server in ByServer(f.own)
    ensures var c := ReadyCache(before, me, database, h, f);
            Stands(PerspectiveOf(c, me, database, h), channel) ||
            Permits(c.servers[channel.server], OwnMember(f, channel.server), channel, h)
  {
    ServersAreKeyed(f.servers);
    ViewDecided(ReadyPerspective(before, me, database, h, f), channel);
  }

  /**
    A fresh connection starts with every cached channel of a server viewable and
    subscribed, if and only if no membership fetched for a voice participant
    takes the place of the user's own and hides one of them.
   */
  lemma ReadyInStepIff(before: Cache, me: UserId, database: Database, h: HashOrder, f: Fetched, privateTopic: Topic,
                       server: ServerId)
    requires me in before.users && before.members == map[] && AreOwn(f, before.users[me], database)
    requires server in ServersById(f.servers)
    ensures MembershipsCached(ReadyCache(before, me, database, h, f)) && server in ByServer(f.own)
    ensures var c := ReadyCache(before, me, database, h, f);
            InStep(c, ReadyTopics(before, me, database, h, f, privateTopic), me, database, h, server) <==>
            forall id :: id in c.channels && BelongsTo(c.channels[id], server) ==>
              !Replaces(f, PerspectiveOf(c, me, database, h), h, c.channels[id])
  {
    ReadyIsWellFormed(before, me, database, h, f);
    var c, channels := ReadyCache(before, me, database, h, f), ReadyChannels(before, me, database, h, f);
    RecordedAreAdded(channels);
    forall id | id in c.channels && BelongsTo(c.channels[id], server)
      ensures id in ReadyTopics(before, me, database, h, f, privateTopic)
      ensures Sees(c, me, database, h, id) <==> !Replaces(f, PerspectiveOf(c, me, database, h), h, c.channels[id])
    {
      IsAnnounced(channels, c.channels[id]);
      ReadyView(before, me, database, h, f, id);
    }
  }

  lemma ReadyView(before: Cache, me: UserId, database: Database, h: HashOrder, f: Fetched, id: ChannelId)
    requires me in before.users && before.members == map[] && AreOwn(f, before.users[me], database)
    requires var c := ReadyCache(before, me, database, h, f);
             id in c.channels && c.channels[id].TextChannel? && c.channels[id].server in c.servers
    ensures var c := ReadyCache(before, me, database, h, f);
            && c.channels[id].server in c.members && c.channels[id].server in ByServer(f.own)
            && (Sees(c, me, database, h, id) <==> !Replaces(f, PerspectiveOf(c, me, database, h), h, c.channels[id]))
  {
    var c := ReadyCache(before, me, database, h, f);
    ReadyIsWellFormed(before, me, database, h, f);
    RecordedAreAdded(ReadyChannels(before, me, database, h, f));
    ViewableLaws(ReadyPerspective(before, me, database, h, f), f.channels);
    FilteredView(before, me, database, h, f, c.channels[id]);
    ViewDecided(PerspectiveOf(c, me, database, h), c.channels[id]);
  }

  lemma IsAnnounced(channels: seq<Channel>, channel: Channel)
    requires channel in channels
    ensures channel.id in Elements(ChannelIds(channels))
  {
    var i :| 0 <= i < |channels| && channels[i] == channel;
    assert ChannelIds(channels)[i] == channel.id;
  }

  /** It does if every membership fetched for the server has the roles of the user's own. */
  lemma SameRolesStartInStep(before: Cache, me: UserId, database: Database, h: HashOrder, f: Fetched, privateTopic: Topic,
                             server: ServerId)
    requires me in before.users && before.members == map[] && AreOwn(f, before.users[me], database)
    requires server in ServersById(f.servers) && server in ByServer(f.own)
    requires forall e :: e in f.own + f.voice && e.server == server ==> e.member.roles == OwnMember(f, server).roles
    ensures InStep(ReadyCache(before, me, database, h, f), ReadyTopics(before, me, database, h, f, privateTopic),
                   me, database, h, server)
  {
    ReadyInStepIff(before, me, database, h, f, privateTopic, server);
    ByServerIsListed(f.own + f.voice);
    var c := ReadyCache(before, me, database, h, f);
    forall id | id in c.channels && BelongsTo(c.channels[id], server)
      ensures !Replaces(f, PerspectiveOf(c, me, database, h), h, c.channels[id])
    {
      RestrictionsKeepView(c.servers[server], OwnMember(f, server), c.members[server], c.channels[id], h);
    }
  }

  // ---- A voice participant's membership in the place of the user's own

  const CONNECTING := User("editor", false, None, [])
  const FRESH := Cache(map["editor" := CONNECTING], map[], map[], map[])
  const WITH_PARTICIPANT :=
    Fetched([ServerMember("s", MODERATOR)], [REVEALING_SERVER], [REVEALING_CHANNEL], [ServerMember("s", BYSTANDER)], [])

  lemma ReadyMembers()
    ensures ByServer(WITH_PARTICIPANT.own) == map["s" := MODERATOR]
    ensures ByServer(WITH_PARTICIPANT.own + WITH_PARTICIPANT.voice) == map["s" := BYSTANDER]
    ensures ServersById(WITH_PARTICIPANT.servers) == map["s" := REVEALING_SERVER]
  {
    var own, all := WITH_PARTICIPANT.own, WITH_PARTICIPANT.own + WITH_PARTICIPANT.voice;
    assert own[..0] == [] && all[..1] == own;
    assert WITH_PARTICIPANT.servers[..0] == [];
  }

  lemma RoleShows(h: HashOrder)
    requires IsHashOrder(h)
    ensures Permits(REVEALING_SERVER, MODERATOR, REVEALING_CHANNEL, h)
    ensures !Permits(REVEALING_SERVER, BYSTANDER, REVEALING_CHANNEL, h)
  {
    ModeratorFlags(h);
    BystanderFlags(h, None);
    RevealingFlags();
    FlagsOfZero();
  }

  lemma ReadyCaches(h: HashOrder)
    requires IsHashOrder(h)
    ensures ReadyCache(FRESH, "editor", REVEALING_DATABASE, h, WITH_PARTICIPANT) ==
            Cache(map["editor" := CONNECTING], map["c" := REVEALING_CHANNEL], map["s" := BYSTANDER], map["s" := REVEALING_SERVER])
  {
    ReadyMembers();
    RoleShows(h);
    var p := ReadyPerspective(FRESH, "editor", REVEALING_DATABASE, h, WITH_PARTICIPANT);
    ViewDecided(p, REVEALING_CHANNEL);
    var channels := WITH_PARTICIPANT.channels;
    assert channels[..0] == [];
    assert Viewable(p, channels[..0]) == [];
    assert Viewable(p, channels) == [REVEALING_CHANNEL];
    assert [REVEALING_CHANNEL][..0] == [];
    assert Recorded(map[], [REVEALING_CHANNEL]) == map["c" := REVEALING_CHANNEL];
  }

  /** The user's role shows the channel, the participant's membership does not, and the participant's is cached. */
  lemma ParticipantHidesChannel(h: HashOrder, privateTopic: Topic)
    requires IsHashOrder(h)
    ensures AreOwn(WITH_PARTICIPANT, CONNECTING, REVEALING_DATABASE)
    ensures var c := ReadyCache(FRESH, "editor", REVEALING_DATABASE, h, WITH_PARTICIPANT);
            && "c" in c.channels && !Sees(c, "editor", REVEALING_DATABASE, h, "c")
            && !InStep(c, ReadyTopics(FRESH, "editor", REVEALING_DATABASE, h, WITH_PARTICIPANT, privateTopic),
                       "editor", REVEALING_DATABASE, h, "s")
  {
    ReadyMembers();
    ReadyCaches(h);
    RoleShows(h);
    var c := ReadyCache(FRESH, "editor", REVEALING_DATABASE, h, WITH_PARTICIPANT);
    ViewDecided(PerspectiveOf(c, "editor", REVEALING_DATABASE, h), REVEALING_CHANNEL);
  }
}
