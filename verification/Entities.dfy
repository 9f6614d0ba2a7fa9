/** The stored entities that permissions are calculated from. */
module Entities {
  import opened Permissions
  import opened RoleOverrides
  import opened Wrappers

  type UserId = string
  type ServerId = string
  type ChannelId = string

  datatype Role = Role(permissions: Override, rank: int)

  datatype Server = Server(
    id: ServerId,
    owner: UserId,
    channels: seq<ChannelId>,
    roles: map<RoleId, Role>,
    defaultPermissions: bv64
  )

  /** `timedOut` is the verdict of comparing the member's timeout with the clock. */
  datatype Member = Member(roles: seq<RoleId>, timedOut: bool, canPublish: bool, canReceive: bool)

  datatype RelationshipStatus = NoRelation | Self | Friend | Outgoing | Incoming | Blocked | BlockedOther

  datatype Relationship = Relationship(id: UserId, status: RelationshipStatus)

  datatype User = User(
    id: UserId,
    privileged: bool,
    botOwner: Option<UserId>,
    relations: seq<Relationship>
  )

  datatype Channel =
    | SavedMessages(id: ChannelId, user: UserId)
    | DirectMessage(id: ChannelId, recipients: seq<UserId>)
    | Group(id: ChannelId, owner: UserId, recipients: seq<UserId>, permissions: Option<bv64>)
    | TextChannel(id: ChannelId, server: ServerId, defaultPermissions: Option<Override>,
                  rolePermissions: map<RoleId, Override>)

  /** The stored data the calculators look up; a missing key is a failed fetch. */
  datatype Database = Database(
    users: map<UserId, User>,
    servers: map<ServerId, Server>,
    members: map<(ServerId, UserId), Member>,
    channels: map<ChannelId, Channel>,
    mutualConnections: set<(UserId, UserId)>
  )

  /** Iteration orders of hash maps, as a function of the key set. */
  type HashOrder = set<RoleId> -> seq<RoleId>

  ghost predicate IsHashOrder(h: HashOrder) {
    forall keys :: Enumerates(h(keys), keys)
  }

  /** The override a role of the member has in the server. */
  function ServerGrants(server: Server, member: Member): Grants {
    (id: RoleId) =>
      if id in server.roles && id in member.roles
      then Some(Ranked(server.roles[id].rank, server.roles[id].permissions))
      else None
  }

  /** The override a role of the member has in a channel of the server. */
  function ChannelGrants(server: Server, member: Member, rolePermissions: map<RoleId, Override>): Grants {
    (id: RoleId) =>
      if id in rolePermissions && id in member.roles && id in server.roles
      then Some(Ranked(server.roles[id].rank, rolePermissions[id]))
      else None
  }

  function DefaultOverride(o: Option<Override>): Override {
    match o case Some(v) => v case None => NO_OVERRIDE
  }
}
