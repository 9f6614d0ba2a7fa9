# A model of the chat backend's permission, gateway and token logic

This project models the stateful core of the backend in Dafny and proves what
it promises over all inputs, all runs and all hash-map iteration orders.

- **Permissions** (`Bits`, `PermissionValue`, `StableSort`, `RoleOverrides`,
  `Entities`, `PermissionQuery`, `BulkPermissions`, `PermissionLaws`). Permission
  values are 64-bit words; a word's meaning is its set of one-bit flags, and the
  word operators are proved to be the set operators. On top are the per-user calculator with the
  query object it mutates, and the bulk calculator used to filter mentions.
- **Edits** (`PermissionEdits`, `RoleOrdering`, `EditLaws`, `ReorderGain`). The
  routes that change overrides, defaults and the role order, and what members can
  gain from them.
- **Gateway** (`Subscriptions`, `SeenEvents`, `ClientState`, `EventLaws`,
  `Visibility`, `ReadyState`, `CacheAgreement`, `Listener`). The connection's cache
  and subscriptions, the Ready payload, the flush to the broker, the recalculation of
  a server and the event handler; when the cache stays in step with what the user
  may view and with the store.
- **OAuth2** (`OAuthStore`, `OAuthLaws`, `OAuthInterleaving`, `OAuthRefinement`).
  The three token maps with every handler as one step; then every map operation as
  a step of its own under free interleaving; then the former as runs of the latter.
- **Ack worker, message parser, rate limiter, presence** (`AckWorker`,
  `AckLaws`, `MessageParser`, `RateLimiter`, `Presence`).

Code that updates fields in place is a class whose methods are proved against
functions of the old state; the laws are lemmas about those functions. The modules
named Laws say what those functions compute in terms of the stored fields alone. The
database, the broker and the key-value store are maps and sets. Clock readings,
generated tokens, random numbers, fetch failures and iteration orders are
parameters, so a statement holds for all of them. A panic or a step that is not
enabled is `None`.

Where code and prose differ the code is followed. The comment on the region
cleanup says that it also sends out events; the code discards the flags, so no
event follows from it.

`dafny verify dfyconfig.toml` checks the whole project.

## Model

| member | source | states |
|---|---|---|
| Permissions.PermissionValue.Apply | crates/core/permissions/src/models/mod.rs:24-27 | an override adds its allowed flags, then removes its denied ones |
| Permissions.PermissionValue.Restrict | crates/core/permissions/src/models/mod.rs:45-47 | only flags of the mask are left |
| Permissions.PermissionValue.Has | crates/core/permissions/src/models/mod.rs:50-52 | true exactly when every flag of the argument is held |
| Permissions.PermissionValue.ThrowPermissionOverride | crates/core/permissions/src/models/mod.rs:86-113 | accepts exactly when every newly allowed flag and every flag no longer denied is held by the editor; refuses with CannotGiveMissingPermissions |
| Permissions.TimeoutMaskFacts | crates/core/permissions/src/models/channel.rs:85-147 | the timeout mask keeps viewing and shares nothing with Speak, Video and Listen |
| PermissionLaws.FlagPositions | crates/core/permissions/src/models/channel.rs:22-110 | every flag is at its bit, and everything safe is the lowest 52 bits |
| PermissionLaws.ViewingMasks | crates/core/permissions/src/models/channel.rs:124-128 | what a timeout allows, and a mere viewer has, is exactly viewing and reading |
| PermissionLaws.DefaultMask | crates/core/permissions/src/models/channel.rs:130-141 | the ten flags everybody has by default |
| PermissionLaws.DirectMessageMask | crates/core/permissions/src/models/channel.rs:145-147 | direct messages add managing, reacting and masquerading to them |
| PermissionLaws.GrantIffNoGain | crates/core/permissions/src/models/mod.rs:86-113 | an override that does not allow what it denies may replace another if and only if that lets nothing through that the editor lacks, whatever it is applied to |
| PermissionLaws.GrantByFlag | crates/core/permissions/src/models/mod.rs:86-113 | the same test flag by flag, for any two overrides |
| RoleOverrides.FoldFollowsWinner | crates/core/permissions/src/impl.rs:58-62 | over a rank-sorted list the fold gives each flag the verdict of the last entry of least rank that mentions it |
| RoleOverrides.PriorityLaw | crates/core/database/src/util/permissions.rs:154-177 | for every iteration order of the role map: a flag is settled by the role of smallest rank mentioning it, deny beating allow inside one override, and is untouched if no role mentions it |
| RoleOverrides.OrderIrrelevantIffTieFree | crates/core/database/src/util/permissions.rs:252-290 | the result is independent of hash-map iteration order if and only if no two equally ranked deciding roles disagree |
| PermissionQueries.DistinctRanksSuffice | crates/core/models/src/v0/servers.rs:178-180 | distinct role ranks rule out such ties in the server and in every channel |
| PermissionQueries.DatabasePermissionQuery.GetOurServerRoleOverrides | crates/core/database/src/util/permissions.rs:154-177 | filter, in-place sort and projection give our roles' overrides, lowest priority first, for the iteration order at hand; none without a server or a membership |
| PermissionQueries.DatabasePermissionQuery.GetOurChannelRoleOverrides | crates/core/database/src/util/permissions.rs:252-290 | the same for the channel's role overrides, with ranks looked up in the server; roles the server lacks are skipped; none without a server channel, a server or a membership; ChannelRoleSettles says what they amount to flag by flag |
| PermissionQueries.DatabasePermissionQuery.AreWeAMember | crates/core/database/src/util/permissions.rs:125-142 | true exactly when a membership is cached or stored, and the query then holds it |
| PermissionQueries.DatabasePermissionQuery.HaveMutualConnection | crates/core/database/src/util/permissions.rs:96-111 | answers from the cached value or the store and caches the answer |
| PermissionQueries.DatabasePermissionQuery.SetServerFromChannel | crates/core/database/src/util/permissions.rs:345-375 | selects the channel's server unless it is already selected; a failed fetch leaves the query as it was |
| PermissionQueries.DatabasePermissionQuery.SetRecipientAsUser | crates/core/database/src/util/permissions.rs:324-341 | selects the other recipient of a direct message |
| PermissionQueries.CalculateUserPermissions | crates/core/permissions/src/impl.rs:8-46 | every branch of the user calculation, with the exact new state of the query |
| PermissionQueries.UserPermissionLaw | crates/core/permissions/src/impl.rs:8-46 | exactly when access, profile and sending are granted; a block leaves access only, and strangers with a mutual connection may write exactly if one of them is a bot |
| PermissionQueries.CalculateServerPermissions | crates/core/permissions/src/impl.rs:49-78 | privileged users and owners get everything safe, non-members nothing, members the default folded through their roles and cut by mute, deafen and timeout |
| PermissionQueries.CalculateChannelPermissions | crates/core/permissions/src/impl.rs:81-147 | the flags for each kind of channel, with the exact new state of the query |
| PermissionQueries.NothingWithoutView | crates/core/permissions/src/impl.rs:81-147 | in every kind of channel, for every query, permissions are empty or include viewing the channel |
| PermissionQueries.ServerFlagLaw | crates/core/permissions/src/impl.rs:58-77 | each flag of a member is set exactly when the smallest-rank role mentioning it, else the server default, sets it and neither mute, deafen nor timeout withholds it |
| PermissionQueries.ChannelFlagLaw | crates/core/permissions/src/impl.rs:125-138 | before the view gate each flag is settled by the smallest-rank channel role mentioning it, else the channel default, else the server permissions, within the timeout mask |
| PermissionLaws.ServerRoleSettles | crates/core/database/src/util/permissions.rs:154-177 | a flag is settled by the stored server role of smallest rank that the member holds and that speaks about it, unless mute, deafen or timeout withhold it |
| PermissionLaws.ServerDefaultSettles | crates/core/permissions/src/impl.rs:49-78 | a flag no held role speaks about is the stored server default's |
| PermissionLaws.ChannelRoleSettles | crates/core/database/src/util/permissions.rs:252-290 | a flag is settled by the channel override of the held role of smallest server rank that speaks about it, in both calculators, within the timeout mask in the per-user one |
| PermissionLaws.ChannelDefaultSettles | crates/core/permissions/src/impl.rs:125-138 | otherwise by the channel default if it speaks about it, and otherwise by the server permissions |
| PermissionLaws.ServerStanding | crates/core/permissions/src/impl.rs:49-57 | privileged users and the owner hold everything safe, strangers nothing, others the selected or stored membership's permissions |
| PermissionLaws.ServerChannelStanding | crates/core/permissions/src/impl.rs:81-147 | the same in a server channel, on the selected or stored server; a member who may not view the channel has nothing in it |
| PermissionLaws.RelationshipLaw | crates/core/database/src/util/permissions.rs:43-111 | oneself and one's own bots count as oneself, otherwise the first entry about the other decides; the mutual connection is the remembered or the stored one |
| PermissionLaws.DirectMessageLaw | crates/core/permissions/src/impl.rs:94-107 | a participant of a direct message holds what direct messages allow if they may write to the first other recipient, and otherwise may view it |
| PermissionLaws.GroupLaw | crates/core/permissions/src/impl.rs:108-118 | the owner of a group holds everything safe, the others in it viewing and the group's permissions, everybody else nothing |
| PermissionLaws.SavedMessagesLaw | crates/core/permissions/src/impl.rs:81-93 | saved messages are their owner's |
| PermissionLaws.CalculationsOnlySelect | crates/core/database/src/util/permissions.rs:125-142 | calculations change a query only by what they had to look up, and to what is stored |
| PermissionLaws.ChannelCalculationSelects | crates/core/database/src/util/permissions.rs:345-375 | which server and membership a channel calculation leaves selected |
| PermissionLaws.DirectMessageSelects | crates/core/permissions/src/impl.rs:94-98 | in a direct message the first other recipient, if stored, is selected before the user calculation |
| PermissionQueries.MemberFlagsIgnoreOrder | crates/core/database/src/util/permissions.rs:252-290 | without ties two iteration orders give a member the same channel permissions |
| BulkPermissions.CalculateServerPermissions | crates/core/database/src/util/bulk_permissions.rs:316-345 | the bulk server step: default folded through the sorted roles and the timeout mask, without mute and deafen |
| PermissionLaws.BulkStanding | crates/core/database/src/util/bulk_permissions.rs:256-281 | in the bulk calculation strangers hold nothing, and privileged members and the owner everything safe |
| PermissionLaws.LastMembershipCounts | crates/core/database/src/util/bulk_permissions.rs:246-254 | of several memberships of one user the last counts |
| PermissionLaws.HasMembership | crates/core/database/src/util/bulk_permissions.rs:246-263 | exactly the users with an entry in the list have a membership |
| PermissionLaws.MissingListLaw | crates/core/database/src/util/bulk_permissions.rs:205-245 | a missing list is filled with the stored users of the given memberships, or the stored memberships of the given users, and nothing else |
| BulkPermissions.BulkDatabasePermissionQuery.FetchMissing | crates/core/database/src/util/bulk_permissions.rs:206-246 | a missing list of users or members is filled in with what the database has for the other list |
| BulkPermissions.BulkDatabasePermissionQuery.CalculateMembersPermissions | crates/core/database/src/util/bulk_permissions.rs:186-313 | one answer per listed or fetched user, the last entry of a repeated user deciding, each the bulk flags of that user and membership |
| BulkPermissions.BulkDatabasePermissionQuery.MembersCanSeeChannel | crates/core/database/src/util/bulk_permissions.rs:28-57 | the listed or fetched users, each with whether the bulk flags include ViewChannel |
| BulkPermissions.UngatedAgainstBulk | crates/core/database/src/util/bulk_permissions.rs:256-313 | before the gate the per-user flags are the bulk ones cut to the timeout mask, or differ at most by Speak, Video and Listen |
| BulkPermissions.BulkAgrees | crates/core/database/src/util/bulk_permissions.rs:256-345 | both calculators agree on ViewChannel for every member, selected or still to be fetched, for any two iteration orders without ties; without it the per-user value is empty, with it it is the bulk value masked by timeout or differing at most in the voice flags |
| BulkPermissions.BulkVerdictIsPerUser | crates/core/database/src/util/bulk_permissions.rs:206-313 | on one database the bulk verdict on a user is the per-user one, exactly unless the user is no member but privileged or the owner |
| PermissionEdits.GetRanking | crates/core/database/src/models/server_members/model.rs:243-254 | the least rank among the member's roles that exist, or the largest integer |
| PermissionEdits.RankingIsLeast | crates/core/database/src/models/server_members/model.rs:243-254 | no role of the member ranks above that value and, unless it is the largest integer, some role has it |
| PermissionEdits.Routes.SetRolePermission | crates/delta/src/routes/servers/permissions_set.rs:26-52 | which error, or the new override stored; nothing else of the database changes; RoleEditAnswer and StoredRoleEdit say both in terms of the stored fields |
| EditLaws.RoleEditAnswer | crates/delta/src/routes/servers/permissions_set.rs:26-52 | the answer to an ordinary editor: ManagePermissions, then a held role of smaller rank than the edited one, then nothing given that the stored membership does not hold, each with its error |
| EditLaws.RoleEditByOwner | crates/delta/src/routes/servers/permissions_set.rs:36-48 | the answer to the owner and to privileged users |
| EditLaws.RoleEditByStranger | crates/delta/src/routes/servers/permissions_set.rs:26-36 | strangers lack the permission, and what does not exist is not found |
| EditLaws.StoredRoleEdit | crates/core/database/src/models/servers/model.rs:242-263 | the stored role has the new override and its old rank; every other role and field is unchanged |
| PermissionEdits.Routes.SetDefaultServerPermissions | crates/delta/src/routes/servers/permissions_set_default.rs:25-51 | which error, or the new default stored; nothing else changes |
| EditLaws.ServerDefaultAnswer | crates/delta/src/routes/servers/permissions_set_default.rs:25-43 | accepted if and only if the editor may manage permissions and holds every given flag, with the error otherwise |
| PermissionEdits.Routes.SetDefaultChannelPermissions | crates/delta/src/routes/channels/permissions_set_default.rs:25-72 | which error, or the new group or text-channel default stored; nothing else changes |
| EditLaws.ChannelDefaultAnswer | crates/delta/src/routes/channels/permissions_set_default.rs:25-72 | accepted if and only if the editor may manage permissions, the value fits the kind of channel and, in a server channel, gives only what the editor holds, with the error otherwise |
| EditLaws.StoredChannelDefault | crates/delta/src/routes/channels/permissions_set_default.rs:33-66 | only the group's permissions or the channel's default override change |
| PermissionEdits.RoleEditGain | crates/delta/src/routes/servers/permissions_set.rs:44-52 | after an accepted role edit no member, with any roles and in any iteration order, has a server permission that was not theirs before and the editor lacks |
| PermissionEdits.RoleEditGainAnyOrder | crates/delta/src/routes/servers/permissions_set.rs:44-52 | the same when the roles are iterated in another order after the edit, if no roles tie then |
| PermissionEdits.ServerDefaultEditGain | crates/delta/src/routes/servers/permissions_set_default.rs:31-51 | after an accepted edit of the server default no member gains a permission the editor lacks |
| PermissionEdits.ChannelDefaultEditGain | crates/delta/src/routes/channels/permissions_set_default.rs:48-66 | who could view the channel gains only what the editor holds; somebody gains more if and only if the edit opens the view gate for them over a permission of their own that the editor lacks |
| PermissionEdits.GateRevealsHiddenPermission | crates/delta/src/routes/channels/permissions_set_default.rs:48-66 | a concrete accepted edit with such a gain |
| RoleOrdering.RoleRoutes.EditRoleRanks | crates/delta/src/routes/servers/roles_edit_positions.rs:23-71 | which error, or the server stored with each role ranked by its position in the request |
| EditLaws.ReorderAnswer | crates/delta/src/routes/servers/roles_edit_positions.rs:23-69 | the answer to an ordinary editor: ManageRole, then every role named, then every role that no held role outranks at its present place, each with its error |
| EditLaws.ReorderByOwner | crates/delta/src/routes/servers/roles_edit_positions.rs:44-69 | the owner may choose any order, a privileged user who is not the owner none but the present one |
| RoleOrdering.SetRoleOrdering | crates/core/database/src/models/servers/model.rs:267-274 | the loop ranks every role by its position and changes nothing else of it |
| RoleOrdering.AcceptedOrderIsPermutation | crates/delta/src/routes/servers/roles_edit_positions.rs:37-43 | length and containment alone make an accepted order list every role exactly once |
| RoleOrdering.OrderedRolesEnumerate | crates/core/database/src/models/servers/model.rs:235-239 | the ordered roles are all the roles, once each, by ascending rank |
| RoleOrdering.OrderIsReadBack | crates/core/database/src/models/servers/model.rs:235-239 | round trip: after the edit the ordered roles are the requested order, in any iteration order, and all ranks differ |
| RoleOrdering.LockedRolesStay | crates/delta/src/routes/servers/roles_edit_positions.rs:44-69 | for an editor with a rank the roles at or above it are a prefix of the old order, that prefix is unchanged and the others are permuted behind it |
| RoleOrdering.ReorderedRolesAreTieFree | crates/delta/src/routes/servers/roles_edit_positions.rs:29-69 | after an accepted edit permissions no longer depend on iteration order |
| ReorderGain.ReorderGainIff | crates/delta/src/routes/servers/roles_edit_positions.rs:23-71 | a member gains a permission by a reordering if and only if the role that decides it changes from a denying to a non-denying one and nothing withholds it |
| ReorderGain.ReorderGivesWhatEditorLacks | crates/delta/src/routes/servers/roles_edit_positions.rs:23-71 | a concrete accepted reordering that gives a member a permission the editor lacks |
| Subscriptions.OperationsKeepBatch | crates/bonfire/src/events/state.rs:165-208 | from a flushed state any sequence of inserts and removes is panic-free, and the log accounts for every change to the subscribed set |
| Subscriptions.FlushGap | crates/bonfire/src/events/state.rs:104-151 | what a flush leaves: the client is within the broker, and the broker's surplus is the old surplus the batch left alone plus the topics both added and removed in it |
| Subscriptions.FlushFromAgreement | crates/bonfire/src/websocket.rs:259-297 | from agreement the two sides differ afterwards exactly on the topics both added and removed, so they agree if and only if there are none |
| Subscriptions.SurplusIsLeftBehind | crates/bonfire/src/websocket.rs:259-297 | over every run the broker's surplus is exactly the topics that some batch both added and removed and no later batch touched |
| Subscriptions.FirstFlushSettles | crates/bonfire/src/websocket.rs:261-274 | a panic-free reset flush makes both sides equal |
| Subscriptions.EveryRunIsSafe | crates/bonfire/src/events/state.rs:99-208 | in every run after a panic-free first flush nothing panics, the state is never a reset again, and after every flush the client's topics are among the broker's |
| Subscriptions.TopicsDuringReset | crates/bonfire/src/events/state.rs:104-151 | while a reset is pending, which topics there are, and that the code panics exactly when a subscribed active-server entry expires |
| Subscriptions.PanicsExactlyOnEarlyExpiry | crates/bonfire/src/events/state.rs:188-208 | a whole run panics if and only if its first flush reports the expiry of a subscribed server entry |
| Subscriptions.EarlyExpiryPanics | crates/bonfire/src/events/state.rs:104-151 | that happens for any entry that becomes valid and expires before the first flush |
| Subscriptions.SingleNoticesNeverPanic | crates/bonfire/src/events/state.rs:104-151 | it does not if the first notices name each server at most once and Ready subscribed to none of their member topics |
| ClientState.State.From | crates/bonfire/src/events/state.rs:77-97 | a new connection is subscribed to the user and the private topic, with a reset pending and nothing else cached |
| ClientState.State.InsertSubscription | crates/bonfire/src/events/state.rs:165-185 | adds to the set at once and logs the change |
| ClientState.State.RemoveSubscription | crates/bonfire/src/events/state.rs:188-208 | removes from the set at once and logs the change; panics exactly on a subscribed topic while a reset is pending |
| ClientState.State.ApplyState | crates/bonfire/src/events/state.rs:104-151 | applies the active-server notices, which may panic, hands out the pending change and leaves no pending change |
| ClientState.State.SubscribeReady | crates/bonfire/src/events/impl.rs:286-304 | a reset is pending and the topics are the private topic, the users, the servers (with the member topic for bots) and the channels |
| ClientState.State.GenerateReady | crates/bonfire/src/events/impl.rs:97-304 | exact cache and topics of the Ready payload: channels filtered with the new servers, memberships of the user followed by those of voice participants, the last one per server counting |
| EventLaws.ReadyCacheLaw | crates/bonfire/src/events/impl.rs:127-270 | the payload caches the fetched servers and users, the user's own entry, and per server the last membership |
| EventLaws.ReadyChannelLaw | crates/bonfire/src/events/impl.rs:142-145 | it caches exactly the fetched channels that may be viewed with the new servers and the old memberships |
| EventLaws.ReadyTopicLaw | crates/bonfire/src/events/impl.rs:286-304 | its topics, one by one |
| ReadyState.ReadyInStepIff | crates/bonfire/src/events/impl.rs:127-222 | a fresh connection starts with the cached channels of a server viewable and subscribed, if and only if no voice participant's membership takes the place of the user's own and hides one of them |
| ReadyState.SameRolesStartInStep | crates/bonfire/src/events/impl.rs:192-222 | it does if every membership fetched for the server has the roles of the user's own |
| ReadyState.ParticipantHidesChannel | crates/bonfire/src/events/impl.rs:192-222 | a concrete payload after which a channel is cached and subscribed but not viewable |
| ClientState.State.CanViewChannel | crates/bonfire/src/events/impl.rs:20-45 | the per-user calculation grants ViewChannel, from cached server and membership; other channels are always viewable |
| ClientState.State.FilterAccessibleChannels | crates/bonfire/src/events/impl.rs:48-61 | exactly the viewable channels, in the given order |
| ClientState.State.RecalculateServer | crates/bonfire/src/events/impl.rs:334-400 | exact new cache and topics, no panic, and the original event last in a bulk of the deletes and creates, or alone if there are none |
| ClientState.RecalculationLaws | crates/bonfire/src/events/impl.rs:334-400 | cached channels of the server are viewable and subscribed; listed channels that are known or fetched and viewable are cached; removed ones are in neither set; the emitted deletes and creates take the old cached set to the new |
| EventLaws.RecalculationFrame | crates/bonfire/src/events/impl.rs:334-400 | which channels are announced as deleted or created, and that cache and topics of every other channel stay, channel by channel |
| EventLaws.AnnouncementLaw | crates/bonfire/src/events/impl.rs:391-398 | the client is sent the event alone, or behind one deletion per hidden and one creation per revealed channel, position by position |
| ClientState.State.OnChannelUpdate | crates/bonfire/src/events/impl.rs:466-501 | the event becomes a create or a delete exactly when the update makes the channel viewable or not |
| EventLaws.ChannelUpdateLaw | crates/bonfire/src/events/impl.rs:466-488 | a cached server channel has the given overrides, a cleared default unless one is given, and its other fields; an uncached one is fetched |
| EventLaws.SentLaw | crates/bonfire/src/events/impl.rs:489-501 | a channel that appears or disappears replaces its update, and user updates lose their id |
| ClientState.State.OnPermissionEvent | crates/bonfire/src/events/impl.rs:548-640 | new cache, with owner, channel list, roles and default of a server update and roles, timeout, mute and deafen of a member update, cleared fields first; and which server is queued for recalculation; field by field in EventLaws |
| EventLaws.MemberUpdateLaw | crates/bonfire/src/events/impl.rs:590-604 | roles, timeout, mute and deafen of the user's own cached membership are the given ones, else the cleared ones, else the old ones; nothing else changes |
| EventLaws.ServerUpdateLaw | crates/bonfire/src/events/impl.rs:548-562 | owner, channel list, roles and default of the cached server are the given ones, else the old ones; nothing else changes |
| EventLaws.RoleUpdateLaw | crates/bonfire/src/events/impl.rs:605-629 | rank and override of the cached role are the given ones, else the old ones; nothing else changes, and an unknown role is ignored |
| EventLaws.RoleDeleteLaw | crates/bonfire/src/events/impl.rs:630-640 | the role leaves the cached server; nothing else changes |
| EventLaws.QueueLaw | crates/bonfire/src/events/impl.rs:517-640 | exactly which events queue which server |
| ClientState.State.OnServerEvent | crates/bonfire/src/events/impl.rs:517-589 | joining and leaving: cache, topics and queue |
| EventLaws.JoinAndLeaveLaw | crates/bonfire/src/events/impl.rs:517-589 | joining caches the server, a plain membership and its channels, the last per id; leaving drops the server, the membership and the listed channels |
| EventLaws.SingleEntryLaw | crates/bonfire/src/events/impl.rs:461-515 | events about one channel or one user change that entry, and the others nothing |
| EventLaws.TopicLaw | crates/bonfire/src/events/impl.rs:433-695 | which topics are subscribed after each event, one by one |
| EventLaws.FollowLaw | crates/bonfire/src/events/impl.rs:64-91 | another user may be followed exactly if they are oneself, a friend, a request either way, or share a direct message or group |
| ClientState.State.OnUserUpdate | crates/bonfire/src/events/impl.rs:642-652 | suppressed exactly when the id is in the cache; otherwise the id is put there and stripped |
| ClientState.State.HandleIncomingEvent | crates/bonfire/src/events/impl.rs:433-695 | the whole effect of any event on cache, topics and the sent event, without a panic |
| Visibility.UnheldRolesDoNotMatter | crates/bonfire/src/events/impl.rs:605-640 | roles a member lacks have no influence on the member's channel permissions |
| Visibility.ViewDecided | crates/bonfire/src/events/impl.rs:20-45 | a channel is viewed exactly as privileged user, as owner, or by the cached, otherwise the stored membership |
| Visibility.RestrictedMemberSameView | crates/bonfire/src/events/impl.rs:590-604 | a member update of timeout, mute or deafen changes no visibility, so it needs no recalculation |
| Visibility.ServerUpdateView | crates/bonfire/src/events/impl.rs:548-562 | after a server update that leaves default and held roles alone visibility is unchanged if and only if the user is privileged, the cached server is not the one used, the ownership does not flip, or the membership shows the channel |
| Visibility.EventsKeepMemberships | crates/bonfire/src/events/impl.rs:517-640 | after any event every cached server still has its membership cached |
| Visibility.EntryView | crates/bonfire/src/events/impl.rs:653-661 | an entry stored under the user's own id leaves a view alone if and only if its privileged-or-owner verdict is that of the old one or the cached membership shows the channel; without a cached membership the stored ones count too |
| Visibility.LeavingView | crates/bonfire/src/events/impl.rs:566-589 | leaving a server leaves a view alone if and only if the stored server and membership decide as the cached ones did |
| Visibility.QueueIsComplete | crates/bonfire/src/events/impl.rs:433-695 | every event leaves the view of a text channel outside the queued server alone, if and only if it is not an ownership transfer, an entry under the user's own id or a departure that makes such a difference |
| Visibility.EventsKeepStep | crates/bonfire/src/events/impl.rs:433-695 | if all cached channels of a server are viewable and subscribed, they still are after any event has been handled, if and only if the server is queued, or what stays cached keeps view and subscription and what the event puts there is viewable; one direction only for another server than the one just joined |
| Visibility.TransferLeavesStep | crates/bonfire/src/events/impl.rs:548-562 | a concrete transfer after which a channel is cached and subscribed but no longer viewable |
| Visibility.RelationshipLeavesStep | crates/bonfire/src/events/impl.rs:653-661 | the same after a changed relationship, which stores the other user under the user's own id |
| Visibility.RelationshipRevealsChannel | crates/bonfire/src/events/impl.rs:653-661 | in a server of the other user's that event makes viewable what the user could not view |
| Visibility.DepartureLeavesStep | crates/bonfire/src/events/impl.rs:579-589 | a deleted server leaves a channel it does not list cached and subscribed but no longer viewable |
| Visibility.ChannelUpdateKeepsStep | crates/bonfire/src/events/impl.rs:466-501 | after a channel update topics and announcements follow visibility if they did before |
| CacheAgreement.EditIsFollowedIff | crates/core/database/src/models/servers/model.rs:185-390 | a cached server equal to the stored one is equal again after an edit and its event, if and only if the edit is not a new role, a reordering that moves a role or the deletion of a channel the server lists |
| CacheAgreement.CacheFollowsStore | crates/bonfire/src/events/impl.rs:502-640 | through every run of the other edits, up to the deletion of the server, the cached server equals the stored one |
| CacheAgreement.ThreeEditsAreMissed | crates/core/database/src/models/channels/ops/mongodb.rs:184-210 | a concrete swap of two roles, a concrete new role and a concrete deleted channel after which it does not |
| SeenEvents.CacheIsRecent | crates/bonfire/src/events/state.rs:44-59 | the id cache always holds exactly the twenty most recently forwarded ids |
| SeenEvents.ForwardedAreDistinct | crates/bonfire/src/events/impl.rs:642-652 | any twenty-one consecutive forwarded ids are pairwise distinct, over every stream |
| SeenEvents.ForwardedIffNotRecent | crates/bonfire/src/events/impl.rs:642-652 | an id is forwarded exactly when it is not among the twenty most recently forwarded |
| Listener.Forward | crates/bonfire/src/websocket.rs:261-297 | what a flushed change does to the broker: a reset replaces its topics, a change removes and then adds |
| Listener.Listen | crates/bonfire/src/websocket.rs:259-391 | the loop panics if and only if a subscribed entry expires in the first flush; otherwise, for every sequence of wake-ups, it is the run that flushes once per wake-up with the notices heeded then and performs each event's operations, the flushed topics are among the broker's, and one message is sent for each event that passes the duplicate filter |
| Listener.ConnectionPanicsIff | crates/bonfire/src/events/state.rs:104-135 | over every run, a connection panics if and only if its user is no bot and its first notices let a subscribed server entry expire |
| Listener.PassedIds | crates/bonfire/src/events/impl.rs:642-652 | the ids of the user updates that pass are those the duplicate filter forwards |
| OAuthStore.ValidateScopes | crates/delta/src/routes/oauth2/mod.rs:143-161 | accepts exactly the non-empty lists within the client's and the provider's scopes, unchanged |
| OAuthStore.TokenStore.Cleanup | crates/delta/src/routes/oauth2/mod.rs:109-123 | drops expired codes and access entries, then refresh tokens without an access entry |
| OAuthLaws.CleanupLaw | crates/delta/src/routes/oauth2/mod.rs:109-123 | what a cleanup keeps, entry by entry |
| OAuthStore.TokenStore.IssueTokens | crates/delta/src/routes/oauth2/mod.rs:176-212 | stores the pair of tokens and reports it |
| OAuthStore.TokenStore.IssueAuthorizationCode | crates/delta/src/routes/oauth2/mod.rs:214-293 | each refusal, or one code stored for the validated scopes |
| OAuthLaws.AuthorizeAnswer | crates/delta/src/routes/oauth2/mod.rs:214-265 | the answer to a login, each refusal in order |
| OAuthLaws.AuthorizedLaw | crates/delta/src/routes/oauth2/mod.rs:267-280 | an accepted login stores one code with client, user, session, address, scopes and ten minutes; a refused one nothing |
| OAuthStore.TokenStore.Token | crates/delta/src/routes/oauth2/mod.rs:329-410 | each refusal and its effect on the maps, or the issued tokens, for both grants; CodeSucceedsIff and RefreshSucceedsIff say exactly when it succeeds |
| OAuthLaws.CodeSucceedsIff | crates/delta/src/routes/oauth2/mod.rs:336-369 | a code is exchanged if and only if it is stored and unexpired, belongs to the client, was issued for the given address, and the registered client proves itself by its secret, or by having none where that is allowed |
| OAuthLaws.RefreshSucceedsIff | crates/delta/src/routes/oauth2/mod.rs:370-407 | a refresh token is redeemed if and only if it leads to an unexpired entry that names it and belongs to the named client, who proves itself |
| OAuthLaws.CodeLaw | crates/delta/src/routes/oauth2/mod.rs:336-369 | a presented code is gone, exchanged or not; an exchanged one leaves the session's token as access token, with a new refresh token and the code's client, user and scopes |
| OAuthLaws.RefreshLaw | crates/delta/src/routes/oauth2/mod.rs:370-407 | a redeemed token and its access token are replaced by a new pair for the same client, user and scopes |
| OAuthLaws.RefusedRefreshLaw | crates/delta/src/routes/oauth2/mod.rs:376-402 | what a refused redemption drops |
| OAuthStore.TokenStore.Revoke | crates/delta/src/routes/oauth2/mod.rs:414-447 | which entries go, whether an access or a refresh token is presented, and each refusal |
| OAuthLaws.RevokeLaw | crates/delta/src/routes/oauth2/mod.rs:414-447 | to whom a revocation is refused, and exactly which entries are gone afterwards |
| OAuthStore.TokenStore.Me | crates/delta/src/routes/oauth2/mod.rs:451-469 | the entry of an unexpired access token, else InvalidCredentials |
| OAuthStore.CleanedKeepsPaired | crates/delta/src/routes/oauth2/mod.rs:109-123 | cleanup keeps the pairing, and afterwards every refresh token points to a present access token |
| OAuthStore.CleanupSparesLive | crates/delta/src/routes/oauth2/mod.rs:109-123 | an access entry survives a cleanup if and only if it or its refresh token has not expired, and the refresh token goes or stays with it |
| OAuthStore.LiveTokenRefreshes | crates/delta/src/routes/oauth2/mod.rs:370-407 | in a paired store every unexpired refresh token presented by its authenticated client is redeemed for its user and scopes |
| OAuthStore.AlwaysPaired | crates/delta/src/routes/oauth2/mod.rs:329-447 | in every reachable store each access token's refresh token maps back to it, so no two share one |
| OAuthStore.IssuedTokenRefreshes | crates/delta/src/routes/oauth2/mod.rs:370-407 | round trip: an issued refresh token presented in time by its authenticated client is redeemed for the same user and scopes |
| OAuthInterleaving.SingleUse | crates/delta/src/routes/oauth2/mod.rs:336-407 | over every interleaving of map operations each code is taken and each refresh token redeemed at most once, whatever access tokens are reused (sections 4.1.2 and 6 of RFC 6749) |
| OAuthInterleaving.ChainKeepsPermit | crates/delta/src/routes/oauth2/mod.rs:240-405 | along every chain of refreshes client, user and scopes are those of the authorization, within the scopes it was checked against (sections 3.3 and 6 of RFC 6749) |
| OAuthRefinement.TokenRefinesSteps | crates/delta/src/routes/oauth2/mod.rs:329-410 | the token handler run alone is a run of the interleaved steps with the same effect; it takes the code it presents and redeems its refresh token exactly on success |
| OAuthRefinement.RevokeRefinesSteps | crates/delta/src/routes/oauth2/mod.rs:414-447 | the revocation handler is a run of dropping steps with the same effect |
| OAuthRefinement.AuthorizeRefinesSteps | crates/delta/src/routes/oauth2/mod.rs:214-293 | an accepted login is one authorization, for scopes the client and the provider allow |
| AckWorker.AccountsAlways | crates/core/database/src/tasks/ack.rs:211-308 | in every run of one worker a key has a task exactly if something arrived since its last commit and a committed acknowledgement is the latest popped for its key; in every run of single-message events, per key the handled batches followed by the waiting one are the arrivals in order and no batch is empty |
| AckWorker.ScanMeetsDeadlines | crates/core/database/src/tasks/mod.rs:40-67 | after a due scan nothing waits whose first arrival is 31 seconds old or that was quiet for 6 seconds |
| AckWorker.MergeDropsAllButLast | crates/core/database/src/tasks/ack.rs:259-290 | a merge keeps every message of an event if and only if it has at most one |
| AckLaws.KeyLaw | crates/core/database/src/tasks/ack.rs:249-256 | events share a task exactly if user, channel and kind are the same |
| AckLaws.DueLaw | crates/core/database/src/tasks/mod.rs:62-67 | a task is due exactly if it is flagged, its first event is 31 seconds old, or its last 6 seconds |
| AckLaws.LaterMessageLaw | crates/core/database/src/tasks/ack.rs:257-290 | a later message joins the batch; a mass mention flags the task, another puts it off while the batch counted in sixteen bits is below the limit |
| AckLaws.LaterAckLaw | crates/core/database/src/tasks/ack.rs:291-296 | a later acknowledgement replaces the waiting one and puts it off |
| AckLaws.FirstEventLaw | crates/core/database/src/tasks/ack.rs:298-300 | the first event of a key becomes its task |
| AckLaws.MassMentionRunsNext | crates/core/database/src/tasks/ack.rs:265-272 | a batch joined by a mass mention is due whatever the clock says |
| AckWorker.MentionsConserved | crates/core/database/src/tasks/ack.rs:116-148 | a user's recorded mentions followed by those waiting are the mentions that arrived, in order, if and only if no failed call of the handler loses some |
| AckWorker.LossIsOutside | crates/core/database/src/tasks/ack.rs:131-148 | over every run mentions are lost only if some call meets a mentioned user who cannot be written, and the mentions of a user who cannot be written are lost |
| AckWorker.MentionIsLost | crates/core/database/src/tasks/ack.rs:131-148 | a concrete run that loses a mention |
| AckWorker.HandleAckEvent | crates/core/database/src/tasks/ack.rs:84-206 | whose mentions are written, up to the first that cannot be, each with exactly the ids mentioning them in order; which messages are pushed and which as mass mentions; and whether the call is done, fails or panics; PushesAreSelected and MassIsSelected say position by position what goes out |
| AckLaws.PushesAreSelected | crates/core/database/src/tasks/ack.rs:152-180 | the pushes are the subsequence of the batch at exactly the positions where the message is not silenced, has a push, and has a recipient or is a mass mention |
| AckLaws.MassIsSelected | crates/core/database/src/tasks/ack.rs:178-180 | the mass mentions are the subsequence of the pushes that are mass mentions |
| AckLaws.MentionsLaw | crates/core/database/src/tasks/ack.rs:131-142 | the ids recorded for a user are those of the messages they are a recipient of, in order |
| AckLaws.PanicLaw | crates/core/database/src/tasks/ack.rs:84-206 | when the handler panics, in terms of the event and what it meets outside |
| AckWorker.BatchesPanicOnlyOnMass | crates/core/database/src/tasks/ack.rs:170-201 | in a run of single-message events only mass mentions outside a server channel make the handler panic on a batch |
| AckWorker.Worker.FindDue | crates/core/database/src/tasks/ack.rs:216-220 | exactly the due keys, each once |
| AckWorker.Worker.CommitDue | crates/core/database/src/tasks/ack.rs:223-236 | every key is committed once, failures included, up to the first key whose handler panics, which ends the worker |
| AckWorker.Worker.Take | crates/core/database/src/tasks/ack.rs:242-302 | merge, replacement or new task, with the immediate run of mass mentions and the delay cap |
| AckWorker.Worker.Round | crates/core/database/src/tasks/ack.rs:214-307 | one round survives if and only if no due task makes the handler panic, and is then a due scan followed by one arrival per popped event, continuing any run |
| MessageParser.MessageParserIterator.Next | crates/core/parser/src/lib.rs:47-75 | yields the first pending token and leaves the others pending; none exactly when nothing is pending |
| MessageParser.BlockHidesBody | crates/core/parser/src/lib.rs:57-70 | a closed code block shows its two markers and nothing between, whatever it is |
| MessageParser.UnclosedReleasesRaw | crates/core/parser/src/lib.rs:57-70 | an unclosed marker releases everything after it as lexed |
| MessageParser.EscapeHidesNext | crates/core/parser/src/lib.rs:53-56 | an escape takes the next token with it |
| MessageParser.OrdinaryPassesThrough | crates/core/parser/src/lib.rs:71-73 | other tokens pass unchanged |
| MessageParser.ParseMessage | crates/core/parser/src/lib.rs:85-110 | draining terminates, and the results are exactly the mentions in the expanded tokens |
| RateLimiter.RatelimitStorage.From | crates/core/ratelimits/src/ratelimiter.rs:102-137 | verdict, reported counts and new bucket of one request, for any readings of the clock; no verdict where the count underflows |
| RateLimiter.VerdictLaw | crates/core/ratelimits/src/ratelimiter.rs:102-137 | in every sequential run a request is admitted if and only if the current window has admitted fewer than the limit; what it is told is left and how long, and when its window ends |
| RateLimiter.NeverUnderflows | crates/core/ratelimits/src/ratelimiter.rs:75-81 | in every sequential run with one limit per key a bucket's count stays between one and the limit, so the subtraction never underflows |
| RateLimiter.WindowAdmitsAtMostLimit | crates/core/ratelimits/src/ratelimiter.rs:58-67 | each window admits at most the limit |
| RateLimiter.SpanAdmitsAtMostTwice | crates/core/ratelimits/src/ratelimiter.rs:49-137 | any ten seconds admit at most twice the limit |
| RateLimiter.SpanAdmitsFewerThanTwice | crates/core/ratelimits/src/ratelimiter.rs:49-137 | one less than twice, unless the span starts in a first window that had opened before its first admission |
| RateLimiter.TwiceIsReached | crates/core/ratelimits/src/ratelimiter.rs:51-56 | in that case, for every positive limit, twice the limit is reached |
| RateLimiter.RetryIsAdmitted | crates/core/ratelimits/src/ratelimiter.rs:83-129 | a refused caller who waits longer than the reported reset is admitted, if nobody used the bucket in between and the limit is positive |
| Presence.SessionId | crates/core/presence/src/lib.rs:36-39 | the last bit of a session id is the flag, the others are the random word's |
| Presence.Store.CreateSession | crates/core/presence/src/lib.rs:28-52 | new state, and whether this was the first session; nothing without a connection |
| Presence.Store.DeleteSessionInternal | crates/core/presence/src/lib.rs:60-85 | new state, with or without the region, and whether no session is left |
| Presence.Store.IsOnline | crates/core/presence/src/lib.rs:88-94 | whether the user has a stored session set |
| Presence.Store.FilterOnlinePatched | crates/core/presence/src/lib.rs:98-141 | exactly the listed users for whom the online check is true |
| Presence.Store.FilterOnline | crates/core/presence/src/lib.rs:145-161 | the same, by intersection with the online set |
| Presence.Store.ClearRegion | crates/core/presence/src/lib.rs:164-191 | ends every session of the region in some order and forgets the region |
| Presence.ClearLaw | crates/core/presence/src/lib.rs:164-191 | exactly that region's sessions are gone, and the other regions are as they were |
| Presence.OnlineAlways | crates/core/presence/src/lib.rs:28-191 | in every run a user is in the online set exactly while one of their sessions lives |
| Presence.FlagsAlternate | crates/core/presence/src/lib.rs:28-85 | between region clears a user's first and last flags alternate, starting and ending with whether the user is online |

## Left out

- PermissionQueries.DatabasePermissionQuery.SetRecipientAsUser: requires a recipient other than the user, because the code panics without one.
- PermissionEdits.Routes.SetDefaultChannelPermissions: requires the same of a direct message, whose kind is refused afterwards.
- BulkPermissions.BulkDatabasePermissionQuery.CalculateMembersPermissions: requires a server channel and at least one of the two lists, because the code panics otherwise; a failed fetch, where it panics too, is not modelled.
- AckWorker.HandleAckEvent: an empty batch is taken to panic, which it does while informational logging is on; errors of the message broker, which the code only records, and the unread bookkeeping of an acknowledgement are not modelled.
- AckWorker.MentionsConserved: for single-message events, as both producers send; MergeDropsAllButLast shows what happens otherwise.
- RateLimiter.RatelimitStorage.From: keys are taken as given, so the hash of identifier, bucket and resource is not modelled; an underflow gives no verdict instead of wrapping around at 32 bits, and NeverUnderflows shows that none occurs with one limit per key.
- Visibility.QueueIsComplete: for members without role ties; a role table inside a server update, which no route publishes, has to agree on the roles the member holds.
- Visibility.EventsKeepStep: under the same conditions, and not the converse for another server than the one just joined, since the recalculation may put in order what the join broke.
- ReadyState.ReadyInStepIff: for a connection whose membership cache is still empty, as it is when the payload is built.
- CacheAgreement.EditIsFollowedIff: about the server entry only, not the memberships and channels that a role deletion also edits; the in-memory database, which leaves a deleted channel listed, is not modelled.
- EditLaws.RoleEditAnswer: for ranks that fit a signed 64-bit integer, as the stored type has them; ReorderAnswer and the laws for owners likewise.
- Signed and unsigned 64-bit views of overrides: both are the same bit pattern here.
- A member's timeout is compared with the clock once per calculation, while the code may read the clock twice.
- The events' fields other than owner, channel list, roles and default of a server, roles, timeout, mute and deafen of a member, rank and override of a role, and the overrides of a channel: visibility and subscriptions do not depend on them. A server update that changes the id is not modelled, since none is published.
- Broker errors and logout, which end the listener loop.
- Voice synchronisation after permission edits.
- The edit of one role's override in a channel: it is compared with the role's server-wide override, so no gain statement like the others applies.
- Scope string splitting, redirect validation and URL building in the OAuth2 routes, and overflow of expiry sums.
- Interleavings inside one rate-limiter request or one presence operation.
- Presence entries are pairs instead of strings joined by a colon; user ids contain none.
- The lexer's regular expressions, serialisation and the internals of the caches: token streams and expiry notices are inputs.
- The queue's capacity and several ack workers sharing it.
- The request-coalescing service, voice rooms, HTTP routing, configuration, mail, files, encryption, media probing, embeds and push rendering: input and output around this core.
- Plain records and error tables: only easy facts.
