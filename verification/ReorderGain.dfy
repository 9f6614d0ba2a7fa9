/** What members gain from an accepted reordering of roles, which is not checked against the editor's permissions. */
module ReorderGain {
  import opened Bits
  import opened Collections
  import opened Permissions
  import opened RoleOverrides
  import opened Entities
  import opened PermissionQueries
  import opened PermissionEdits
  import opened RoleOrdering
  import opened Wrappers

  /** With an iteration order at hand, some role decides a flag if some role mentions it. */
  lemma SomebodyDecides(grants: Grants, order: seq<RoleId>, m: bv64)
    requires Lists(order, grants)
    ensures (exists id :: Decides(grants, id, m)) <==>
            exists id :: grants(id).Some? && Mentions(grants(id).value.override, m)
  {
    WinnerDecides(grants, order, m);
    if id :| Decides(grants, id, m) {
      assert grants(id).Some? && Mentions(grants(id).value.override, m);
    }
  }

  /** The smallest-rank role mentioning a flag denies it before and does not afterwards. */
  ghost predicate DeciderTurns(g: Grants, g': Grants, m: bv64) {
    exists d, d' :: Decides(g, d, m) && Decides(g', d', m) && Denies(g, d, m) && !Denies(g', d', m)
  }

  /** The same roles with the same overrides, at other ranks. */
  ghost predicate Reranked(g: Grants, g': Grants) {
    forall id :: (g(id).Some? <==> g'(id).Some?) && (g(id).Some? ==> g(id).value.override == g'(id).value.override)
  }

  lemma RerankedGainIff(p: iset<bv64>, g: Grants, g': Grants, order: seq<RoleId>, order': seq<RoleId>, m: bv64)
    requires Reranked(g, g') && TieFree(g) && TieFree(g')
    requires Lists(order, g) && Lists(order', g')
    ensures m in Folded(p, Ordered(g', order')) && m !in Folded(p, Ordered(g, order)) <==> DeciderTurns(g, g', m)
  {
    PriorityLaw(p, g, order, m);
    PriorityLaw(p, g', order', m);
    SomebodyDecides(g, order, m);
    SomebodyDecides(g', order', m);
    if d :| Decides(g, d, m) {
      assert g'(d).Some? && Mentions(g'(d).value.override, m);
      var d' :| Decides(g', d', m);
      assert m in Folded(p, Ordered(g', order')) <==> !Denies(g', d', m);
      assert m in Folded(p, Ordered(g, order)) <==> !Denies(g, d, m);
    } else {
      assert forall id :: g(id).Some? ==> !Mentions(g(id).value.override, m);
      assert forall id :: g'(id).Some? ==> !Mentions(g'(id).value.override, m);
    }
  }

  /**
    After an accepted reordering a member has a server permission that the
    member lacked before, if and only if the role that decides it changes from a
    denying to a non-denying one and no mute, deafen or timeout withholds it.
   */
  lemma ReorderGainIff(server: Server, roles: map<RoleId, Role>, order: seq<RoleId>, member: Member, h: HashOrder, k: HashOrder,
                       m: bv64)
    requires NamesEveryRole(server.roles, order) && RankedByPosition(server.roles, roles, order)
    requires IsHashOrder(h) && IsHashOrder(k)
    requires TieFree(ServerGrants(server, member))
    ensures var server' := server.(roles := roles);
            m in MemberServerFlags(server', member, k) && m !in MemberServerFlags(server, member, h) <==>
            DeciderTurns(ServerGrants(server, member), ServerGrants(server', member), m) && !Withheld(member, m)
  {
    var server' := server.(roles := roles);
    var g, g' := ServerGrants(server, member), ServerGrants(server', member);
    ReorderedRolesAreTieFree(server, roles, order, h, member, map[]);
    assert Lists(h(server.roles.Keys), g);
    assert Lists(k(roles.Keys), g');
    RerankedGainIff(Flags(server.defaultPermissions), g, g', h(server.roles.Keys), k(roles.Keys), m);
    LimitedIsWithheld(Folded(Flags(server.defaultPermissions), Ordered(g, h(server.roles.Keys))), member, m);
    LimitedIsWithheld(Folded(Flags(server.defaultPermissions), Ordered(g', k(roles.Keys))), member, m);
  }

  lemma LimitedIsWithheld(p: iset<bv64>, member: Member, m: bv64)
    ensures m in Limited(p, member) <==> m in p && !Withheld(member, m)
  {}

  // ---- An accepted reordering that gives a member what the editor lacks

  const EDITOR_ROLE := Role(Override(MANAGE_ROLE, 0), 0)
  const DENYING := Role(Override(0, MANAGE_MESSAGES), 1)
  const ALLOWING := Role(Override(MANAGE_MESSAGES, 0), 2)
  const ROLES := map["e" := EDITOR_ROLE, "a" := DENYING, "b" := ALLOWING]
  const SERVER := Server("s", "owner", [], ROLES, 0)
  const EDITOR := Member(["e"], false, true, true)
  const MEMBER := Member(["a", "b"], false, true, true)
  const EDITING := User("editor", false, None, [])
  const DATABASE := Database(map[], map["s" := SERVER], map[("s", "editor") := EDITOR], map[], {})
  const OLD_ORDER := ["e", "a", "b"]
  const NEW_ORDER := ["e", "b", "a"]
  const REORDERED := map["e" := EDITOR_ROLE, "a" := DENYING.(rank := 2), "b" := ALLOWING.(rank := 1)]

  lemma OrdersNameRoles()
    ensures NamesEveryRole(ROLES, OLD_ORDER) && NamesEveryRole(ROLES, NEW_ORDER)
    ensures RankedByPosition(ROLES, ROLES, OLD_ORDER) && RankedByPosition(ROLES, REORDERED, NEW_ORDER)
  {
    assert |ROLES| == 3;
    assert OLD_ORDER[0] == "e" && OLD_ORDER[1] == "a" && OLD_ORDER[2] == "b";
    assert NEW_ORDER[0] == "e" && NEW_ORDER[1] == "b" && NEW_ORDER[2] == "a";
  }

  lemma RoleFlags()
    ensures Flags(MANAGE_ROLE) == iset{MANAGE_ROLE} && Flags(MANAGE_MESSAGES) == iset{MANAGE_MESSAGES} && Flags(0) == iset{}
    ensures MANAGE_ROLE != MANAGE_MESSAGES
  {
    FlagsOfFlag(MANAGE_ROLE);
    FlagsOfFlag(MANAGE_MESSAGES);
    FlagsOfZero();
  }

  lemma EditorFlags(h: HashOrder)
    requires IsHashOrder(h)
    ensures ServerFlags(ServerQuery(DATABASE, EDITING, SERVER), h) == MemberServerFlags(SERVER, EDITOR, h)
    ensures MANAGE_ROLE in MemberServerFlags(SERVER, EDITOR, h)
    ensures MANAGE_MESSAGES !in MemberServerFlags(SERVER, EDITOR, h)
  {
    RoleFlags();
    var g, order := ServerGrants(SERVER, EDITOR), h(ROLES.Keys);
    DistinctRanksSuffice(SERVER, EDITOR, map[]);
    assert Lists(order, g);
    assert g("e") == Some(Ranked(0, EDITOR_ROLE.permissions));
    assert forall id :: g(id).Some? ==> id == "e";
    assert Decides(g, "e", MANAGE_ROLE) && !Denies(g, "e", MANAGE_ROLE);
    PriorityLaw(Flags(0), g, order, MANAGE_ROLE);
    PriorityLaw(Flags(0), g, order, MANAGE_MESSAGES);
  }

  lemma OldOrderIsRead(h: HashOrder)
    requires IsHashOrder(h)
    ensures OrderedRoles(ROLES, h) == OLD_ORDER
  {
    OrdersNameRoles();
    OrderIsReadBack(ROLES, ROLES, OLD_ORDER, h);
  }

  lemma EditorRanksFirst()
    ensures EditorRank(DATABASE, EDITING, SERVER) == Some(0)
  {
    assert ["e"][..0] == [];
    assert Ranking(["e"][..0], SERVER) == I64_MAX;
    assert Ranking(["e"], SERVER) == 0;
  }

  lemma EditorKeepsOwnRole()
    ensures KeepsLocked(ROLES, Some(0), OLD_ORDER, NEW_ORDER)
  {
    assert OLD_ORDER[0] == "e" && NEW_ORDER[0] == "e";
    PositionOfElement(OLD_ORDER, 0);
    PositionOfElement(NEW_ORDER, 0);
  }

  lemma AcceptedWhen(database: Database, user: User, server: Server, order: seq<RoleId>, h: HashOrder)
    requires Lookup(database.servers, server.id) == Some(server)
    requires MANAGE_ROLE in ServerFlags(ServerQuery(database, user, server), h)
    requires NamesEveryRole(server.roles, order)
    requires KeepsLocked(server.roles, EditorRank(database, user, server), OrderedRoles(server.roles, h), order)
    ensures ReorderRefusal(database, user, server.id, order, h).None?
  {
    RoleFlags();
  }

  lemma RequestIsAccepted(h: HashOrder)
    requires IsHashOrder(h)
    ensures ReorderRefusal(DATABASE, EDITING, "s", NEW_ORDER, h).None?
  {
    assert MANAGE_ROLE in ServerFlags(ServerQuery(DATABASE, EDITING, SERVER), h) by { EditorFlags(h); }
    assert NamesEveryRole(SERVER.roles, NEW_ORDER) by { OrdersNameRoles(); }
    assert KeepsLocked(SERVER.roles, EditorRank(DATABASE, EDITING, SERVER), OrderedRoles(SERVER.roles, h), NEW_ORDER) by {
      OldOrderIsRead(h);
      EditorRanksFirst();
      EditorKeepsOwnRole();
    }
    AcceptedWhen(DATABASE, EDITING, SERVER, NEW_ORDER, h);
  }

  lemma DenierDecides()
    ensures Decides(ServerGrants(SERVER, MEMBER), "a", MANAGE_MESSAGES)
    ensures Denies(ServerGrants(SERVER, MEMBER), "a", MANAGE_MESSAGES)
  {
    RoleFlags();
    assert MEMBER.roles[0] == "a" && MEMBER.roles[1] == "b";
  }

  lemma AllowerDecides()
    ensures Decides(ServerGrants(SERVER.(roles := REORDERED), MEMBER), "b", MANAGE_MESSAGES)
    ensures !Denies(ServerGrants(SERVER.(roles := REORDERED), MEMBER), "b", MANAGE_MESSAGES)
  {
    RoleFlags();
    assert MEMBER.roles[0] == "a" && MEMBER.roles[1] == "b";
  }

  lemma MemberDeciders()
    ensures TieFree(ServerGrants(SERVER, MEMBER))
    ensures DeciderTurns(ServerGrants(SERVER, MEMBER), ServerGrants(SERVER.(roles := REORDERED), MEMBER), MANAGE_MESSAGES)
  {
    DistinctRanksSuffice(SERVER, MEMBER, map[]);
    DenierDecides();
    AllowerDecides();
  }

  /** The request is accepted, the member gains a permission, and the editor does not hold it. */
  lemma ReorderGivesWhatEditorLacks(h: HashOrder, k: HashOrder)
    requires IsHashOrder(h) && IsHashOrder(k)
    ensures ReorderRefusal(DATABASE, EDITING, "s", NEW_ORDER, h).None?
    ensures RankedByPosition(ROLES, REORDERED, NEW_ORDER)
    ensures MANAGE_MESSAGES !in MemberServerFlags(SERVER, MEMBER, h)
    ensures MANAGE_MESSAGES in MemberServerFlags(SERVER.(roles := REORDERED), MEMBER, k)
    ensures MANAGE_MESSAGES !in ServerFlags(ServerQuery(DATABASE, EDITING, SERVER), h)
  {
    RequestIsAccepted(h);
    OrdersNameRoles();
    EditorFlags(h);
    MemberDeciders();
    ReorderGainIff(SERVER, REORDERED, NEW_ORDER, MEMBER, h, k, MANAGE_MESSAGES);
    assert !Withheld(MEMBER, MANAGE_MESSAGES);
  }
}
