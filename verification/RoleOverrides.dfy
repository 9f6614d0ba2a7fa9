/**
  How a member's role overrides combine.  Roles live in a hash map, whose
  iteration order is unspecified: it is the parameter `order` below.
 */
module RoleOverrides {
  import opened Bits
  import opened Collections
  import opened Permissions
  import opened StableSort
  import opened Wrappers

  type RoleId = string

  /** A role's override together with the role's rank; smaller ranks take priority. */
  datatype Ranked = Ranked(rank: int, override: Override)

  /** The entry each role has, if any. */
  type Grants = RoleId -> Option<Ranked>

  /** Sorting by descending rank, as a key for the ascending sort. */
  const DESCENDING: Ranked -> int := (r: Ranked) => -r.rank

  /** `order` is an iteration order of a map with the keys `keys`. */
  ghost predicate Enumerates(order: seq<RoleId>, keys: set<RoleId>) {
    && NoDuplicates(order)
    && (forall id :: id in order <==> id in keys)
  }

  /** The entries of `grants` in the order in which an iteration meets them. */
  function Listed(grants: Grants, order: seq<RoleId>): seq<Ranked> {
    if order == [] then []
    else
      var id := order[|order| - 1];
      Listed(grants, order[..|order| - 1]) + (if grants(id).Some? then [grants(id).value] else [])
  }

  function OverridesOf(s: seq<Ranked>): seq<Override> {
    seq(|s|, i requires 0 <= i < |s| => s[i].override)
  }

  /** Role overrides in the order of application: lowest priority first. */
  function Ordered(grants: Grants, order: seq<RoleId>): seq<Override> {
    OverridesOf(Sorted(Listed(grants, order), DESCENDING))
  }

  // ---- Which entry decides a flag

  ghost predicate Mentions(o: Override, m: bv64) {
    m in Flags(o.allow) || m in Flags(o.deny)
  }

  /** The later of the entries of least rank that mention `m`. */
  ghost function Winner(s: seq<Ranked>, m: bv64): Option<Ranked> {
    if s == [] then None else Challenged(Winner(s[..|s| - 1], m), s[|s| - 1], m)
  }

  ghost function Challenged(w: Option<Ranked>, x: Ranked, m: bv64): Option<Ranked> {
    if Mentions(x.override, m) && (w.None? || x.rank <= w.value.rank) then Some(x) else w
  }

  lemma {:induction false} WinnerIsMember(s: seq<Ranked>, m: bv64)
    ensures Winner(s, m).Some? ==>
              && Winner(s, m).value in s
              && Mentions(Winner(s, m).value.override, m)
    ensures forall x :: x in s && Mentions(x.override, m) ==>
              Winner(s, m).Some? && Winner(s, m).value.rank <= x.rank
  {
    if s != [] {
      WinnerIsMember(s[..|s| - 1], m);
      assert s == s[..|s| - 1] + [s[|s| - 1]];
    }
  }

  lemma {:induction false} WinnerAfterInsertion(s: seq<Ranked>, x: Ranked, m: bv64)
    requires SortedBy(s, DESCENDING)
    ensures Winner(Inserted(s, x, DESCENDING), m) == Challenged(Winner(s, m), x, m)
  {
    if s == [] || s[|s| - 1].rank >= x.rank {
      assert (s + [x])[..|s|] == s;
    } else {
      var front, y := s[..|s| - 1], s[|s| - 1];
      WinnerAfterInsertion(front, x, m);
      WinnerIsMember(front, m);
      var t := Inserted(front, x, DESCENDING);
      assert (t + [y])[..|t|] == t;
    }
  }

  /** Sorting does not change which entry decides. */
  lemma {:induction false} WinnerOfSorted(s: seq<Ranked>, m: bv64)
    ensures Winner(Sorted(s, DESCENDING), m) == Winner(s, m)
  {
    if s != [] {
      WinnerOfSorted(s[..|s| - 1], m);
      SortedIsSorted(s[..|s| - 1], DESCENDING);
      WinnerAfterInsertion(Sorted(s[..|s| - 1], DESCENDING), s[|s| - 1], m);
    }
  }

  /** In a sorted list the fold follows the winner, and `p` where nothing mentions the flag. */
  lemma {:induction false} FoldFollowsWinner(p: iset<bv64>, s: seq<Ranked>, m: bv64)
    requires SortedBy(s, DESCENDING)
    ensures m in Folded(p, OverridesOf(s)) <==>
            match Winner(s, m)
            case None => m in p
            case Some(w) => m !in Flags(w.override.deny)
  {
    if s != [] {
      var front := s[..|s| - 1];
      FoldFollowsWinner(p, front, m);
      WinnerIsMember(front, m);
      assert OverridesOf(s)[..|s| - 1] == OverridesOf(front);
    }
  }

  lemma OrderedFollowsWinner(p: iset<bv64>, grants: Grants, order: seq<RoleId>, m: bv64)
    ensures m in Folded(p, Ordered(grants, order)) <==>
            match Winner(Listed(grants, order), m)
            case None => m in p
            case Some(w) => m !in Flags(w.override.deny)
  {
    var s := Listed(grants, order);
    SortedIsSorted(s, DESCENDING);
    WinnerOfSorted(s, m);
    FoldFollowsWinner(p, Sorted(s, DESCENDING), m);
  }

  // ---- The law of priorities, and when iteration order matters

  /** Only the roles `keys` have entries. */
  ghost predicate Within(grants: Grants, keys: set<RoleId>) {
    forall id :: grants(id).Some? ==> id in keys
  }

  /** `order` meets every entry of `grants`, and nothing twice. */
  ghost predicate Lists(order: seq<RoleId>, grants: Grants) {
    && NoDuplicates(order)
    && (forall id :: grants(id).Some? ==> id in order)
  }

  /** Role `id` mentions flag `m` and no role mentioning it has a smaller rank. */
  ghost predicate Decides(grants: Grants, id: RoleId, m: bv64) {
    && grants(id).Some?
    && Mentions(grants(id).value.override, m)
    && (forall other :: grants(other).Some? && Mentions(grants(other).value.override, m) ==>
          grants(id).value.rank <= grants(other).value.rank)
  }

  ghost predicate Denies(grants: Grants, id: RoleId, m: bv64)
    requires grants(id).Some?
  {
    m in Flags(grants(id).value.override.deny)
  }

  /** Roles of equal rank that decide the same flag decide it alike. */
  ghost predicate TieFree(grants: Grants) {
    forall a, b, m :: Decides(grants, a, m) && Decides(grants, b, m) ==>
      (Denies(grants, a, m) <==> Denies(grants, b, m))
  }

  ghost predicate DistinctRanks(grants: Grants) {
    forall a, b :: grants(a).Some? && grants(b).Some? && a != b ==> grants(a).value.rank != grants(b).value.rank
  }

  ghost predicate OrderIrrelevant(grants: Grants) {
    forall p, o1, o2 :: Lists(o1, grants) && Lists(o2, grants) ==>
      Folded(p, Ordered(grants, o1)) == Folded(p, Ordered(grants, o2))
  }

  lemma DistinctRanksAreTieFree(grants: Grants)
    requires DistinctRanks(grants)
    ensures TieFree(grants)
  {}

  lemma {:induction false} ListedEntries(grants: Grants, order: seq<RoleId>)
    ensures forall id :: id in order && grants(id).Some? ==> grants(id).value in Listed(grants, order)
    ensures forall x :: x in Listed(grants, order) ==>
              exists id :: grants(id).Some? && grants(id).value == x
  {
    if order != [] {
      ListedEntries(grants, order[..|order| - 1]);
      assert order == order[..|order| - 1] + [order[|order| - 1]];
    }
  }

  /** The winner of a listing is a deciding role, and there is one if any role mentions the flag. */
  lemma WinnerDecides(grants: Grants, order: seq<RoleId>, m: bv64)
    requires Lists(order, grants)
    ensures match Winner(Listed(grants, order), m)
            case None => forall id :: grants(id).Some? ==> !Mentions(grants(id).value.override, m)
            case Some(w) => exists id :: Decides(grants, id, m) && grants(id).value == w
  {
    ListedEntries(grants, order);
    WinnerIsMember(Listed(grants, order), m);
    match Winner(Listed(grants, order), m)
    case None =>
    case Some(w) =>
      var id :| grants(id).Some? && grants(id).value == w;
      assert Decides(grants, id, m);
  }

  /**
    The law of priorities: a flag is settled by the role of smallest rank that
    mentions it, deny beating allow inside one override; a flag no role
    mentions stays as it was.
   */
  lemma PriorityLaw(p: iset<bv64>, grants: Grants, order: seq<RoleId>, m: bv64)
    requires Lists(order, grants) && TieFree(grants)
    ensures forall id :: Decides(grants, id, m) ==>
              (m in Folded(p, Ordered(grants, order)) <==> !Denies(grants, id, m))
    ensures (forall id :: grants(id).Some? ==> !Mentions(grants(id).value.override, m)) ==>
              (m in Folded(p, Ordered(grants, order)) <==> m in p)
  {
    OrderedFollowsWinner(p, grants, order, m);
    WinnerDecides(grants, order, m);
  }

  lemma TieFreeIsOrderIrrelevant(grants: Grants)
    requires TieFree(grants)
    ensures OrderIrrelevant(grants)
  {
    forall p, o1, o2 | Lists(o1, grants) && Lists(o2, grants)
      ensures Folded(p, Ordered(grants, o1)) == Folded(p, Ordered(grants, o2))
    {
      forall m: bv64
        ensures m in Folded(p, Ordered(grants, o1)) <==> m in Folded(p, Ordered(grants, o2))
      {
        PriorityLaw(p, grants, o1, m);
        PriorityLaw(p, grants, o2, m);
        WinnerDecides(grants, o1, m);
      }
    }
  }

  lemma {:induction false} NoGrantsNoChange(p: iset<bv64>, grants: Grants, order: seq<RoleId>)
    requires forall id :: grants(id).None?
    ensures Listed(grants, order) == []
    ensures Folded(p, Ordered(grants, order)) == p
  {
    if order != [] {
      NoGrantsNoChange(p, grants, order[..|order| - 1]);
    }
  }

  lemma {:induction false} SomeEnumeration(keys: set<RoleId>) returns (order: seq<RoleId>)
    ensures Enumerates(order, keys)
    decreases keys
  {
    order := [];
    if keys != {} {
      var id :| id in keys;
      order := SomeEnumeration(keys - {id});
      order := order + [id];
    }
  }

  /** An iteration that meets a deciding role last follows that role. */
  lemma LastDeciderWins(p: iset<bv64>, grants: Grants, keys: set<RoleId>, id: RoleId, m: bv64) returns (order: seq<RoleId>)
    requires Within(grants, keys)
    requires Decides(grants, id, m)
    ensures Lists(order, grants)
    ensures m in Folded(p, Ordered(grants, order)) <==> !Denies(grants, id, m)
  {
    var front := SomeEnumeration(keys - {id});
    order := front + [id];
    assert order[..|order| - 1] == front;
    assert Listed(grants, order) == Listed(grants, front) + [grants(id).value];
    assert (Listed(grants, front) + [grants(id).value])[..|Listed(grants, front)|] == Listed(grants, front);
    WinnerIsMember(Listed(grants, front), m);
    ListedEntries(grants, front);
    assert Winner(Listed(grants, order), m) == Some(grants(id).value);
    OrderedFollowsWinner(p, grants, order, m);
  }

  /** Iteration order is irrelevant exactly when no two equally ranked deciding roles disagree. */
  lemma OrderIrrelevantIffTieFree(grants: Grants, keys: set<RoleId>)
    requires Within(grants, keys)
    ensures OrderIrrelevant(grants) <==> TieFree(grants)
  {
    if TieFree(grants) {
      TieFreeIsOrderIrrelevant(grants);
    }
    if OrderIrrelevant(grants) {
      forall a, b, m | Decides(grants, a, m) && Decides(grants, b, m)
        ensures Denies(grants, a, m) <==> Denies(grants, b, m)
      {
        var p: iset<bv64> := iset{};
        var o1 := LastDeciderWins(p, grants, keys, a, m);
        var o2 := LastDeciderWins(p, grants, keys, b, m);
        assert Folded(p, Ordered(grants, o1)) == Folded(p, Ordered(grants, o2));
      }
    }
  }
}
