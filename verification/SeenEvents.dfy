/** Duplicate suppression of user updates by a small cache of event ids. */
module SeenEvents {

  const CAPACITY := 20

  /** Putting an absent id into the cache evicts the oldest one when it is full. */
  function Put(seen: seq<string>, id: string): seq<string> {
    var all := seen + [id];
    if |all| > CAPACITY then all[|all| - CAPACITY..] else all
  }

  datatype Filter = Filter(forwarded: seq<string>, seen: seq<string>)

  /** What is forwarded of a stream of event ids, and the cache at its end. */
  function Filtered(ids: seq<string>): Filter {
    if ids == [] then Filter([], [])
    else
      var f, id := Filtered(ids[..|ids| - 1]), ids[|ids| - 1];
      if id in f.seen then f else Filter(f.forwarded + [id], Put(f.seen, id))
  }

  /** The last 20 elements. */
  function Recent(s: seq<string>): seq<string> {
    if |s| > 20 then s[|s| - 20..] else s
  }

  lemma PutIsRecent(s: seq<string>, id: string)
    ensures Put(Recent(s), id) == Recent(s + [id])
  {}

  lemma RecentHolds(s: seq<string>, i: nat)
    requires |s| - 20 <= i < |s|
    ensures s[i] in Recent(s)
  {
    assert s[i] == Recent(s)[i - (|s| - |Recent(s)|)];
  }

  /** The cache holds exactly the most recently forwarded ids. */
  lemma {:induction false} CacheIsRecent(ids: seq<string>)
    ensures Filtered(ids).seen == Recent(Filtered(ids).forwarded)
  {
    if ids != [] {
      CacheIsRecent(ids[..|ids| - 1]);
      PutIsRecent(Filtered(ids[..|ids| - 1]).forwarded, ids[|ids| - 1]);
    }
  }

  /** Any 21 consecutive forwarded ids are pairwise distinct. */
  lemma {:induction false} ForwardedAreDistinct(ids: seq<string>, i: nat, j: nat)
    requires i < j < |Filtered(ids).forwarded| && j - i <= 20
    ensures Filtered(ids).forwarded[i] != Filtered(ids).forwarded[j]
  {
    var front, id := ids[..|ids| - 1], ids[|ids| - 1];
    var f := Filtered(front);
    if id in f.seen || j < |f.forwarded| {
      ForwardedAreDistinct(front, i, j);
    } else {
      CacheIsRecent(front);
      RecentHolds(f.forwarded, i);
    }
  }

  /** An id is forwarded exactly when it is not among the most recently forwarded ones. */
  lemma ForwardedIffNotRecent(ids: seq<string>, id: string)
    ensures var f, g := Filtered(ids), Filtered(ids + [id]);
            g.forwarded == if id in Recent(f.forwarded) then f.forwarded else f.forwarded + [id]
  {
    assert (ids + [id])[..|ids|] == ids;
    CacheIsRecent(ids);
  }
}
