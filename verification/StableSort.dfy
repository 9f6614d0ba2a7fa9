/** The standard library's stable sort, by an integer key, smallest first. */
module StableSort {

  ghost predicate SortedBy<T>(s: seq<T>, key: T -> int) {
    forall i, j :: 0 <= i < j < |s| ==> key(s[i]) <= key(s[j])
  }

  /** Insert `x` behind every element whose key is not larger. */
  function Inserted<T>(s: seq<T>, x: T, key: T -> int): (r: seq<T>)
    ensures |r| == |s| + 1
  {
    if s == [] || key(s[|s| - 1]) <= key(x) then s + [x]
    else Inserted(s[..|s| - 1], x, key) + [s[|s| - 1]]
  }

  function Sorted<T>(s: seq<T>, key: T -> int): (r: seq<T>)
    ensures |r| == |s|
  {
    if s == [] then [] else Inserted(Sorted(s[..|s| - 1], key), s[|s| - 1], key)
  }

  lemma SplitLast<T>(s: seq<T>)
    requires s != []
    ensures multiset(s) == multiset(s[..|s| - 1]) + multiset{s[|s| - 1]}
  {
    assert s == s[..|s| - 1] + [s[|s| - 1]];
  }

  lemma {:induction false} InsertedElements<T>(s: seq<T>, x: T, key: T -> int)
    ensures multiset(Inserted(s, x, key)) == multiset(s) + multiset{x}
  {
    if s != [] && key(s[|s| - 1]) > key(x) {
      InsertedElements(s[..|s| - 1], x, key);
      SplitLast(s);
    }
  }

  lemma AppendedIsSorted<T>(s: seq<T>, x: T, key: T -> int)
    requires SortedBy(s, key)
    requires forall e | e in s :: key(e) <= key(x)
    ensures SortedBy(s + [x], key)
  {}

  lemma {:induction false} InsertedIsSorted<T>(s: seq<T>, x: T, key: T -> int)
    requires SortedBy(s, key)
    ensures SortedBy(Inserted(s, x, key), key)
  {
    if s == [] || key(s[|s| - 1]) <= key(x) {
      AppendedIsSorted(s, x, key);
    } else {
      var front, last := s[..|s| - 1], s[|s| - 1];
      var t := Inserted(front, x, key);
      InsertedIsSorted(front, x, key);
      forall e | e in t
        ensures key(e) <= key(last)
      {
        InsertedElements(front, x, key);
        assert e in multiset(t);
      }
      AppendedIsSorted(t, last, key);
    }
  }

  /** The result is ordered and holds the same elements. */
  lemma {:induction false} SortedIsSorted<T>(s: seq<T>, key: T -> int)
    ensures SortedBy(Sorted(s, key), key)
    ensures multiset(Sorted(s, key)) == multiset(s)
  {
    if s != [] {
      SortedIsSorted(s[..|s| - 1], key);
      InsertedIsSorted(Sorted(s[..|s| - 1], key), s[|s| - 1], key);
      InsertedElements(Sorted(s[..|s| - 1], key), s[|s| - 1], key);
      SplitLast(s);
    }
  }

  /** With pairwise distinct keys there is only one ordered arrangement. */
  lemma {:induction false} SortedIsUnique<T>(a: seq<T>, b: seq<T>, key: T -> int)
    requires SortedBy(a, key) && SortedBy(b, key)
    requires multiset(a) == multiset(b)
    requires forall i, j :: 0 <= i < j < |a| ==> key(a[i]) != key(a[j])
    ensures a == b
  {
    assert |a| == |multiset(a)| && |b| == |multiset(b)|;
    if a != [] {
      var n := |a| - 1;
      SameLast(a, b, key);
      var front, front' := a[..n], b[..n];
      assert multiset(front) == multiset(front') by {
        SplitLast(a);
        SplitLast(b);
        Cancel(multiset(front), multiset(front'), a[n]);
      }
      SortedIsUnique(front, front', key);
      assert a == front + [a[n]] && b == front' + [b[n]];
    }
  }

  lemma Cancel<T>(m: multiset<T>, n: multiset<T>, x: T)
    requires m + multiset{x} == n + multiset{x}
    ensures m == n
  {
    assert m + multiset{x} - multiset{x} == m;
    assert n + multiset{x} - multiset{x} == n;
  }

  lemma SameLast<T>(a: seq<T>, b: seq<T>, key: T -> int)
    requires SortedBy(a, key) && SortedBy(b, key)
    requires multiset(a) == multiset(b) && |a| == |b| > 0
    requires forall i, j :: 0 <= i < j < |a| ==> key(a[i]) != key(a[j])
    ensures a[|a| - 1] == b[|b| - 1]
  {
    var x, y := a[|a| - 1], b[|b| - 1];
    assert x in multiset(b) && y in multiset(a);
    var k :| 0 <= k < |a| && a[k] == y;
    var l :| 0 <= l < |b| && b[l] == x;
    assert key(a[k]) <= key(x) && key(b[l]) <= key(y);
  }
}
