/**
  Permission values are unsigned 64-bit words.  This module gives a word its
  meaning as the set of its flags (the one-bit words it covers) and shows that
  the word operators used on permissions are the set operators, so that every
  other module can reason about sets of flags.
 */
module Bits {

  /** A one-bit word: a single permission flag. */
  ghost predicate IsFlag(m: bv64) {
    m != 0 && m & (m - 1) == 0
  }

  ghost predicate Hits(v: bv64, m: bv64) {
    v & m != 0
  }

  /** The flags of a word. */
  ghost function Flags(v: bv64): iset<bv64> {
    iset m: bv64 | IsFlag(m) && Hits(v, m)
  }

  lemma FlagIsAtom(m: bv64, v: bv64)
    requires IsFlag(m)
    ensures v & m == 0 || v & m == m
  {
    var w := v & m;
    assert w & (m - 1) == 0;
  }

  lemma OrBit(a: bv64, b: bv64, m: bv64)
    ensures Hits(a | b, m) <==> Hits(a, m) || Hits(b, m)
  {
    assert (a | b) & m == (a & m) | (b & m);
    OrIsZero(a & m, b & m);
  }

  lemma OrIsZero(a: bv64, b: bv64)
    ensures a | b == 0 <==> a == 0 && b == 0
  {}

  lemma AndMisses(a: bv64, b: bv64, m: bv64)
    requires a & m == 0
    ensures !Hits(a & b, m) && !Hits(a, m)
  {}

  lemma AndIsOther(a: bv64, b: bv64, m: bv64)
    requires a & m == m
    ensures (a & b) & m == b & m
  {}

  lemma AndBit(a: bv64, b: bv64, m: bv64)
    requires m != 0 && (a & m == 0 || a & m == m)
    ensures Hits(a & b, m) <==> Hits(a, m) && Hits(b, m)
  {
    if a & m == 0 {
      AndMisses(a, b, m);
    } else {
      AndIsOther(a, b, m);
    }
  }

  lemma AndNotClears(a: bv64, b: bv64, m: bv64)
    requires b & m == m
    ensures !Hits(a & !b, m)
  {}

  lemma AndNotKeeps(a: bv64, b: bv64, m: bv64)
    requires b & m == 0
    ensures (a & !b) & m == a & m
  {}

  lemma OrAt(a: bv64, b: bv64, m: bv64)
    requires IsFlag(m)
    ensures Hits(a | b, m) <==> Hits(a, m) || Hits(b, m)
  {
    OrBit(a, b, m);
  }

  lemma AndAt(a: bv64, b: bv64, m: bv64)
    requires IsFlag(m)
    ensures Hits(a & b, m) <==> Hits(a, m) && Hits(b, m)
  {
    assert a & m == 0 || a & m == m by { FlagIsAtom(m, a); }
    AndBit(a, b, m);
  }

  lemma AndNotAt(a: bv64, b: bv64, m: bv64)
    requires IsFlag(m)
    ensures Hits(a & !b, m) <==> Hits(a, m) && !Hits(b, m)
  {
    assert b & m == 0 || b & m == m by { FlagIsAtom(m, b); }
    if b & m == m {
      AndNotClears(a, b, m);
    } else {
      AndNotKeeps(a, b, m);
    }
  }

  lemma FlagsOfOr(a: bv64, b: bv64)
    ensures Flags(a | b) == Flags(a) + Flags(b)
  {
    forall m: bv64 | IsFlag(m) { OrAt(a, b, m); }
  }

  lemma FlagsOfAnd(a: bv64, b: bv64)
    ensures Flags(a & b) == Flags(a) * Flags(b)
  {
    forall m: bv64 | IsFlag(m) { AndAt(a, b, m); }
  }

  lemma FlagsOfAndNot(a: bv64, b: bv64)
    ensures Flags(a & !b) == Flags(a) - Flags(b)
  {
    forall m: bv64 | IsFlag(m) { AndNotAt(a, b, m); }
  }

  lemma FlagsOfZero()
    ensures Flags(0) == iset{}
  {
    forall m: bv64
      ensures !Hits(0, m)
    {
      assert 0 as bv64 & m == 0;
    }
  }

  lemma LowestFlag(v: bv64) returns (m: bv64)
    requires v != 0
    ensures IsFlag(m) && Hits(v, m)
  {
    m := v & (0 - v);
  }

  lemma NoFlagsIsZero(v: bv64)
    ensures Flags(v) == iset{} ==> v == 0
  {
    if v != 0 {
      var m := LowestFlag(v);
      assert m in Flags(v);
    }
  }

  lemma EqualByDifferences(a: bv64, b: bv64)
    requires a & !b == 0 && b & !a == 0
    ensures a == b
  {}

  /** A word is determined by its flags. */
  lemma FlagsAreInjective(a: bv64, b: bv64)
    requires Flags(a) == Flags(b)
    ensures a == b
  {
    FlagsOfAndNot(a, b);
    FlagsOfAndNot(b, a);
    NoFlagsIsZero(a & !b);
    NoFlagsIsZero(b & !a);
    EqualByDifferences(a, b);
  }

  /** One word covers another exactly when its flags include the other's. */
  lemma CoversIsSuperset(p: bv64, v: bv64)
    ensures p & v == v <==> Flags(v) <= Flags(p)
  {
    FlagsOfAnd(p, v);
    if Flags(v) <= Flags(p) {
      assert Flags(p) * Flags(v) == Flags(v);
      FlagsAreInjective(p & v, v);
    }
  }

  /** A flag's only flag is itself. */
  lemma FlagsOfFlag(f: bv64)
    requires IsFlag(f)
    ensures Flags(f) == iset{f}
  {
    assert Hits(f, f) by { assert f & f == f; }
    forall m: bv64 | IsFlag(m) && Hits(f, m)
      ensures m == f
    {
      SameFlag(f, m);
    }
  }

  lemma SameFlag(f: bv64, m: bv64)
    requires IsFlag(f) && IsFlag(m) && Hits(f, m)
    ensures m == f
  {
    assert f & m == m by { FlagIsAtom(m, f); }
    assert m & f == f by { FlagIsAtom(f, m); assert m & f == f & m; }
    assert m & f == f & m;
  }
}
