/**
 * ORDER BY score DESC, tiebreak DESC LIMIT k, over a table given as a map
 * from address to score. Ties the store leaves open are broken by ascending
 * address, which makes the order strict and total and the result unique.
 */
module Ranking {
  import Lex

  /** The sort key of a row: primary column, then the tie-break column, both descending. */
  datatype Score = Score(primary: int, secondary: int)

  /** Row (x, a) comes before row (y, b). */
  predicate Outranks(x: Score, a: string, y: Score, b: string)
  {
    || x.primary > y.primary
    || (x.primary == y.primary && x.secondary > y.secondary)
    || (x.primary == y.primary && x.secondary == y.secondary && Lex.Less(a, b))
  }

  /** Address `a` comes before address `b` in the table `m`. */
  predicate Ahead(m: map<string, Score>, a: string, b: string)
  {
    a in m && b in m && Outranks(m[a], a, m[b], b)
  }

  lemma AheadIrreflexive(m: map<string, Score>, a: string)
    ensures !Ahead(m, a, a)
  {
    Lex.Irreflexive(a);
  }

  lemma AheadAsymmetric(m: map<string, Score>, a: string, b: string)
    requires Ahead(m, a, b)
    ensures !Ahead(m, b, a)
  {
    if Lex.Less(a, b) {
      Lex.Asymmetric(a, b);
    }
  }

  lemma AheadTransitive(m: map<string, Score>, a: string, b: string, c: string)
    requires Ahead(m, a, b) && Ahead(m, b, c)
    ensures Ahead(m, a, c)
  {
    if Lex.Less(a, b) && Lex.Less(b, c) {
      Lex.Transitive(a, b, c);
    }
  }

  lemma AheadTotal(m: map<string, Score>, a: string, b: string)
    requires a in m && b in m && a != b
    ensures Ahead(m, a, b) || Ahead(m, b, a)
  {
    Lex.Total(a, b);
  }

  /**
   * `keys` is the first `k` rows of `m` in rank order: as many as there are
   * (up to k), all from `m`, strictly in rank order, and ahead of every row
   * left out.
   */
  ghost predicate IsTop(keys: seq<string>, m: map<string, Score>, k: nat)
  {
    && |keys| == (if k < |m| then k else |m|)
    && (forall i :: 0 <= i < |keys| ==> keys[i] in m)
    && (forall i, j :: 0 <= i < j < |keys| ==> Ahead(m, keys[i], keys[j]))
    && (forall i, x :: 0 <= i < |keys| && x in m && x !in keys ==> Ahead(m, keys[i], x))
  }

  /** The row of `s` that is ahead of all the others. */
  method Best(m: map<string, Score>, s: set<string>) returns (best: string)
    requires s != {} && s <= m.Keys
    ensures best in s
    ensures forall y :: y in s && y != best ==> Ahead(m, best, y)
  {
    best :| best in s;
    var todo := s - {best};
    while todo != {}
      invariant best in s && todo <= s && best !in todo
      invariant forall y :: y in s && y !in todo && y != best ==> Ahead(m, best, y)
      decreases todo
    {
      var y :| y in todo;
      AheadTotal(m, best, y);
      if Ahead(m, y, best) {
        forall z | z in s && z !in todo && z != y
          ensures Ahead(m, y, z)
        {
          if z != best {
            AheadTransitive(m, y, best, z);
          }
        }
        best := y;
      }
      todo := todo - {y};
    }
  }

  /** The first `k` rows of `m` in rank order, picked one at a time. */
  method SelectTop(m: map<string, Score>, k: nat) returns (keys: seq<string>)
    ensures IsTop(keys, m, k)
  {
    keys := [];
    var rest := m.Keys;
    while |keys| < k && rest != {}
      invariant |keys| <= k
      invariant forall x :: x in rest <==> x in m && x !in keys
      invariant |rest| == |m| - |keys|
      invariant forall i :: 0 <= i < |keys| ==> keys[i] in m
      invariant forall i, j :: 0 <= i < j < |keys| ==> Ahead(m, keys[i], keys[j])
      invariant forall i, x :: 0 <= i < |keys| && x in rest ==> Ahead(m, keys[i], x)
      decreases rest
    {
      var best := Best(m, rest);
      keys := keys + [best];
      rest := rest - {best};
    }
  }

  /** Two rows in the same place of two valid top lists are the same row, once the places before agree. */
  lemma TopAgreesAt(k1: seq<string>, k2: seq<string>, m: map<string, Score>, k: nat, i: nat)
    requires IsTop(k1, m, k) && IsTop(k2, m, k)
    requires i < |k1| && k1[..i] == k2[..i]
    ensures k1[i] == k2[i]
  {
    var a, b := k1[i], k2[i];
    if a != b {
      assert Ahead(m, b, a) by {
        if a in k2 {
          var j :| 0 <= j < |k2| && k2[j] == a;
          if j < i {
            assert k1[j] == a;
            AheadIrreflexive(m, a);
          }
        }
      }
      assert Ahead(m, a, b) by {
        if b in k1 {
          var j :| 0 <= j < |k1| && k1[j] == b;
          if j < i {
            assert k2[j] == b;
            AheadIrreflexive(m, b);
          }
        }
      }
      AheadAsymmetric(m, a, b);
    }
  }

  /** A table has exactly one top-k list. */
  lemma TopUnique(k1: seq<string>, k2: seq<string>, m: map<string, Score>, k: nat)
    requires IsTop(k1, m, k) && IsTop(k2, m, k)
    ensures k1 == k2
  {
    var i := 0;
    while i < |k1|
      invariant 0 <= i <= |k1|
      invariant k1[..i] == k2[..i]
    {
      TopAgreesAt(k1, k2, m, k, i);
      assert k1[..i + 1] == k1[..i] + [k1[i]];
      assert k2[..i + 1] == k2[..i] + [k2[i]];
      i := i + 1;
    }
    assert k1 == k1[..i] && k2 == k2[..i];
  }

  /** What the order means for the columns: primary descending, then secondary descending. */
  lemma TopOrder(keys: seq<string>, m: map<string, Score>, k: nat)
    requires IsTop(keys, m, k)
    ensures |keys| <= k
    ensures forall i, j :: 0 <= i < j < |keys| ==> m[keys[i]].primary >= m[keys[j]].primary
    ensures forall i, j :: 0 <= i < j < |keys| && m[keys[i]].primary == m[keys[j]].primary ==>
      m[keys[i]].secondary >= m[keys[j]].secondary
    ensures forall i, j :: 0 <= i < j < |keys| ==> keys[i] != keys[j]
    ensures forall i, x :: 0 <= i < |keys| && x in m && x !in keys ==> m[keys[i]].primary >= m[x].primary
  {
    forall i, j | 0 <= i < j < |keys|
      ensures keys[i] != keys[j]
    {
      AheadIrreflexive(m, keys[i]);
    }
  }

  /** A sequence without repeats has as many distinct elements as positions. */
  lemma {:induction false} DistinctCard(s: seq<string>)
    requires forall i, j :: 0 <= i < j < |s| ==> s[i] != s[j]
    ensures |set x | x in s| == |s|
  {
    if s != [] {
      DistinctCard(s[1..]);
      assert (set x | x in s) == {s[0]} + (set x | x in s[1..]);
      assert s[0] !in (set x | x in s[1..]);
    }
  }

  /** A subset is no larger than its superset. */
  lemma {:induction false} SubsetCard(a: set<string>, b: set<string>)
    requires a <= b
    ensures |a| <= |b|
    decreases a
  {
    if a != {} {
      var x :| x in a;
      SubsetCard(a - {x}, b - {x});
    }
  }

  /** A top list that leaves out a row of its table is full. */
  lemma TopFull(keys: seq<string>, m: map<string, Score>, k: nat, x: string)
    requires IsTop(keys, m, k)
    requires x in m && x !in keys
    ensures |keys| == k
  {
    TopOrder(keys, m, k);
    DistinctCard(keys);
    var used := set y | y in keys;
    SubsetCard(used, m.Keys - {x});
  }
}
