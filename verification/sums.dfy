/** Finite sums over the members of a set, taken in the order of a fixed
    enumeration. The price tables are keyed by small enumerations, so a sum
    over the keys of a dictionary is a sum over the enumeration restricted to
    the dictionary's key set; the order in which the keys are visited does
    not change the sum. */
module Sums {

  /** No element occurs twice. */
  predicate Distinct<K(==)>(ks: seq<K>) {
    forall i, j :: 0 <= i < j < |ks| ==> ks[i] != ks[j]
  }

  /** The sum of f(k) over the elements k of ks that belong to S. */
  function SumOver<K(==)>(ks: seq<K>, S: set<K>, f: K -> int): int {
    if ks == [] then 0
    else (if ks[0] in S then f(ks[0]) else 0) + SumOver(ks[1..], S, f)
  }

  /** Adding one new member k to S adds f(k) to the sum, once, when k is
      enumerated; this is what lets a loop visit keys in any order. */
  lemma {:induction false} SumOverInsert<K>(ks: seq<K>, S: set<K>, f: K -> int, k: K)
    requires Distinct(ks)
    requires k !in S
    ensures SumOver(ks, S + {k}, f) == SumOver(ks, S, f) + (if k in ks then f(k) else 0)
  {
    if ks != [] {
      var tail := ks[1..];
      assert Distinct(tail) by {
        forall i, j | 0 <= i < j < |tail| ensures tail[i] != tail[j] {
          assert tail[i] == ks[i + 1] && tail[j] == ks[j + 1];
        }
      }
      SumOverInsert(tail, S, f, k);
      assert forall j :: 0 <= j < |tail| ==> tail[j] == ks[j + 1];
      assert ks[0] !in tail;
      assert (k in ks) == (k == ks[0] || k in tail);
    }
  }

  /** A sum of non-negative terms is non-negative. */
  lemma {:induction false} SumOverNonNegative<K>(ks: seq<K>, S: set<K>, f: K -> int)
    requires forall k :: k in S ==> f(k) >= 0
    ensures SumOver(ks, S, f) >= 0
  {
    if ks != [] {
      SumOverNonNegative(ks[1..], S, f);
    }
  }

  /** Terms outside S never contribute: functions that agree on S have the same sum. */
  lemma {:induction false} SumOverAgree<K>(ks: seq<K>, S: set<K>, f: K -> int, g: K -> int)
    requires forall k :: k in S ==> f(k) == g(k)
    ensures SumOver(ks, S, f) == SumOver(ks, S, g)
  {
    if ks != [] {
      SumOverAgree(ks[1..], S, f, g);
    }
  }

  /** A sum whose terms on S are all zero is zero; in particular the sum over
      the empty set. */
  lemma {:induction false} SumOverZero<K>(ks: seq<K>, S: set<K>, f: K -> int)
    requires forall k :: k in S ==> f(k) == 0
    ensures SumOver(ks, S, f) == 0
  {
    if ks != [] {
      SumOverZero(ks[1..], S, f);
    }
  }
}
