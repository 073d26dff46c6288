/** Sums over finite sets of keys. */
module Sums {

  /** The sum of f over a set, in whatever order the elements are taken. */
  ghost function SumOver<K>(keys: set<K>, f: K -> int): int {
    if keys == {} then 0 else
      var k :| k in keys;
      f(k) + SumOver(keys - {k}, f)
  }

  /** The sum does not depend on which element is taken first. */
  lemma {:induction false} SumOverTake<K>(keys: set<K>, f: K -> int, k: K)
    requires k in keys
    ensures SumOver(keys, f) == f(k) + SumOver(keys - {k}, f)
  {
    var c :| c in keys && SumOver(keys, f) == f(c) + SumOver(keys - {c}, f);
    if c != k {
      SumOverTake(keys - {c}, f, k);
      SumOverTake(keys - {k}, f, c);
      assert keys - {c} - {k} == keys - {k} - {c};
    }
  }

  lemma {:induction false} SumOverAgree<K>(keys: set<K>, f: K -> int, g: K -> int)
    requires forall k | k in keys :: f(k) == g(k)
    ensures SumOver(keys, f) == SumOver(keys, g)
  {
    if keys != {} {
      var k :| k in keys;
      SumOverTake(keys, f, k);
      SumOverTake(keys, g, k);
      SumOverAgree(keys - {k}, f, g);
    }
  }

  lemma {:induction false} SumOverNonNegative<K>(keys: set<K>, f: K -> int)
    requires forall k | k in keys :: 0 <= f(k)
    ensures 0 <= SumOver(keys, f)
  {
    if keys != {} {
      var k :| k in keys;
      SumOverTake(keys, f, k);
      SumOverNonNegative(keys - {k}, f);
    }
  }
}
