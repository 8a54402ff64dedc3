/** Sums of a function over a finite set of keys. */
module Sums {
  ghost function Sum<K(!new)>(keys: set<K>, f: K -> int): int {
    if keys == {} then 0
    else
      var k :| k in keys;
      f(k) + Sum(keys - {k}, f)
  }

  /** Any key may be taken out first. */
  lemma {:induction false} SumTake<K(!new)>(keys: set<K>, f: K -> int, k: K)
    requires k in keys
    ensures Sum(keys, f) == f(k) + Sum(keys - {k}, f)
  {
    var j :| j in keys && Sum(keys, f) == f(j) + Sum(keys - {j}, f);
    if j != k {
      SumTake(keys - {j}, f, k);
      SumTake(keys - {k}, f, j);
      assert keys - {j} - {k} == keys - {k} - {j};
    }
  }

  lemma {:induction false} SumAgrees<K(!new)>(keys: set<K>, f: K -> int, g: K -> int)
    requires forall k :: k in keys ==> f(k) == g(k)
    ensures Sum(keys, f) == Sum(keys, g)
  {
    if keys == {} {
    } else {
      var k :| k in keys;
      SumTake(keys, f, k);
      SumTake(keys, g, k);
      SumAgrees(keys - {k}, f, g);
    }
  }

  /** Changing the function at one key changes the sum by the difference there. */
  lemma SumChange<K(!new)>(keys: set<K>, f: K -> int, g: K -> int, k: K)
    requires k in keys && forall j :: j in keys && j != k ==> f(j) == g(j)
    ensures Sum(keys, g) == Sum(keys, f) - f(k) + g(k)
  {
    SumTake(keys, f, k);
    SumTake(keys, g, k);
    SumAgrees(keys - {k}, f, g);
  }

  lemma SumInsert<K(!new)>(keys: set<K>, f: K -> int, g: K -> int, k: K)
    requires k !in keys && forall j :: j in keys ==> f(j) == g(j)
    ensures Sum(keys + {k}, g) == Sum(keys, f) + g(k)
  {
    SumTake(keys + {k}, g, k);
    assert keys + {k} - {k} == keys;
    SumAgrees(keys, f, g);
  }

  lemma {:induction false} SumZero<K(!new)>(keys: set<K>, f: K -> int)
    requires forall k :: k in keys ==> f(k) == 0
    ensures Sum(keys, f) == 0
  {
    if keys == {} {
    } else {
      var k :| k in keys;
      SumTake(keys, f, k);
      SumZero(keys - {k}, f);
    }
  }

  lemma {:induction false} SumAtMost<K(!new)>(keys: set<K>, f: K -> int, g: K -> int)
    requires forall k :: k in keys ==> f(k) <= g(k)
    ensures Sum(keys, f) <= Sum(keys, g)
  {
    if keys == {} {
    } else {
      var k :| k in keys;
      SumTake(keys, f, k);
      SumTake(keys, g, k);
      SumAtMost(keys - {k}, f, g);
    }
  }

  /** Keys where the function is zero may be added freely. */
  lemma {:induction false} SumExtend<K(!new)>(keys: set<K>, more: set<K>, f: K -> int)
    requires forall k :: k in more && k !in keys ==> f(k) == 0
    ensures Sum(keys + more, f) == Sum(keys, f)
  {
    if k :| k in more && k !in keys {
      SumTake(keys + more, f, k);
      SumExtend(keys, more - {k}, f);
      assert keys + more - {k} == keys + (more - {k});
    } else {
      assert keys + more == keys;
    }
  }

  lemma {:induction false} SumPlus<K(!new)>(keys: set<K>, f: K -> int, g: K -> int, h: K -> int)
    requires forall k :: k in keys ==> h(k) == f(k) + g(k)
    ensures Sum(keys, h) == Sum(keys, f) + Sum(keys, g)
  {
    if keys == {} {
    } else {
      var k :| k in keys;
      SumTake(keys, f, k);
      SumTake(keys, g, k);
      SumTake(keys, h, k);
      SumPlus(keys - {k}, f, g, h);
    }
  }
}
