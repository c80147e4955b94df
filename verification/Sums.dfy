/** Sums over finite sets of keys. */
module Sums {

  ghost function Sum<K>(keys: set<K>, f: K -> int): int
    decreases |keys|
  {
    if keys == {} then 0
    else
      var k :| k in keys;
      f(k) + Sum(keys - {k}, f)
  }

  /** Any member may be split off. */
  lemma {:induction false} SplitOff<K>(keys: set<K>, k: K, f: K -> int)
    requires k in keys
    ensures Sum(keys, f) == f(k) + Sum(keys - {k}, f)
    decreases |keys|
  {
    var pick :| pick in keys && Sum(keys, f) == f(pick) + Sum(keys - {pick}, f);
    if pick != k {
      SplitOff(keys - {pick}, k, f);
      SplitOff(keys - {k}, pick, f);
      assert keys - {pick} - {k} == keys - {k} - {pick};
    }
  }

  lemma AddKey<K>(keys: set<K>, k: K, f: K -> int)
    requires k !in keys
    ensures Sum(keys + {k}, f) == Sum(keys, f) + f(k)
  {
    SplitOff(keys + {k}, k, f);
    assert keys + {k} - {k} == keys;
  }

  lemma {:induction false} Agree<K>(keys: set<K>, f: K -> int, g: K -> int)
    requires forall k | k in keys :: f(k) == g(k)
    ensures Sum(keys, f) == Sum(keys, g)
    decreases |keys|
  {
    if keys != {} {
      var k :| k in keys;
      SplitOff(keys, k, f);
      SplitOff(keys, k, g);
      Agree(keys - {k}, f, g);
    }
  }

  /** Changing the value at one key changes the sum by the difference there. */
  lemma ChangeKey<K>(keys: set<K>, k: K, f: K -> int, g: K -> int)
    requires k in keys
    requires forall j | j in keys && j != k :: f(j) == g(j)
    ensures Sum(keys, g) == Sum(keys, f) - f(k) + g(k)
  {
    SplitOff(keys, k, f);
    SplitOff(keys, k, g);
    Agree(keys - {k}, f, g);
  }

  lemma {:induction false} Difference<K>(keys: set<K>, f: K -> int, g: K -> int, h: K -> int)
    requires forall k | k in keys :: h(k) == f(k) - g(k)
    ensures Sum(keys, h) == Sum(keys, f) - Sum(keys, g)
    decreases |keys|
  {
    if keys != {} {
      var k :| k in keys;
      SplitOff(keys, k, f);
      SplitOff(keys, k, g);
      SplitOff(keys, k, h);
      Difference(keys - {k}, f, g, h);
    }
  }

  lemma {:induction false} NonNegative<K>(keys: set<K>, f: K -> int)
    requires forall k | k in keys :: f(k) >= 0
    ensures Sum(keys, f) >= 0
    decreases |keys|
  {
    if keys != {} {
      var k :| k in keys;
      SplitOff(keys, k, f);
      NonNegative(keys - {k}, f);
    }
  }
}
