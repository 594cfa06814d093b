/** Small types shared by every component of the model. */
module Basics {
  datatype Option<+T> = None | Some(value: T)

  datatype Result<+T, +E> = Ok(value: T) | Err(error: E)

  /** How a decimal text reads: the decimal library rejects it, or it denotes an exact number. */
  datatype Text = Malformed | Number(value: real)

  lemma LongerLeftLeavesColon(left: string, right: string, left': string, right': string)
    requires left + ":" + right == left' + ":" + right' && |left| < |left'|
    ensures ':' in right
  {
    assert (left' + ":" + right')[|left'|] == ':';
    assert (left + ":" + right)[|left'|] == right[|left'| - |left| - 1];
  }

  /** A key `left:right` tells its two parts when the right one has no colon. */
  lemma KeySplits(left: string, right: string, left': string, right': string)
    requires ':' !in right && ':' !in right' && left + ":" + right == left' + ":" + right'
    ensures left == left' && right == right'
  {
    if |left| < |left'| { LongerLeftLeavesColon(left, right, left', right'); }
    if |left'| < |left| { LongerLeftLeavesColon(left', right', left, right); }
    assert left == (left + ":" + right)[..|left|] == left';
    assert right == (left + ":" + right)[|left| + 1..] == right';
  }
}

/** Finite sums of a quantity over a set of keys. */
module Sums {
  ghost function SumOver<K>(keys: set<K>, f: K -> real): real
    decreases |keys|
  {
    if keys == {} then 0.0
    else
      var k :| k in keys;
      f(k) + SumOver(keys - {k}, f)
  }

  /** Any element may be split off first. */
  lemma {:induction false} SumSplit<K>(keys: set<K>, f: K -> real, k: K)
    requires k in keys
    ensures SumOver(keys, f) == f(k) + SumOver(keys - {k}, f)
    decreases |keys|
  {
    var first :| first in keys && SumOver(keys, f) == f(first) + SumOver(keys - {first}, f);
    if first != k {
      SumSplit(keys - {first}, f, k);
      SumSplit(keys - {k}, f, first);
      assert keys - {first} - {k} == keys - {k} - {first};
    }
  }

  lemma {:induction false} SumSame<K>(keys: set<K>, f: K -> real, g: K -> real)
    requires forall k | k in keys :: f(k) == g(k)
    ensures SumOver(keys, f) == SumOver(keys, g)
    decreases |keys|
  {
    if keys != {} {
      var k :| k in keys;
      SumSplit(keys, f, k);
      SumSplit(keys, g, k);
      SumSame(keys - {k}, f, g);
    }
  }

  /** Changing the quantity at one key changes the sum by that difference. */
  lemma SumChange<K>(keys: set<K>, f: K -> real, g: K -> real, k: K)
    requires k in keys
    requires forall j | j in keys && j != k :: f(j) == g(j)
    ensures SumOver(keys, g) == SumOver(keys, f) - f(k) + g(k)
  {
    SumSplit(keys, f, k);
    SumSplit(keys, g, k);
    SumSame(keys - {k}, f, g);
  }

  /** A new key adds its own quantity. */
  lemma SumInsert<K>(keys: set<K>, f: K -> real, g: K -> real, k: K)
    requires k !in keys
    requires forall j | j in keys :: f(j) == g(j)
    ensures SumOver(keys + {k}, g) == SumOver(keys, f) + g(k)
  {
    SumSplit(keys + {k}, g, k);
    assert keys + {k} - {k} == keys;
    SumSame(keys, f, g);
  }
}
