/** Functions over sequences and over maps filled from sequences. */
module Lists {
  import opened Basics

  function Map<A, B>(f: A -> B, xs: seq<A>): (ys: seq<B>)
    ensures |ys| == |xs| && forall i | 0 <= i < |xs| :: ys[i] == f(xs[i])
  {
    seq(|xs|, i requires 0 <= i < |xs| => f(xs[i]))
  }

  function Flat<A, B>(f: A -> seq<B>, xs: seq<A>): seq<B> {
    if xs == [] then [] else Flat(f, xs[..|xs| - 1]) + f(xs[|xs| - 1])
  }

  function Fold<S, A>(f: (S, A) -> S, start: S, xs: seq<A>): S {
    if xs == [] then start else f(Fold(f, start, xs[..|xs| - 1]), xs[|xs| - 1])
  }

  function Prepend<A, E>(xs: seq<A>, rest: Result<seq<A>, E>): Result<seq<A>, E> {
    if rest.Ok? then Ok(xs + rest.value) else rest
  }

  /** All results, or the first error. */
  function Traverse<A, B, E>(f: A -> Result<B, E>, xs: seq<A>): Result<seq<B>, E> {
    if xs == [] then Ok([])
    else match f(xs[0])
      case Err(error) => Err(error)
      case Ok(y) => Prepend([y], Traverse(f, xs[1..]))
  }

  lemma {:induction false} TraverseOk<A, B, E>(f: A -> Result<B, E>, g: A -> B, xs: seq<A>)
    requires forall x | x in xs :: f(x) == Ok(g(x))
    ensures Traverse(f, xs) == Ok(Map(g, xs))
  {
    if xs != [] {
      assert f(xs[0]) == Ok(g(xs[0]));
      TraverseOk(f, g, xs[1..]);
      assert [g(xs[0])] + Map(g, xs[1..]) == Map(g, xs);
    } else {
      assert Map(g, xs) == [];
    }
  }

  /** A loop that has traversed i elements into `done`, without error, can take the next. */
  lemma TraverseNext<A, B, E>(f: A -> Result<B, E>, xs: seq<A>, done: seq<B>, i: nat)
    requires i < |xs| && Traverse(f, xs) == Prepend(done, Traverse(f, xs[i..]))
    ensures f(xs[i]).Err? ==> Traverse(f, xs) == Err(f(xs[i]).error)
    ensures f(xs[i]).Ok? ==> Traverse(f, xs) == Prepend(done + [f(xs[i]).value], Traverse(f, xs[i + 1..]))
  {
    TraverseUnfolds(f, xs, i);
    if f(xs[i]).Ok? { PrependTwice(done, f(xs[i]).value, Traverse(f, xs[i + 1..])); }
  }

  lemma TraverseUnfolds<A, B, E>(f: A -> Result<B, E>, xs: seq<A>, i: nat)
    requires i < |xs|
    ensures Traverse(f, xs[i..])
            == if f(xs[i]).Err? then Err(f(xs[i]).error) else Prepend([f(xs[i]).value], Traverse(f, xs[i + 1..]))
  {
    assert xs[i..][0] == xs[i] && xs[i..][1..] == xs[i + 1..];
  }

  lemma PrependTwice<A, E>(xs: seq<A>, y: A, rest: Result<seq<A>, E>)
    ensures Prepend(xs, Prepend([y], rest)) == Prepend(xs + [y], rest)
  {
    if rest.Ok? { assert xs + ([y] + rest.value) == (xs + [y]) + rest.value; }
  }

  lemma TraverseStarts<A, B, E>(f: A -> Result<B, E>, xs: seq<A>)
    ensures Traverse(f, xs) == Prepend([], Traverse(f, xs[0..]))
  {
    assert xs[0..] == xs;
    if Traverse(f, xs).Ok? { assert [] + Traverse(f, xs).value == Traverse(f, xs).value; }
  }

  lemma TraverseEnds<A, B, E>(f: A -> Result<B, E>, xs: seq<A>, done: seq<B>)
    requires Traverse(f, xs) == Prepend(done, Traverse(f, xs[|xs|..]))
    ensures Traverse(f, xs) == Ok(done)
  {
    assert xs[|xs|..] == [] && done + [] == done;
  }

  lemma {:induction false} TraverseKeeps<A, B, E>(f: A -> Result<B, E>, xs: seq<A>)
    requires Traverse(f, xs).Ok?
    ensures |Traverse(f, xs).value| == |xs|
    ensures forall i | 0 <= i < |xs| :: f(xs[i]) == Ok(Traverse(f, xs).value[i])
  {
    if xs != [] {
      TraverseKeeps(f, xs[1..]);
      forall i | 0 <= i < |xs| ensures f(xs[i]) == Ok(Traverse(f, xs).value[i]) {
        if i > 0 { assert xs[i] == xs[1..][i - 1]; }
      }
    }
  }

  lemma OneMore<A>(xs: seq<A>, i: nat)
    requires i < |xs|
    ensures xs[..i + 1] == xs[..i] + [xs[i]] && xs[..i + 1][..i] == xs[..i]
  {
  }

  // ---- Maps -------------------------------------------------------------------------------------------------

  /** The map after storing every element under its key, in order. */
  function PutAll<V>(m: map<string, V>, key: V -> string, xs: seq<V>): map<string, V> {
    if xs == [] then m else PutAll(m, key, xs[..|xs| - 1])[key(xs[|xs| - 1]) := xs[|xs| - 1]]
  }

  /** The last element with the key. */
  function Last<V>(key: V -> string, xs: seq<V>, k: string): Option<V> {
    if xs == [] then None
    else if key(xs[|xs| - 1]) == k then Some(xs[|xs| - 1])
    else Last(key, xs[..|xs| - 1], k)
  }

  function At<V>(m: map<string, V>, k: string): Option<V> {
    if k in m then Some(m[k]) else None
  }

  lemma {:induction false} PutAllAt<V>(m: map<string, V>, key: V -> string, xs: seq<V>, k: string)
    ensures At(PutAll(m, key, xs), k) == if Last(key, xs, k).Some? then Last(key, xs, k) else At(m, k)
  {
    if xs != [] { PutAllAt(m, key, xs[..|xs| - 1], k); }
  }

  lemma {:induction false} LastIsThere<V>(key: V -> string, xs: seq<V>, k: string)
    ensures Last(key, xs, k).Some? ==> Last(key, xs, k).value in xs && key(Last(key, xs, k).value) == k
    ensures Last(key, xs, k).None? ==> forall x | x in xs :: key(x) != k
  {
    if xs != [] {
      var before := xs[..|xs| - 1];
      LastIsThere(key, before, k);
      assert xs == before + [xs[|xs| - 1]];
    }
  }

  lemma {:induction false} LastOfSum<V>(key: V -> string, xs: seq<V>, ys: seq<V>, k: string)
    ensures Last(key, xs + ys, k) == if Last(key, ys, k).Some? then Last(key, ys, k) else Last(key, xs, k)
    decreases |ys|
  {
    if ys == [] {
      assert xs + ys == xs;
    } else {
      assert (xs + ys)[..|xs + ys| - 1] == xs + ys[..|ys| - 1];
      LastOfSum(key, xs, ys[..|ys| - 1], k);
    }
  }

  ghost predicate Agree<V>(m: map<string, V>, n: map<string, V>, k: string) {
    At(m, k) == At(n, k)
  }

  lemma SameAt<V>(m: map<string, V>, n: map<string, V>)
    requires forall k :: Agree(m, n, k)
    ensures m == n
  {
    forall k ensures k in m <==> k in n { assert Agree(m, n, k); }
    forall k | k in m ensures m[k] == n[k] { assert Agree(m, n, k); }
  }

  /** Storing the same elements again changes nothing. */
  lemma PutAllTwice<V>(m: map<string, V>, key: V -> string, xs: seq<V>)
    ensures PutAll(PutAll(m, key, xs), key, xs) == PutAll(m, key, xs)
  {
    var once := PutAll(m, key, xs);
    forall k ensures Agree(PutAll(once, key, xs), once, k) {
      PutAllAt(once, key, xs, k);
      PutAllAt(m, key, xs, k);
    }
    SameAt(PutAll(once, key, xs), once);
  }
}
