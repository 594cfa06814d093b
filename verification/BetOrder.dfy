/** The order in which bets are listed, the in-place sorts, and paging. */
module BetOrder {
  import opened Basics
  import opened Bets

  // ---- Ids and creation times -------------------------------------------------------------------------------

  predicate TextBefore(a: string, b: string) {
    b != [] && (a == [] || a[0] < b[0] || (a[0] == b[0] && TextBefore(a[1..], b[1..])))
  }

  lemma {:induction false} TextOrderIsStrict(a: string, b: string)
    ensures !(TextBefore(a, b) && TextBefore(b, a))
    ensures a != b ==> TextBefore(a, b) || TextBefore(b, a)
    decreases |a|
  {
    if a != [] && b != [] {
      TextOrderIsStrict(a[1..], b[1..]);
      assert a == [a[0]] + a[1..] && b == [b[0]] + b[1..];
    }
  }

  lemma {:induction false} TextOrderChains(a: string, b: string, c: string)
    requires TextBefore(a, b) && TextBefore(b, c)
    ensures TextBefore(a, c)
    decreases |a|
  {
    if a != [] && a[0] == b[0] && b[0] == c[0] { TextOrderChains(a[1..], b[1..], c[1..]); }
  }

  /** The texts first differ at k, or a ends there and b goes on. */
  predicate DifferAt(a: string, b: string, k: nat) {
    k <= |a| && k < |b| && a[..k] == b[..k] && (k == |a| || a[k] < b[k])
  }

  /** The order is the lexicographic one. */
  lemma {:induction false} TextBeforeExactly(a: string, b: string)
    ensures TextBefore(a, b) <==> exists k: nat :: DifferAt(a, b, k)
    decreases |a|
  {
    if a == [] || b == [] || a[0] != b[0] {
      if TextBefore(a, b) { assert DifferAt(a, b, 0); }
      if k: nat :| DifferAt(a, b, k) && k > 0 { assert a[..k][0] == b[..k][0]; }
    } else {
      TextBeforeExactly(a[1..], b[1..]);
      if k: nat :| DifferAt(a[1..], b[1..], k) {
        assert a[..k + 1] == [a[0]] + a[1..][..k] && b[..k + 1] == [b[0]] + b[1..][..k];
        assert DifferAt(a, b, k + 1);
      }
      if k: nat :| DifferAt(a, b, k) {
        assert a[1..][..k - 1] == a[..k][1..] && b[1..][..k - 1] == b[..k][1..];
        assert DifferAt(a[1..], b[1..], k - 1);
      }
    }
  }

  /** Oldest first, ties by id. */
  predicate Older(a: Bet, b: Bet) {
    a.created < b.created || (a.created == b.created && TextBefore(a.id, b.id))
  }

  /** Newest first, ties by id downwards. */
  predicate Newer(a: Bet, b: Bet) {
    a.created > b.created || (a.created == b.created && TextBefore(b.id, a.id))
  }

  ghost predicate StrictOrder(less: (Bet, Bet) -> bool) {
    && (forall x, y :: less(x, y) ==> !less(y, x))
    && (forall x, y, z :: !less(y, x) && !less(z, y) ==> !less(z, x))
  }

  lemma OlderIsStrict()
    ensures StrictOrder(Older) && StrictOrder(Newer)
  {
    forall x: Bet, y: Bet ensures !(Older(x, y) && Older(y, x)) { TextOrderIsStrict(x.id, y.id); }
    forall x: Bet, y: Bet, z: Bet | !Older(y, x) && !Older(z, y) ensures !Older(z, x) {
      TextOrderIsStrict(x.id, y.id);
      TextOrderIsStrict(y.id, z.id);
      TextOrderIsStrict(x.id, z.id);
      if TextBefore(x.id, y.id) && TextBefore(y.id, z.id) { TextOrderChains(x.id, y.id, z.id); }
    }
    forall x: Bet, y: Bet ensures Newer(x, y) == Older(y, x) {}
  }

  // ---- Sorting ----------------------------------------------------------------------------------------------

  ghost predicate Ordered(s: seq<Bet>, less: (Bet, Bet) -> bool) {
    forall i, j | 0 <= i < j < |s| :: !less(s[j], s[i])
  }

  /** Insertion sort by neighbouring swaps, as both listings use it. */
  method InsertionSort(a: array<Bet>, less: (Bet, Bet) -> bool)
    requires StrictOrder(less)
    modifies a
    ensures Ordered(a[..], less) && multiset(a[..]) == multiset(old(a[..]))
  {
    var i := 1;
    while i < a.Length
      invariant 1 <= i
      invariant forall m, n | 0 <= m < n < i && n < a.Length :: !less(a[n], a[m])
      invariant multiset(a[..]) == multiset(old(a[..]))
    {
      var j := i;
      while j > 0
        invariant 0 <= j <= i
        invariant forall m, n | 0 <= m < n <= i && n != j :: !less(a[n], a[m])
        invariant multiset(a[..]) == multiset(old(a[..]))
      {
        if !less(a[j], a[j - 1]) {
          break;
        }
        ghost var unswapped := a[..];
        a[j], a[j - 1] := a[j - 1], a[j];
        assert a[..] == unswapped[j := unswapped[j - 1]][j - 1 := unswapped[j]];
        j := j - 1;
      }
      i := i + 1;
    }
  }

  method SortBetsByCreatedAsc(a: array<Bet>)
    modifies a
    ensures Ordered(a[..], Older) && multiset(a[..]) == multiset(old(a[..]))
  {
    OlderIsStrict();
    InsertionSort(a, Older);
  }

  method SortBetsByCreatedDesc(a: array<Bet>)
    modifies a
    ensures Ordered(a[..], Newer) && multiset(a[..]) == multiset(old(a[..]))
  {
    OlderIsStrict();
    InsertionSort(a, Newer);
  }

  ghost predicate DistinctIds(s: seq<Bet>) {
    forall i, j | 0 <= i < j < |s| :: s[i].id != s[j].id
  }

  lemma MembersMatch(s: seq<Bet>, t: seq<Bet>, x: Bet)
    requires multiset(s) == multiset(t)
    ensures x in s <==> x in t
  {
    assert x in multiset(s) <==> x in multiset(t);
  }

  lemma HeadsAgree(s: seq<Bet>, t: seq<Bet>)
    requires Ordered(s, Older) && Ordered(t, Older) && multiset(s) == multiset(t) && DistinctIds(s)
    requires s != [] && t != []
    ensures s[0] == t[0]
  {
    MembersMatch(s, t, s[0]);
    MembersMatch(s, t, t[0]);
    var k :| 0 <= k < |s| && s[k] == t[0];
    var m :| 0 <= m < |t| && t[m] == s[0];
    if k > 0 {
      assert !Older(s[k], s[0]) && s[0].id != s[k].id;
      assert m > 0 && !Older(t[m], t[0]);
      TextOrderIsStrict(s[0].id, t[0].id);
    }
  }

  lemma TailsMatch(s: seq<Bet>, t: seq<Bet>)
    requires multiset(s) == multiset(t) && s != [] && t != [] && s[0] == t[0]
    ensures multiset(s[1..]) == multiset(t[1..])
  {
    assert s == [s[0]] + s[1..] && t == [t[0]] + t[1..];
    assert multiset(s[1..]) == multiset(s) - multiset{s[0]};
    assert multiset(t[1..]) == multiset(t) - multiset{t[0]};
  }

  /** There is only one way to order bets with distinct ids, so no listing depends on how the bets were gathered. */
  lemma {:induction false} OrderIsUnique(s: seq<Bet>, t: seq<Bet>)
    requires Ordered(s, Older) && Ordered(t, Older) && multiset(s) == multiset(t) && DistinctIds(s)
    ensures s == t
    decreases |s|
  {
    assert |s| == |multiset(s)| == |multiset(t)| == |t|;
    if s != [] {
      HeadsAgree(s, t);
      TailsMatch(s, t);
      OrderIsUnique(s[1..], t[1..]);
      assert s == [s[0]] + s[1..] && t == [t[0]] + t[1..];
    }
  }

  function Reverse(s: seq<Bet>): (r: seq<Bet>)
    ensures |r| == |s| && forall i | 0 <= i < |s| :: r[i] == s[|s| - 1 - i]
  {
    if s == [] then [] else Reverse(s[1..]) + [s[0]]
  }

  lemma {:induction false} ReverseKeeps(s: seq<Bet>)
    ensures multiset(Reverse(s)) == multiset(s)
  {
    if s != [] {
      ReverseKeeps(s[1..]);
      assert s == [s[0]] + s[1..];
    }
  }

  /** The two sorts give each other's reverse. */
  lemma AscendingReversesDescending(s: seq<Bet>, asc: seq<Bet>, desc: seq<Bet>)
    requires DistinctIds(asc) && multiset(asc) == multiset(s) == multiset(desc)
    requires Ordered(asc, Older) && Ordered(desc, Newer)
    ensures asc == Reverse(desc)
  {
    ReverseKeeps(desc);
    var r := Reverse(desc);
    forall i, j | 0 <= i < j < |r| ensures !Older(r[j], r[i]) {
      assert !Newer(desc[|r| - 1 - i], desc[|r| - 1 - j]);
    }
    OrderIsUnique(asc, r);
  }

  // ---- The listing of a set of bets -------------------------------------------------------------------------

  ghost predicate Keyed(bets: set<Bet>) {
    forall a, b | a in bets && b in bets && a.id == b.id :: a == b
  }

  ghost predicate Oldest(m: Bet, bets: set<Bet>) {
    m in bets && forall x | x in bets :: !Older(x, m)
  }

  lemma {:induction false} OldestExists(bets: set<Bet>)
    requires bets != {}
    ensures exists m :: Oldest(m, bets)
    decreases |bets|
  {
    OlderIsStrict();
    var x :| x in bets;
    if bets == {x} {
      assert Oldest(x, bets);
    } else {
      assert bets - {x} != {};
      OldestExists(bets - {x});
      var m :| Oldest(m, bets - {x});
      if Older(x, m) {
        forall y | y in bets ensures !Older(y, x) {
          if y != x { assert !Older(y, m) && !Older(m, x); }
        }
        assert Oldest(x, bets);
      } else {
        assert Oldest(m, bets);
      }
    }
  }

  /** The bets oldest first. */
  ghost function Listing(bets: set<Bet>): (s: seq<Bet>)
    ensures |s| == |bets|
    decreases |bets|
  {
    if bets == {} then []
    else
      OldestExists(bets);
      var m :| Oldest(m, bets);
      [m] + Listing(bets - {m})
  }

  lemma PrependOrdered(m: Bet, rest: seq<Bet>)
    requires Ordered(rest, Older) && forall j | 0 <= j < |rest| :: !Older(rest[j], m)
    ensures Ordered([m] + rest, Older)
  {
  }

  lemma {:induction false} ListingFacts(bets: set<Bet>)
    ensures Ordered(Listing(bets), Older) && multiset(Listing(bets)) == multiset(bets)
    decreases |bets|
  {
    if bets != {} {
      OldestExists(bets);
      var m :| Oldest(m, bets) && Listing(bets) == [m] + Listing(bets - {m});
      var rest := Listing(bets - {m});
      ListingFacts(bets - {m});
      assert multiset(bets) == multiset{m} + multiset(bets - {m});
      forall j | 0 <= j < |rest| ensures !Older(rest[j], m) {
        assert rest[j] in multiset(rest);
      }
      PrependOrdered(m, rest);
    }
  }

  lemma ListingMember(bets: set<Bet>, b: Bet)
    ensures b in Listing(bets) <==> b in bets
  {
    ListingFacts(bets);
    assert b in multiset(Listing(bets)) <==> b in multiset(bets);
  }

  lemma CountedTwice(s: seq<Bet>, i: nat, j: nat)
    requires i < j < |s|
    ensures s[i] == s[j] ==> multiset(s)[s[i]] >= 2
  {
    assert s == s[..i] + [s[i]] + s[i + 1..j] + [s[j]] + s[j + 1..];
  }

  lemma DistinctIdsOf(bets: set<Bet>, s: seq<Bet>)
    requires Keyed(bets) && multiset(s) == multiset(bets)
    ensures DistinctIds(s)
  {
    forall i, j | 0 <= i < j < |s| ensures s[i].id != s[j].id {
      assert s[i] in multiset(s) && s[j] in multiset(s);
      CountedTwice(s, i, j);
    }
  }

  lemma ListingIs(bets: set<Bet>, s: seq<Bet>)
    requires Keyed(bets) && Ordered(s, Older) && multiset(s) == multiset(bets)
    ensures s == Listing(bets)
  {
    ListingFacts(bets);
    DistinctIdsOf(bets, Listing(bets));
    OrderIsUnique(Listing(bets), s);
  }

  /** A newest-first ordering is the listing backwards. */
  lemma NewestFirst(bets: set<Bet>, s: seq<Bet>)
    requires Keyed(bets) && Ordered(s, Newer) && multiset(s) == multiset(bets)
    ensures s == Reverse(Listing(bets))
  {
    var asc := Listing(bets);
    ListingFacts(bets);
    DistinctIdsOf(bets, asc);
    AscendingReversesDescending(s, asc, s);
    ReverseTwice(s);
  }

  lemma ReverseTwice(s: seq<Bet>)
    ensures Reverse(Reverse(s)) == s
  {
  }

  // ---- Pages ------------------------------------------------------------------------------------------------

  function Min(a: int, b: int): int { if a < b then a else b }

  /** One page; a page or size that is not positive falls back to the first page of twenty. */
  function Page(s: seq<Bet>, page: int, pageSize: int): seq<Bet> {
    var p := if page <= 0 then 1 else page;
    var size := if pageSize <= 0 then 20 else pageSize;
    var start := Min((p - 1) * size, |s|);
    assert (p - 1) * size >= 0;
    s[start..Min(start + size, |s|)]
  }

  /** Which bets a page shows. */
  lemma PageTells(s: seq<Bet>, page: int, pageSize: int)
    ensures var first := (if page > 0 then page - 1 else 0) * (if pageSize > 0 then pageSize else 20);
            var shown := Page(s, page, pageSize);
            && first >= 0
            && |shown| == (if first >= |s| then 0
                           else if |s| - first < (if pageSize > 0 then pageSize else 20) then |s| - first
                           else (if pageSize > 0 then pageSize else 20))
            && forall i | 0 <= i < |shown| :: shown[i] == s[first + i]
  {
  }

  function Pages(s: seq<Bet>, pages: nat, pageSize: int): seq<Bet> {
    if pages == 0 then [] else Pages(s, pages - 1, pageSize) + Page(s, pages, pageSize)
  }

  lemma ProductStep(pages: int, size: int)
    requires pages > 0 && size > 0
    ensures pages * size == (pages - 1) * size + size && (pages - 1) * size >= 0
  {
  }

  lemma SliceJoins(s: seq<Bet>, start: int, end: int)
    requires 0 <= start <= end <= |s|
    ensures s[..start] + s[start..end] == s[..end]
  {
  }

  /** A page that starts `before` bets into the listing. */
  lemma PageFrom(s: seq<Bet>, page: int, size: int, before: int)
    requires page > 0 && size > 0 && before == (page - 1) * size && before >= 0
    ensures Page(s, page, size) == s[Min(before, |s|)..Min(Min(before, |s|) + size, |s|)]
  {
  }

  lemma PageAppends(s: seq<Bet>, page: int, size: int, before: int)
    requires page > 0 && size > 0 && before == (page - 1) * size && before >= 0
    ensures s[..Min(before, |s|)] + Page(s, page, size) == s[..Min(before + size, |s|)]
  {
    PageFrom(s, page, size, before);
    SliceJoins(s, Min(before, |s|), Min(Min(before, |s|) + size, |s|));
  }

  /** Consecutive pages of a fixed listing tile it: no bet is skipped, none is shown twice. */
  lemma {:induction false} PagesTile(s: seq<Bet>, pages: nat, pageSize: int)
    requires pageSize > 0
    ensures pages * pageSize >= 0 && Pages(s, pages, pageSize) == s[..Min(pages * pageSize, |s|)]
  {
    if pages > 0 {
      PagesTile(s, pages - 1, pageSize);
      ProductStep(pages, pageSize);
      PageAppends(s, pages, pageSize, (pages - 1) * pageSize);
    }
  }
}
