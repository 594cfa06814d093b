/**
  The settlement sweep, seen on the list of pending bets: it walks pages of a list its own settlements shorten.
*/
module Sweep {
  import opened Basics
  import opened Bets
  import opened BetOrder

  const PAGE := 100

  /** The list with the resolvable bets taken out. */
  function Drop(s: seq<Bet>, resolvable: Bet -> bool): (r: seq<Bet>)
    ensures |r| <= |s|
  {
    if s == [] then [] else (if resolvable(s[0]) then [] else [s[0]]) + Drop(s[1..], resolvable)
  }

  lemma {:induction false} DropKeeps(s: seq<Bet>, resolvable: Bet -> bool, b: Bet)
    ensures b in Drop(s, resolvable) <==> b in s && !resolvable(b)
  {
    if s != [] {
      DropKeeps(s[1..], resolvable, b);
      assert s == [s[0]] + s[1..];
    }
  }

  /** The list once the resolvable bets among positions start to end are settled. */
  function AfterPage(pending: seq<Bet>, resolvable: Bet -> bool, start: nat, end: nat): seq<Bet>
    requires start <= end <= |pending|
  {
    pending[..start] + Drop(pending[start..end], resolvable) + pending[end..]
  }

  /** What is still pending after sweeping from some page on. */
  function SweepFrom(pending: seq<Bet>, resolvable: Bet -> bool, page: nat): seq<Bet>
    requires page > 0
    decreases |pending| - (page - 1) * PAGE
  {
    var start := (page - 1) * PAGE;
    if start >= |pending| then pending
    else
      var end := Min(start + PAGE, |pending|);
      var rest := AfterPage(pending, resolvable, start, end);
      if end - start < PAGE then rest else SweepFrom(rest, resolvable, page + 1)
  }

  ghost predicate NoneBefore(s: seq<Bet>, resolvable: Bet -> bool, n: nat) {
    n <= |s| && forall i | 0 <= i < n :: !resolvable(s[i])
  }

  lemma {:induction false} DropKeepsUnresolvable(s: seq<Bet>, resolvable: Bet -> bool)
    requires forall i | 0 <= i < |s| :: !resolvable(s[i])
    ensures Drop(s, resolvable) == s
  {
    if s != [] { DropKeepsUnresolvable(s[1..], resolvable); }
  }

  lemma PageKeeps(pending: seq<Bet>, resolvable: Bet -> bool, start: nat, end: nat, b: Bet)
    requires start <= end <= |pending|
    ensures b in AfterPage(pending, resolvable, start, end) <==>
              b in pending[..start] || (b in pending[start..end] && !resolvable(b)) || b in pending[end..]
    ensures b in AfterPage(pending, resolvable, start, end) ==> b in pending
    ensures b in pending && !resolvable(b) ==> b in AfterPage(pending, resolvable, start, end)
  {
    DropKeeps(pending[start..end], resolvable, b);
    assert pending == pending[..start] + pending[start..end] + pending[end..];
  }

  lemma {:induction false} SweepAddsNothing(pending: seq<Bet>, resolvable: Bet -> bool, page: nat, b: Bet)
    requires page > 0
    ensures b in SweepFrom(pending, resolvable, page) ==> b in pending
    decreases |pending| - (page - 1) * PAGE
  {
    var start := (page - 1) * PAGE;
    if start < |pending| {
      var end := Min(start + PAGE, |pending|);
      PageKeeps(pending, resolvable, start, end, b);
      if end - start >= PAGE { SweepAddsNothing(AfterPage(pending, resolvable, start, end), resolvable, page + 1, b); }
    }
  }

  /** A sweep settles nothing but resolvable bets. */
  lemma {:induction false} SweepKeepsUnresolvable(pending: seq<Bet>, resolvable: Bet -> bool, page: nat, b: Bet)
    requires page > 0 && b in pending && !resolvable(b)
    ensures b in SweepFrom(pending, resolvable, page)
    decreases |pending| - (page - 1) * PAGE
  {
    if page * PAGE <= |pending| {
      PageKeeps(pending, resolvable, (page - 1) * PAGE, page * PAGE, b);
      RestIsNotLonger(pending, resolvable, (page - 1) * PAGE, page * PAGE);
      SweepUnfolds(pending, resolvable, page);
      SweepKeepsUnresolvable(NextList(pending, resolvable, page), resolvable, page + 1, b);
    } else if (page - 1) * PAGE < |pending| {
      PageKeeps(pending, resolvable, (page - 1) * PAGE, |pending|, b);
    }
  }

  predicate NoDuplicates(s: seq<Bet>) {
    forall i, j | 0 <= i < j < |s| :: s[i] != s[j]
  }

  lemma OnlyThere(s: seq<Bet>, at: nat, start: nat, end: nat)
    requires NoDuplicates(s) && start <= at < end <= |s|
    ensures s[at] !in s[..start] && s[at] !in s[end..]
  {
  }

  lemma NotAfterItsPage(pending: seq<Bet>, resolvable: Bet -> bool, start: nat, end: nat, at: nat)
    requires NoDuplicates(pending) && start <= at < end <= |pending| && resolvable(pending[at])
    ensures pending[at] !in AfterPage(pending, resolvable, start, end)
  {
    OnlyThere(pending, at, start, end);
    PageKeeps(pending, resolvable, start, end, pending[at]);
  }

  lemma SettledOnItsPage(pending: seq<Bet>, resolvable: Bet -> bool, page: nat, at: nat)
    requires page > 0 && NoDuplicates(pending) && at < |pending| && resolvable(pending[at])
    requires (page - 1) * PAGE <= at < page * PAGE
    ensures pending[at] !in SweepFrom(pending, resolvable, page)
  {
    var start := (page - 1) * PAGE;
    var end := Min(start + PAGE, |pending|);
    NotAfterItsPage(pending, resolvable, start, end, at);
    SweepAddsNothing(AfterPage(pending, resolvable, start, end), resolvable, page + 1, pending[at]);
  }

  lemma Rejoin(s: seq<Bet>, start: nat, end: nat)
    requires start <= end <= |s|
    ensures s[..start] + s[start..end] + s[end..] == s
  {
  }

  lemma IdlePage(pending: seq<Bet>, resolvable: Bet -> bool, page: nat)
    requires page > 0 && page * PAGE <= |pending| && NoneBefore(pending, resolvable, page * PAGE)
    ensures SweepFrom(pending, resolvable, page) == SweepFrom(pending, resolvable, page + 1)
  {
    var start := (page - 1) * PAGE;
    var end := page * PAGE;
    DropKeepsUnresolvable(pending[start..end], resolvable);
    Rejoin(pending, start, end);
  }

  /** The oldest resolvable bet is settled: pages before its own hold nothing to settle, so nothing has shifted. */
  lemma {:induction false} SweepReachesTheOldest(pending: seq<Bet>, resolvable: Bet -> bool, page: nat, at: nat)
    requires page > 0 && NoDuplicates(pending)
    requires at < |pending| && NoneBefore(pending, resolvable, at) && resolvable(pending[at]) && (page - 1) * PAGE <= at
    ensures pending[at] !in SweepFrom(pending, resolvable, page)
    decreases |pending| - (page - 1) * PAGE
  {
    if at < page * PAGE {
      SettledOnItsPage(pending, resolvable, page, at);
    } else {
      IdlePage(pending, resolvable, page);
      SweepReachesTheOldest(pending, resolvable, page + 1, at);
    }
  }

  function Resolvables(s: seq<Bet>, resolvable: Bet -> bool): set<Bet> {
    set b | b in s && resolvable(b)
  }

  function OldestResolvable(s: seq<Bet>, resolvable: Bet -> bool): (at: nat)
    requires exists b :: b in s && resolvable(b)
    ensures at < |s| && resolvable(s[at]) && NoneBefore(s, resolvable, at)
  {
    if resolvable(s[0]) then 0 else
      assert s == [s[0]] + s[1..];
      1 + OldestResolvable(s[1..], resolvable)
  }

  lemma JoinNoDuplicates(a: seq<Bet>, b: seq<Bet>)
    requires NoDuplicates(a) && NoDuplicates(b) && forall x | x in b :: x !in a
    ensures NoDuplicates(a + b)
  {
    forall i, j | 0 <= i < j < |a + b| ensures (a + b)[i] != (a + b)[j] {
      if i < |a| <= j { assert b[j - |a|] in b; }
    }
  }

  lemma {:induction false} DropNoDuplicates(s: seq<Bet>, resolvable: Bet -> bool)
    requires NoDuplicates(s)
    ensures NoDuplicates(Drop(s, resolvable))
  {
    if s != [] {
      DropNoDuplicates(s[1..], resolvable);
      var rest := Drop(s[1..], resolvable);
      forall b | b in rest ensures b in s[1..] { DropKeeps(s[1..], resolvable, b); }
      JoinNoDuplicates(if resolvable(s[0]) then [] else [s[0]], rest);
    }
  }

  lemma PageNoDuplicates(pending: seq<Bet>, resolvable: Bet -> bool, start: nat, end: nat)
    requires NoDuplicates(pending) && start <= end <= |pending|
    ensures NoDuplicates(AfterPage(pending, resolvable, start, end))
  {
    var kept := Drop(pending[start..end], resolvable);
    DropNoDuplicates(pending[start..end], resolvable);
    forall b | b in kept ensures b in pending[start..end] { DropKeeps(pending[start..end], resolvable, b); }
    JoinNoDuplicates(pending[..start], kept);
    JoinNoDuplicates(pending[..start] + kept, pending[end..]);
  }

  lemma {:induction false} SweepNoDuplicates(pending: seq<Bet>, resolvable: Bet -> bool, page: nat)
    requires page > 0 && NoDuplicates(pending)
    ensures NoDuplicates(SweepFrom(pending, resolvable, page))
    decreases |pending| - (page - 1) * PAGE
  {
    var start := (page - 1) * PAGE;
    if start < |pending| {
      var end := Min(start + PAGE, |pending|);
      PageNoDuplicates(pending, resolvable, start, end);
      if end - start >= PAGE { SweepNoDuplicates(AfterPage(pending, resolvable, start, end), resolvable, page + 1); }
    }
  }

  /** While anything is resolvable, a sweep settles something. */
  lemma SweepMakesProgress(pending: seq<Bet>, resolvable: Bet -> bool)
    requires NoDuplicates(pending)
    ensures var left := SweepFrom(pending, resolvable, 1);
            Resolvables(pending, resolvable) != {} ==> Resolvables(left, resolvable) < Resolvables(pending, resolvable)
  {
    if Resolvables(pending, resolvable) != {} {
      var b :| b in Resolvables(pending, resolvable);
      var at := OldestResolvable(pending, resolvable);
      forall b | b in SweepFrom(pending, resolvable, 1) ensures b in pending {
        SweepAddsNothing(pending, resolvable, 1, b);
      }
      SweepReachesTheOldest(pending, resolvable, 1, at);
      assert pending[at] in Resolvables(pending, resolvable);
    }
  }

  function Sweeps(pending: seq<Bet>, resolvable: Bet -> bool, times: nat): seq<Bet>
    decreases times
  {
    if times == 0 then pending else Sweeps(SweepFrom(pending, resolvable, 1), resolvable, times - 1)
  }

  lemma SmallerSet(a: set<Bet>, b: set<Bet>)
    requires a < b
    ensures |a| < |b|
  {
    assert b == a + (b - a) && b - a != {};
  }

  lemma SweepLeavesFewer(pending: seq<Bet>, resolvable: Bet -> bool)
    requires NoDuplicates(pending)
    ensures var left := SweepFrom(pending, resolvable, 1);
            if Resolvables(pending, resolvable) == {} then Resolvables(left, resolvable) == {}
            else |Resolvables(left, resolvable)| < |Resolvables(pending, resolvable)|
  {
    var left := SweepFrom(pending, resolvable, 1);
    if Resolvables(pending, resolvable) == {} {
      forall b | b in left ensures b in pending { SweepAddsNothing(pending, resolvable, 1, b); }
      assert forall b | b in left :: b in pending && b !in Resolvables(pending, resolvable);
    } else {
      SweepMakesProgress(pending, resolvable);
      SmallerSet(Resolvables(left, resolvable), Resolvables(pending, resolvable));
    }
  }

  /** As many sweeps as there are resolvable bets leave none of them pending. */
  lemma {:induction false} EnoughSweepsSettleAll(pending: seq<Bet>, resolvable: Bet -> bool, times: nat)
    requires NoDuplicates(pending) && times >= |Resolvables(pending, resolvable)|
    ensures Resolvables(Sweeps(pending, resolvable, times), resolvable) == {}
    decreases times
  {
    if times > 0 {
      SweepLeavesFewer(pending, resolvable);
      SweepNoDuplicates(pending, resolvable, 1);
      EnoughSweepsSettleAll(SweepFrom(pending, resolvable, 1), resolvable, times - 1);
    }
  }

  lemma OnePageSettlesAll(pending: seq<Bet>, resolvable: Bet -> bool)
    requires |pending| <= PAGE
    ensures Resolvables(SweepFrom(pending, resolvable, 1), resolvable) == {}
  {
    if pending != [] {
      var rest := AfterPage(pending, resolvable, 0, |pending|);
      forall b | b in rest ensures !resolvable(b) { DropKeeps(pending[0..|pending|], resolvable, b); }
      assert SweepFrom(pending, resolvable, 1) == rest;
    }
  }

  lemma {:induction false} DropAll(s: seq<Bet>, resolvable: Bet -> bool)
    requires forall b :: resolvable(b)
    ensures Drop(s, resolvable) == []
  {
    if s != [] { DropAll(s[1..], resolvable); }
  }

  /** The bet that slips behind the advancing page when more than a page of bets is resolvable. */
  lemma SecondPageSlips(pending: seq<Bet>, resolvable: Bet -> bool)
    requires |pending| > PAGE && forall b :: resolvable(b)
    ensures pending[PAGE] in Resolvables(SweepFrom(pending, resolvable, 1), resolvable)
  {
    DropAll(pending[0..PAGE], resolvable);
    var rest := AfterPage(pending, resolvable, 0, PAGE);
    assert rest[0] == pending[PAGE];
    SweepKeepsBeforePage(rest, resolvable, 2, 0);
  }

  lemma {:induction false} SweepKeepsBeforePage(pending: seq<Bet>, resolvable: Bet -> bool, page: nat, i: nat)
    requires page > 0 && i < |pending| && i < (page - 1) * PAGE
    ensures pending[i] in SweepFrom(pending, resolvable, page)
    decreases |pending| - (page - 1) * PAGE
  {
    var start := (page - 1) * PAGE;
    if start < |pending| {
      var end := Min(start + PAGE, |pending|);
      assert pending[..start][i] == pending[i];
      PageKeeps(pending, resolvable, start, end, pending[i]);
      if end - start >= PAGE {
        SweepKeepsBeforePage(AfterPage(pending, resolvable, start, end), resolvable, page + 1, i);
      }
    }
  }

  /** One sweep is sure to settle everything resolvable exactly when the pending bets fit on one page. */
  lemma OneSweepSufficesExactly(pending: seq<Bet>)
    ensures |pending| <= 100 <==>
            forall resolvable: Bet -> bool :: Resolvables(SweepFrom(pending, resolvable, 1), resolvable) == {}
  {
    if |pending| <= PAGE {
      forall resolvable: Bet -> bool ensures Resolvables(SweepFrom(pending, resolvable, 1), resolvable) == {} {
        OnePageSettlesAll(pending, resolvable);
      }
    } else {
      var all: Bet -> bool := _ => true;
      SecondPageSlips(pending, all);
      assert Resolvables(SweepFrom(pending, all, 1), all) != {};
    }
  }

  // ---- Listings that fail, and what a pass visits ---------------------------------------------------------------

  /** As SweepFrom, stopping at the first page that cannot be listed. */
  function SweepWhile(pending: seq<Bet>, resolvable: Bet -> bool, lists: int -> bool, page: nat): seq<Bet>
    requires page > 0
    decreases |pending| - (page - 1) * PAGE
  {
    var start := (page - 1) * PAGE;
    if !lists(page) || start >= |pending| then pending
    else
      var end := Min(start + PAGE, |pending|);
      var rest := AfterPage(pending, resolvable, start, end);
      if end - start < PAGE then rest else SweepWhile(rest, resolvable, lists, page + 1)
  }

  lemma {:induction false} WorkingListingsSweepAll(pending: seq<Bet>, resolvable: Bet -> bool, lists: int -> bool,
                                                   page: nat)
    requires page > 0 && forall p :: lists(p)
    ensures SweepWhile(pending, resolvable, lists, page) == SweepFrom(pending, resolvable, page)
    decreases |pending| - (page - 1) * PAGE
  {
    var start := (page - 1) * PAGE;
    if start < |pending| {
      var end := Min(start + PAGE, |pending|);
      if end - start >= PAGE {
        WorkingListingsSweepAll(AfterPage(pending, resolvable, start, end), resolvable, lists, page + 1);
      }
    }
  }

  /** However listings fail, a pass adds no bet to the list and takes no unresolvable one off it. */
  lemma {:induction false} SweepWhileKeeps(pending: seq<Bet>, resolvable: Bet -> bool, lists: int -> bool, page: nat,
                                           b: Bet)
    requires page > 0
    ensures b in SweepWhile(pending, resolvable, lists, page) ==> b in pending
    ensures b in pending && !resolvable(b) ==> b in SweepWhile(pending, resolvable, lists, page)
    decreases |pending| - (page - 1) * PAGE
  {
    var start := (page - 1) * PAGE;
    if lists(page) && start < |pending| {
      var end := Min(start + PAGE, |pending|);
      PageKeeps(pending, resolvable, start, end, b);
      if end - start >= PAGE {
        SweepWhileKeeps(AfterPage(pending, resolvable, start, end), resolvable, lists, page + 1, b);
      }
    }
  }

  /** The bets a pass looks at, in order. */
  function Visited(pending: seq<Bet>, resolvable: Bet -> bool, page: nat): seq<Bet>
    requires page > 0
    decreases |pending| - (page - 1) * PAGE
  {
    var start := (page - 1) * PAGE;
    if start >= |pending| then []
    else
      var end := Min(start + PAGE, |pending|);
      pending[start..end]
      + if end - start < PAGE then []
        else Visited(AfterPage(pending, resolvable, start, end), resolvable, page + 1)
  }

  lemma BeyondThePage(pending: seq<Bet>, resolvable: Bet -> bool, start: nat, end: nat, b: Bet)
    requires start <= end <= |pending| && end <= |AfterPage(pending, resolvable, start, end)|
    ensures b in AfterPage(pending, resolvable, start, end)[end..] ==> b in pending[end..]
  {
    var front := pending[..start] + Drop(pending[start..end], resolvable);
    var rest := AfterPage(pending, resolvable, start, end);
    assert rest == front + pending[end..] && |front| <= end;
    if b in rest[end..] {
      var i :| 0 <= i < |rest[end..]| && rest[end..][i] == b;
      assert pending[end..][end + i - |front|] == b;
    }
  }

  lemma InSuffix(s: seq<Bet>, start: nat, end: nat, b: Bet)
    requires start <= end <= |s|
    ensures b in s[start..end] || b in s[end..] ==> b in s[start..]
  {
    assert s[start..] == s[start..end] + s[end..];
  }

  lemma RestIsNotLonger(pending: seq<Bet>, resolvable: Bet -> bool, start: nat, end: nat)
    requires start <= end <= |pending|
    ensures |AfterPage(pending, resolvable, start, end)| <= |pending|
  {
  }

  /** The list from a page's first position on. */
  function Ahead(s: seq<Bet>, page: nat): seq<Bet>
    requires page > 0
  {
    if (page - 1) * PAGE <= |s| then s[(page - 1) * PAGE..] else []
  }

  function OnPage(s: seq<Bet>, page: nat): seq<Bet>
    requires page > 0
  {
    if (page - 1) * PAGE <= |s| then s[(page - 1) * PAGE..Min(page * PAGE, |s|)] else []
  }

  /** The list after a full page has been settled. */
  function NextList(s: seq<Bet>, resolvable: Bet -> bool, page: nat): seq<Bet>
    requires page > 0
  {
    if page * PAGE <= |s| then AfterPage(s, resolvable, (page - 1) * PAGE, page * PAGE) else []
  }

  lemma VisitedHere(pending: seq<Bet>, resolvable: Bet -> bool, page: nat, b: Bet)
    requires page > 0 && b in Visited(pending, resolvable, page) && b !in OnPage(pending, page)
    ensures page * PAGE <= |pending| && b in Visited(NextList(pending, resolvable, page), resolvable, page + 1)
  {
  }

  lemma OnPageIsAhead(s: seq<Bet>, page: nat, b: Bet)
    requires page > 0 && b in OnPage(s, page)
    ensures b in Ahead(s, page)
  {
    InSuffix(s, (page - 1) * PAGE, Min(page * PAGE, |s|), b);
  }

  lemma AheadBefore(s: seq<Bet>, resolvable: Bet -> bool, page: nat, b: Bet)
    requires page > 0 && page * PAGE <= |s| && b in Ahead(NextList(s, resolvable, page), page + 1)
    ensures b in Ahead(s, page) && b in s[page * PAGE..]
  {
    BeyondThePage(s, resolvable, (page - 1) * PAGE, page * PAGE, b);
    InSuffix(s, (page - 1) * PAGE, page * PAGE, b);
  }

  lemma {:induction false} VisitsLieAhead(pending: seq<Bet>, resolvable: Bet -> bool, page: nat, b: Bet)
    requires page > 0 && b in Visited(pending, resolvable, page)
    ensures b in Ahead(pending, page)
    decreases |pending| - (page - 1) * PAGE
  {
    if b in OnPage(pending, page) {
      OnPageIsAhead(pending, page, b);
    } else {
      VisitedHere(pending, resolvable, page, b);
      RestIsNotLonger(pending, resolvable, (page - 1) * PAGE, page * PAGE);
      VisitsLieAhead(NextList(pending, resolvable, page), resolvable, page + 1, b);
      AheadBefore(pending, resolvable, page, b);
    }
  }

  /** What lies ahead after a page is not on it. */
  lemma AheadDiffers(pending: seq<Bet>, resolvable: Bet -> bool, page: nat, b: Bet)
    requires page > 0 && page * PAGE <= |pending| && NoDuplicates(pending)
    requires b in Ahead(NextList(pending, resolvable, page), page + 1)
    ensures b !in OnPage(pending, page)
  {
    AheadBefore(pending, resolvable, page, b);
    ApartPages(pending, (page - 1) * PAGE, page * PAGE, b);
  }

  lemma SliceNoDuplicates(s: seq<Bet>, start: nat, end: nat)
    requires NoDuplicates(s) && start <= end <= |s|
    ensures NoDuplicates(s[start..end])
  {
  }

  lemma VisitedUnfolds(pending: seq<Bet>, resolvable: Bet -> bool, page: nat)
    requires page > 0
    ensures Visited(pending, resolvable, page)
            == OnPage(pending, page)
               + if page * PAGE <= |pending| then Visited(NextList(pending, resolvable, page), resolvable, page + 1)
                 else []
  {
  }

  lemma LaterVisitsDiffer(pending: seq<Bet>, resolvable: Bet -> bool, page: nat)
    requires page > 0 && page * PAGE <= |pending| && NoDuplicates(pending)
    ensures forall b | b in Visited(NextList(pending, resolvable, page), resolvable, page + 1) ::
              b !in OnPage(pending, page)
  {
    forall b | b in Visited(NextList(pending, resolvable, page), resolvable, page + 1)
      ensures b !in OnPage(pending, page)
    {
      VisitsLieAhead(NextList(pending, resolvable, page), resolvable, page + 1, b);
      AheadDiffers(pending, resolvable, page, b);
    }
  }

  lemma PagesNoDuplicates(pending: seq<Bet>, resolvable: Bet -> bool, page: nat)
    requires page > 0 && page * PAGE <= |pending| && NoDuplicates(pending)
    ensures NoDuplicates(OnPage(pending, page)) && NoDuplicates(NextList(pending, resolvable, page))
    ensures |NextList(pending, resolvable, page)| <= |pending|
  {
    SliceNoDuplicates(pending, (page - 1) * PAGE, page * PAGE);
    PageNoDuplicates(pending, resolvable, (page - 1) * PAGE, page * PAGE);
    RestIsNotLonger(pending, resolvable, (page - 1) * PAGE, page * PAGE);
  }

  lemma LastVisits(pending: seq<Bet>, resolvable: Bet -> bool, page: nat)
    requires page > 0 && page * PAGE > |pending| && NoDuplicates(pending)
    ensures NoDuplicates(Visited(pending, resolvable, page))
  {
    VisitedUnfolds(pending, resolvable, page);
    if (page - 1) * PAGE <= |pending| { SliceNoDuplicates(pending, (page - 1) * PAGE, |pending|); }
    assert OnPage(pending, page) + [] == OnPage(pending, page);
  }

  /** A pass looks at no bet twice, so what feed and stores answer in it can be told bet by bet. */
  lemma {:induction false} VisitsOnce(pending: seq<Bet>, resolvable: Bet -> bool, page: nat)
    requires page > 0 && NoDuplicates(pending)
    ensures NoDuplicates(Visited(pending, resolvable, page))
    decreases |pending| - (page - 1) * PAGE
  {
    if page * PAGE <= |pending| {
      PagesNoDuplicates(pending, resolvable, page);
      VisitsOnce(NextList(pending, resolvable, page), resolvable, page + 1);
      LaterVisitsDiffer(pending, resolvable, page);
      JoinNoDuplicates(OnPage(pending, page), Visited(NextList(pending, resolvable, page), resolvable, page + 1));
      VisitedUnfolds(pending, resolvable, page);
    } else {
      LastVisits(pending, resolvable, page);
    }
  }

  lemma ApartPages(s: seq<Bet>, start: nat, end: nat, b: Bet)
    requires NoDuplicates(s) && start <= end <= |s| && b in s[end..]
    ensures b !in s[start..end]
  {
    var j :| 0 <= j < |s[end..]| && s[end..][j] == b;
    assert s[end + j] == b;
  }

  // ---- Which bets one pass settles ------------------------------------------------------------------------------

  function Settling(s: seq<Bet>, resolvable: Bet -> bool): nat {
    |s| - |Drop(s, resolvable)|
  }

  /** The bets a pass looks at, told on the list as it stood before: a page at a time, and after each page as many bets
      are passed over as were settled on it. */
  function Windows(pending: seq<Bet>, resolvable: Bet -> bool): seq<Bet>
    decreases |pending|
  {
    if |pending| < PAGE then pending
    else pending[..PAGE] + Windows(pending[NextWindow(pending, resolvable)..], resolvable)
  }

  lemma AheadAfterPage(s: seq<Bet>, resolvable: Bet -> bool, start: nat, end: nat)
    requires start <= end <= |s|
    ensures var rest := AfterPage(s, resolvable, start, end);
            var next := Min(|s| - start, end - start + Settling(s[start..end], resolvable));
            if end <= |rest| then rest[end..] == s[start..][next..] else s[start..][next..] == []
  {
    var front := s[..start] + Drop(s[start..end], resolvable);
    var k := Settling(s[start..end], resolvable);
    assert AfterPage(s, resolvable, start, end) == front + s[end..] && |front| == end - k;
    if end + k <= |s| {
      assert (front + s[end..])[end..] == s[end + k..];
      assert s[start..][end - start + k..] == s[end + k..];
    }
  }

  /** Pages of the shrinking list are windows of the list as it stood. */
  lemma {:induction false} VisitsAreWindows(pending: seq<Bet>, resolvable: Bet -> bool, page: nat)
    requires page > 0
    ensures Visited(pending, resolvable, page) == Windows(Ahead(pending, page), resolvable)
    decreases |pending| - (page - 1) * PAGE
  {
    VisitedUnfolds(pending, resolvable, page);
    PageOpensAhead(pending, page);
    if page * PAGE <= |pending| {
      RestIsNotLonger(pending, resolvable, (page - 1) * PAGE, page * PAGE);
      VisitsAreWindows(NextList(pending, resolvable, page), resolvable, page + 1);
      NextAhead(pending, resolvable, page);
      WindowsUnfold(Ahead(pending, page), resolvable);
    }
  }

  lemma PageOpensAhead(pending: seq<Bet>, page: nat)
    requires page > 0
    ensures var ahead := Ahead(pending, page);
            if page * PAGE <= |pending| then |ahead| >= PAGE && OnPage(pending, page) == ahead[..PAGE]
            else |ahead| < PAGE && OnPage(pending, page) + [] == ahead
  {
  }

  /** Where the next window opens. */
  function NextWindow(s: seq<Bet>, resolvable: Bet -> bool): (next: nat)
    requires |s| >= PAGE
    ensures PAGE <= next <= |s|
  {
    Min(|s|, PAGE + Settling(s[..PAGE], resolvable))
  }

  lemma NextAhead(pending: seq<Bet>, resolvable: Bet -> bool, page: nat)
    requires page > 0 && page * PAGE <= |pending| && |Ahead(pending, page)| >= PAGE
    ensures Ahead(NextList(pending, resolvable, page), page + 1)
            == Ahead(pending, page)[NextWindow(Ahead(pending, page), resolvable)..]
  {
    var start := (page - 1) * PAGE;
    AheadAfterPage(pending, resolvable, start, page * PAGE);
    assert pending[start..page * PAGE] == Ahead(pending, page)[..PAGE];
  }

  lemma WindowsUnfold(s: seq<Bet>, resolvable: Bet -> bool)
    requires |s| >= PAGE
    ensures Windows(s, resolvable) == s[..PAGE] + Windows(s[NextWindow(s, resolvable)..], resolvable)
  {
  }

  lemma NotYetVisited(pending: seq<Bet>, resolvable: Bet -> bool, page: nat, b: Bet)
    requires page > 0 && NoDuplicates(pending) && page * PAGE <= |pending|
    requires b in pending && b !in OnPage(pending, page)
    ensures b in NextList(pending, resolvable, page)
  {
    var start, end := (page - 1) * PAGE, page * PAGE;
    Rejoin(pending, start, end);
    PageKeeps(pending, resolvable, start, end, b);
  }

  lemma SettledWhenOnPage(pending: seq<Bet>, resolvable: Bet -> bool, page: nat, b: Bet)
    requires page > 0 && NoDuplicates(pending) && b in OnPage(pending, page) && resolvable(b)
    ensures b !in SweepFrom(pending, resolvable, page)
  {
    var at := PositionOnPage(pending, page, b);
    SettledOnItsPage(pending, resolvable, page, at);
  }

  lemma PositionOnPage(pending: seq<Bet>, page: nat, b: Bet) returns (at: nat)
    requires page > 0 && b in OnPage(pending, page)
    ensures (page - 1) * PAGE <= at < page * PAGE && at < |pending| && pending[at] == b
  {
    var i :| 0 <= i < |OnPage(pending, page)| && OnPage(pending, page)[i] == b;
    at := (page - 1) * PAGE + i;
  }

  lemma SweepUnfolds(pending: seq<Bet>, resolvable: Bet -> bool, page: nat)
    requires page > 0 && page * PAGE <= |pending|
    ensures SweepFrom(pending, resolvable, page) == SweepFrom(NextList(pending, resolvable, page), resolvable, page + 1)
  {
  }

  /** A sweep settles the resolvable bets it looks at, and no others. */
  lemma {:induction false} SettlesWhatItVisits(pending: seq<Bet>, resolvable: Bet -> bool, page: nat, b: Bet)
    requires page > 0 && NoDuplicates(pending) && b in pending && resolvable(b)
    ensures b in SweepFrom(pending, resolvable, page) <==> b !in Visited(pending, resolvable, page)
    decreases |pending| - (page - 1) * PAGE
  {
    VisitedUnfolds(pending, resolvable, page);
    if b in OnPage(pending, page) {
      SettledWhenOnPage(pending, resolvable, page, b);
    } else if page * PAGE <= |pending| {
      NotYetVisited(pending, resolvable, page, b);
      PagesNoDuplicates(pending, resolvable, page);
      SweepUnfolds(pending, resolvable, page);
      SettlesWhatItVisits(NextList(pending, resolvable, page), resolvable, page + 1, b);
    } else {
      LeftOnLastPage(pending, resolvable, page, b);
    }
  }

  lemma LeftOnLastPage(pending: seq<Bet>, resolvable: Bet -> bool, page: nat, b: Bet)
    requires page > 0 && page * PAGE > |pending| && b in pending && b !in OnPage(pending, page)
    ensures b in SweepFrom(pending, resolvable, page)
  {
    var start := (page - 1) * PAGE;
    if start < |pending| {
      Rejoin(pending, start, |pending|);
      PageKeeps(pending, resolvable, start, |pending|, b);
    }
  }

  /** For every list and every feed: what is pending after one sweep is exactly what was pending and was unresolvable or
      passed over between the windows. */
  lemma OneSweepLeavesExactly(pending: seq<Bet>, resolvable: Bet -> bool, b: Bet)
    requires NoDuplicates(pending)
    ensures b in SweepFrom(pending, resolvable, 1)
            <==> b in pending && (resolvable(b) ==> b !in Windows(pending, resolvable))
  {
    SweepAddsNothing(pending, resolvable, 1, b);
    if b in pending {
      if resolvable(b) {
        SettlesWhatItVisits(pending, resolvable, 1, b);
        VisitsAreWindows(pending, resolvable, 1);
        assert Ahead(pending, 1) == pending;
      } else {
        SweepKeepsUnresolvable(pending, resolvable, 1, b);
      }
    }
  }
}
