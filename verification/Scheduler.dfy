/** The scheduler's settlement pass over the pending bets. */
module Scheduler {
  import opened Basics
  import opened Bets
  import opened BetOrder
  import opened BetStore
  import opened Sweep
  import S = Sportsbook

  lemma RemoveOne(bets: set<Bet>, x: seq<Bet>, b: Bet, y: seq<Bet>)
    requires multiset(x + [b] + y) == multiset(bets)
    ensures b in bets && multiset(x + y) == multiset(bets - {b})
  {
    assert multiset(x + [b] + y) == multiset(x + y) + multiset{b};
    assert b in multiset(bets);
    assert multiset(x + y) == multiset(bets) - multiset{b};
    assert multiset(bets) - multiset{b} == multiset(bets - {b});
  }

  lemma ListingWithout(bets: set<Bet>, x: seq<Bet>, b: Bet, y: seq<Bet>)
    requires Keyed(bets) && Listing(bets) == x + [b] + y
    ensures Listing(bets - {b}) == x + y
  {
    ListingFacts(bets);
    RemoveOne(bets, x, b, y);
    OrderedWithout(x, b, y);
    ListingIs(bets - {b}, x + y);
  }

  lemma OrderedWithout(x: seq<Bet>, b: Bet, y: seq<Bet>)
    requires Ordered(x + [b] + y, Older)
    ensures Ordered(x + y, Older)
  {
    var s, t := x + [b] + y, x + y;
    forall i, j | 0 <= i < j < |t| ensures !Older(t[j], t[i]) {
      var i', j' := if i < |x| then i else i + 1, if j < |x| then j else j + 1;
      assert t[i] == s[i'] && t[j] == s[j'];
    }
  }

  lemma {:induction false} DropLast(s: seq<Bet>, b: Bet, resolvable: Bet -> bool)
    ensures Drop(s + [b], resolvable) == Drop(s, resolvable) + if resolvable(b) then [] else [b]
  {
    if s == [] {
      assert [] + [b] == [b] && [b][1..] == [];
    } else {
      assert (s + [b])[1..] == s[1..] + [b];
      DropLast(s[1..], b, resolvable);
    }
  }

  lemma ListedIsPending(bets: map<string, Bet>, b: Bet, x: seq<Bet>, y: seq<Bet>)
    requires forall id | id in bets :: bets[id].id == id
    requires PendingList(bets) == x + [b] + y
    ensures b.id in bets && bets[b.id] == b && b.status == Pending
  {
    ListingMember(PendingSet(bets), b);
  }

  /** A bet that did not lose has its payment recorded, if neither call for that fails. */
  predicate Credited(after: Bet, calls: S.SettleCalls) {
    after.status != Lost && !calls.credit.fails && !calls.record.fails ==> after.creditTx.Some?
  }

  /** This bet got the verdict's status and every other bet stayed. */
  ghost predicate SettledOnly(before: map<string, Bet>, after: map<string, Bet>, b: Bet, verdict: Verdict,
                              calls: S.SettleCalls)
  {
    && b.id in before && before[b.id] == b && b.status == Pending && after.Keys == before.Keys
    && (forall id | id in before && id != b.id :: after[id] == before[id])
    && after[b.id].status == StatusOf(verdict) && SameTerms(b, after[b.id]) && Credited(after[b.id], calls)
  }

  /** Settling one listed bet takes it, and nothing else, off the list. */
  lemma SettlingUnlists(before: map<string, Bet>, after: map<string, Bet>, b: Bet, verdict: Verdict,
                        calls: S.SettleCalls, x: seq<Bet>, y: seq<Bet>)
    requires forall id | id in before :: before[id].id == id
    requires PendingList(before) == x + [b] + y && SettledOnly(before, after, b, verdict, calls)
    ensures PendingList(after) == x + y
  {
    assert PendingSet(after) == PendingSet(before) - {b};
    ListingWithout(PendingSet(before), x, b, y);
  }

  /** What one pass through the outer loop makes of the list. */
  lemma SweepPage(list: seq<Bet>, resolvable: Bet -> bool, lists: int -> bool, page: nat)
    requires page > 0 && lists(page)
    ensures var start := (page - 1) * PAGE;
            var bets := Page(list, page, PAGE);
            if bets == [] then SweepWhile(list, resolvable, lists, page) == list
            else
              && start + |bets| <= |list| && list == list[..start] + bets + list[start + |bets|..]
              && var rest := list[..start] + Drop(bets, resolvable) + list[start + |bets|..];
                 |rest| <= |list| && start < |list|
                 && SweepWhile(list, resolvable, lists, page)
                    == if |bets| < PAGE then rest else SweepWhile(rest, resolvable, lists, page + 1)
  {
    var start := (page - 1) * PAGE;
    if start < |list| {
      var end := Min(start + PAGE, |list|);
      assert Page(list, page, PAGE) == list[start..end];
      assert list == list[..start] + list[start..end] + list[end..];
    }
  }

  lemma SplitNext(front: seq<Bet>, bets: seq<Bet>, y: seq<Bet>, i: nat)
    requires i < |bets|
    ensures front + (bets[i..] + y) == front + [bets[i]] + (bets[i + 1..] + y)
  {
    assert bets[i..] == [bets[i]] + bets[i + 1..];
  }

  lemma Regroup(x: seq<Bet>, a: seq<Bet>, b: seq<Bet>, back: seq<Bet>)
    ensures (x + a) + b + back == x + (a + b) + back
  {
  }

  lemma NextOnPage(x: seq<Bet>, bets: seq<Bet>, y: seq<Bet>, i: nat, resolvable: Bet -> bool)
    requires i < |bets|
    ensures var front, back := x + Drop(bets[..i], resolvable), bets[i + 1..] + y;
            && front + (bets[i..] + y) == front + [bets[i]] + back
            && front + (if resolvable(bets[i]) then [] else [bets[i]]) + back
               == x + Drop(bets[..i + 1], resolvable) + back
  {
    var kept := if resolvable(bets[i]) then [] else [bets[i]];
    SplitNext(x + Drop(bets[..i], resolvable), bets, y, i);
    DropLast(bets[..i], bets[i], resolvable);
    assert bets[..i + 1] == bets[..i] + [bets[i]];
    Regroup(x, Drop(bets[..i], resolvable), kept, bets[i + 1..] + y);
  }

  lemma EmptyBetween(a: seq<Bet>, none: seq<Bet>, y: seq<Bet>)
    requires none == []
    ensures a + (none + y) == a + y
  {
    assert none + y == y;
  }

  lemma PageOpens(x: seq<Bet>, bets: seq<Bet>, y: seq<Bet>, resolvable: Bet -> bool)
    ensures x + Drop(bets[..0], resolvable) == x && bets[0..] == bets && x + (bets + y) == x + bets + y
  {
    assert bets[0..] == bets && bets[..0] == [];
    assert x + Drop([], resolvable) == x;
    assert x + (bets + y) == x + bets + y;
  }

  lemma PageCloses(x: seq<Bet>, bets: seq<Bet>, y: seq<Bet>, resolvable: Bet -> bool)
    ensures x + Drop(bets[..|bets|], resolvable) + (bets[|bets|..] + y) == x + Drop(bets, resolvable) + y
  {
    WholePage(bets);
    EmptyBetween(x + Drop(bets, resolvable), bets[|bets|..], y);
  }

  lemma WholePage(bets: seq<Bet>)
    ensures bets[..|bets|] == bets && bets[|bets|..] == []
  {
  }

  /** A bet is as it was, or it was pending, resolved, and now has the status of its verdict. */
  predicate SweptOrSame(before: Bet, after: Bet, feed: Bet -> S.Feed, calls: string -> S.SettleCalls) {
    || after == before
    || (before.status == Pending && SameTerms(before, after) && Credited(after, calls(before.id))
        && var resolved := S.Resolve(feed(before), before.market, before.outcome);
           resolved.Ok? && resolved.value.Some? && after.status == StatusOf(resolved.value.value))
  }

  /** A bet is as it was, or it was pending and has the status the feed gives its outcome. */
  ghost predicate SweptAsSaid(before: Bet, after: Bet, feed: Bet -> S.Feed, calls: string -> S.SettleCalls) {
    || after == before
    || (before.status == Pending && SameTerms(before, after) && Credited(after, calls(before.id))
        && (|| (after.status == Won && S.Says(feed(before), before.market, before.outcome, "won"))
            || (after.status == Lost && S.Says(feed(before), before.market, before.outcome, "lost"))
            || (after.status == Cancelled && S.Says(feed(before), before.market, before.outcome, "cancelled"))))
  }

  lemma SweptIsSaid(before: Bet, after: Bet, feed: Bet -> S.Feed, calls: string -> S.SettleCalls)
    requires SweptOrSame(before, after, feed, calls)
    ensures SweptAsSaid(before, after, feed, calls)
  {
    S.ResolveTells(feed(before), before.market, before.outcome);
  }

  ghost predicate AllSwept(before: map<string, Bet>, after: map<string, Bet>, feed: Bet -> S.Feed,
                           calls: string -> S.SettleCalls)
  {
    after.Keys == before.Keys && forall id | id in before :: SweptOrSame(before[id], after[id], feed, calls)
  }

  /** Settling a bet the pass has not touched yet keeps the pass's account. */
  lemma SweptStep(initial: map<string, Bet>, before: map<string, Bet>, after: map<string, Bet>, b: Bet,
                  verdict: Verdict, feed: Bet -> S.Feed, calls: string -> S.SettleCalls)
    requires AllSwept(initial, before, feed, calls) && SettledOnly(before, after, b, verdict, calls(b.id))
    requires S.Resolve(feed(b), b.market, b.outcome) == Ok(Some(verdict))
    ensures AllSwept(initial, after, feed, calls)
  {
    forall id | id in initial ensures SweptOrSame(initial[id], after[id], feed, calls) {
      assert SweptOrSame(initial[id], before[id], feed, calls);
    }
  }

  lemma JoinEmpty(x: seq<Bet>, y: seq<Bet>)
    ensures x + [] + y == x + y
  {
  }

  lemma ListedSettled(initial: map<string, Bet>, before: map<string, Bet>, after: map<string, Bet>, b: Bet,
                      verdict: Verdict, x: seq<Bet>, y: seq<Bet>, feed: Bet -> S.Feed,
                      calls: string -> S.SettleCalls)
    requires forall id | id in before :: before[id].id == id
    requires AllSwept(initial, before, feed, calls) && SettledOnly(before, after, b, verdict, calls(b.id))
    requires PendingList(before) == x + [b] + y
    requires S.Resolve(feed(b), b.market, b.outcome) == Ok(Some(verdict))
    ensures AllSwept(initial, after, feed, calls) && PendingList(after) == x + [] + y
  {
    SettlingUnlists(before, after, b, verdict, calls(b.id), x, y);
    SweptStep(initial, before, after, b, verdict, feed, calls);
    JoinEmpty(x, y);
  }

  function TextOf(verdict: Verdict): (status: string)
    ensures S.VerdictOf(status) == Some(verdict)
  {
    match verdict case Wins => "won" case Loses => "lost" case Voided => "cancelled"
  }

  /** The bets a pass settles: the feed resolves the bet, and neither reading nor marking it fails. */
  function Settleable(feed: Bet -> S.Feed, calls: string -> S.SettleCalls): Bet -> bool {
    (b: Bet) => S.Resolvable(feed)(b) && !calls(b.id).read.fails && !calls(b.id).mark.fails
  }

  /** The listed bets are different bets. */
  lemma PendingListNoDuplicates(bets: map<string, Bet>)
    requires forall id | id in bets :: bets[id].id == id
    ensures NoDuplicates(PendingList(bets))
  {
    ListingFacts(PendingSet(bets));
    DistinctIdsOf(PendingSet(bets), PendingList(bets));
  }

  /** No pending bet of the store can be resolved. */
  ghost predicate NothingToSettle(bets: map<string, Bet>, resolvable: Bet -> bool) {
    forall id | id in bets :: bets[id].status == Pending ==> !resolvable(bets[id])
  }

  lemma EmptyListSettled(bets: map<string, Bet>, resolvable: Bet -> bool)
    requires Resolvables(PendingList(bets), resolvable) == {}
    ensures NothingToSettle(bets, resolvable)
  {
    forall id | id in bets && bets[id].status == Pending ensures !resolvable(bets[id]) {
      ListingMember(PendingSet(bets), bets[id]);
      assert bets[id] in PendingList(bets);
      assert bets[id] !in Resolvables(PendingList(bets), resolvable);
    }
  }

  /** When nothing fails, what is settleable is what the feed resolves. */
  lemma WorkingPass(list: seq<Bet>, feed: Bet -> S.Feed, calls: string -> S.SettleCalls, lists: int -> bool)
    requires (forall p :: lists(p)) && forall id :: !calls(id).read.fails && !calls(id).mark.fails
    ensures SweepWhile(list, Settleable(feed, calls), lists, 1) == SweepFrom(list, S.Resolvable(feed), 1)
  {
    WorkingListingsSweepAll(list, Settleable(feed, calls), lists, 1);
    SameSweep(list, Settleable(feed, calls), S.Resolvable(feed), 1);
  }

  lemma {:induction false} SameDrop(s: seq<Bet>, f: Bet -> bool, g: Bet -> bool)
    requires forall b :: f(b) == g(b)
    ensures Drop(s, f) == Drop(s, g)
  {
    if s != [] { SameDrop(s[1..], f, g); }
  }

  lemma {:induction false} SameSweep(list: seq<Bet>, f: Bet -> bool, g: Bet -> bool, page: nat)
    requires page > 0 && forall b :: f(b) == g(b)
    ensures SweepFrom(list, f, page) == SweepFrom(list, g, page)
    decreases |list| - (page - 1) * PAGE
  {
    var start := (page - 1) * PAGE;
    if start < |list| {
      var end := Min(start + PAGE, |list|);
      SameDrop(list[start..end], f, g);
      if end - start >= PAGE { SameSweep(AfterPage(list, f, start, end), f, g, page + 1); }
    }
  }

  class Scheduler {
    const svc: S.Service

    constructor (svc: S.Service)
      ensures this.svc == svc
    {
      this.svc := svc;
    }

    method ResolveOutcomeStatus(feed: S.Feed, market: string, outcome: string)
      returns (r: Result<Option<Verdict>, S.Error>)
      ensures r == S.Resolve(feed, market, outcome) && S.Resolves(feed, market, outcome, r)
    {
      S.ResolveTells(feed, market, outcome);
      if feed.event.EventFailed? {
        return Err(S.EventFailure);
      }
      if feed.event.NoEvent? {
        return Err(S.EventNotFound);
      }
      if feed.markets.None? {
        return Err(S.MarketsFailed);
      }
      if market !in feed.markets.value {
        return Err(S.MarketNotFound);
      }
      if feed.outcomes.None? {
        return Err(S.OutcomesFailed);
      }
      var offer := S.FindOffer(feed.outcomes.value, outcome);
      if offer.None? {
        return Err(S.OutcomeNotFound);
      }
      r := Ok(S.VerdictOf(offer.value.status));
    }

    /** One pass. Any listing, read, write or wallet call may fail. A pass looks at no bet twice, so feed and calls
        are given bet by bet, and listings page by page. */
    method RunOnce(feed: Bet -> S.Feed, calls: string -> S.SettleCalls, lists: int -> bool)
      requires svc.Valid()
      modifies svc.store, svc.wallet
      ensures svc.Valid()
      ensures PendingList(svc.store.bets)
              == SweepWhile(PendingList(old(svc.store.bets)), Settleable(feed, calls), lists, 1)
      ensures AllSwept(old(svc.store.bets), svc.store.bets, feed, calls)
      ensures forall id | id in old(svc.store.bets) ::
                id in svc.store.bets && SweptAsSaid(old(svc.store.bets)[id], svc.store.bets[id], feed, calls)
      ensures S.KeepsBooks(old(svc.store.bets), old(svc.wallet.Model()), svc.store.bets, svc.wallet.Model())
    {
      ghost var initial := svc.store.bets;
      ghost var list := PendingList(svc.store.bets);
      var page := 1;
      var more := true;
      while more
        invariant page >= 1 && svc.Valid() && AllSwept(initial, svc.store.bets, feed, calls)
        invariant list == PendingList(svc.store.bets)
        invariant SweepWhile(PendingList(initial), Settleable(feed, calls), lists, 1)
               == if more then SweepWhile(list, Settleable(feed, calls), lists, page) else list
        invariant S.KeepsBooks(old(svc.store.bets), old(svc.wallet.Model()), svc.store.bets, svc.wallet.Model())
        decreases more, |list| - (page - 1) * PAGE
      {
        ghost var bets, model := svc.store.bets, svc.wallet.Model();
        more := SweepOnePage(page, feed, calls, lists, initial);
        S.KeepsBooksTwice(old(svc.store.bets), old(svc.wallet.Model()), bets, model, svc.store.bets,
                          svc.wallet.Model());
        list := PendingList(svc.store.bets);
        page := page + 1;
      }
      forall id | id in initial
        ensures id in svc.store.bets && SweptAsSaid(initial[id], svc.store.bets[id], feed, calls)
      {
        SweptIsSaid(initial[id], svc.store.bets[id], feed, calls);
      }
    }

    /** The scheduler's ticks, while the feed stays fixed and listings, reads and writes work: as many passes as there
        are resolvable pending bets settle them all. */
    method RunRepeatedly(times: nat, feed: Bet -> S.Feed, calls: nat -> string -> S.SettleCalls, lists: int -> bool)
      requires svc.Valid() && (forall p :: lists(p))
      requires forall i, id :: !calls(i)(id).read.fails && !calls(i)(id).mark.fails
      modifies svc.store, svc.wallet
      ensures svc.Valid()
      ensures PendingList(svc.store.bets) == Sweeps(PendingList(old(svc.store.bets)), S.Resolvable(feed), times)
      ensures times >= |Resolvables(PendingList(old(svc.store.bets)), S.Resolvable(feed))| ==>
                NothingToSettle(svc.store.bets, S.Resolvable(feed))
      ensures S.KeepsBooks(old(svc.store.bets), old(svc.wallet.Model()), svc.store.bets, svc.wallet.Model())
    {
      ghost var initial := PendingList(svc.store.bets);
      PendingListNoDuplicates(svc.store.bets);
      for i := 0 to times
        invariant svc.Valid()
        invariant Sweeps(initial, S.Resolvable(feed), times)
               == Sweeps(PendingList(svc.store.bets), S.Resolvable(feed), times - i)
        invariant S.KeepsBooks(old(svc.store.bets), old(svc.wallet.Model()), svc.store.bets, svc.wallet.Model())
      {
        ghost var bets, model := svc.store.bets, svc.wallet.Model();
        WorkingPass(PendingList(svc.store.bets), feed, calls(i), lists);
        RunOnce(feed, calls(i), lists);
        S.KeepsBooksTwice(old(svc.store.bets), old(svc.wallet.Model()), bets, model, svc.store.bets,
                          svc.wallet.Model());
      }
      if times >= |Resolvables(initial, S.Resolvable(feed))| {
        EnoughSweepsSettleAll(initial, S.Resolvable(feed), times);
        EmptyListSettled(svc.store.bets, S.Resolvable(feed));
      }
    }

    /** Lists one page and settles what it can of it; false after the last page, or when the listing fails. */
    method SweepOnePage(page: int, feed: Bet -> S.Feed, calls: string -> S.SettleCalls, lists: int -> bool,
                        ghost initial: map<string, Bet>)
      returns (more: bool)
      requires page >= 1 && svc.Valid() && AllSwept(initial, svc.store.bets, feed, calls)
      modifies svc.store, svc.wallet
      ensures svc.Valid() && AllSwept(initial, svc.store.bets, feed, calls)
      ensures var before, after := PendingList(old(svc.store.bets)), PendingList(svc.store.bets);
              && SweepWhile(before, Settleable(feed, calls), lists, page)
                 == (if more then SweepWhile(after, Settleable(feed, calls), lists, page + 1) else after)
              && (more ==> |after| <= |before| && (page - 1) * PAGE < |before|)
      ensures S.KeepsBooks(old(svc.store.bets), old(svc.wallet.Model()), svc.store.bets, svc.wallet.Model())
    {
      if !lists(page) {
        return false;
      }
      ghost var list := PendingList(svc.store.bets);
      var bets := svc.store.ListPendingBets(page, PAGE);
      SweepPage(list, Settleable(feed, calls), lists, page);
      if |bets| == 0 {
        return false;
      }
      ghost var start := (page - 1) * PAGE;
      SettlePage(bets, list[..start], list[start + |bets|..], feed, calls, initial);
      more := |bets| >= PAGE;
    }

    /** The inner loop: every bet of the page is resolved and, if it can be, settled. */
    method SettlePage(bets: seq<Bet>, ghost x: seq<Bet>, ghost y: seq<Bet>, feed: Bet -> S.Feed,
                      calls: string -> S.SettleCalls, ghost initial: map<string, Bet>)
      requires svc.Valid() && AllSwept(initial, svc.store.bets, feed, calls)
      requires PendingList(svc.store.bets) == x + bets + y
      modifies svc.store, svc.wallet
      ensures svc.Valid() && AllSwept(initial, svc.store.bets, feed, calls)
      ensures PendingList(svc.store.bets) == x + Drop(bets, Settleable(feed, calls)) + y
      ensures S.KeepsBooks(old(svc.store.bets), old(svc.wallet.Model()), svc.store.bets, svc.wallet.Model())
    {
      ghost var front, back := x, bets + y;
      PageOpens(x, bets, y, Settleable(feed, calls));
      for i := 0 to |bets|
        invariant svc.Valid() && AllSwept(initial, svc.store.bets, feed, calls)
        invariant front == x + Drop(bets[..i], Settleable(feed, calls)) && back == bets[i..] + y
        invariant PendingList(svc.store.bets) == front + back
        invariant S.KeepsBooks(old(svc.store.bets), old(svc.wallet.Model()), svc.store.bets, svc.wallet.Model())
      {
        ghost var bets', model := svc.store.bets, svc.wallet.Model();
        NextOnPage(x, bets, y, i, Settleable(feed, calls));
        back := bets[i + 1..] + y;
        SettleListed(bets[i], front, back, feed, calls, initial);
        S.KeepsBooksTwice(old(svc.store.bets), old(svc.wallet.Model()), bets', model, svc.store.bets,
                          svc.wallet.Model());
        front := x + Drop(bets[..i + 1], Settleable(feed, calls));
      }
      PageCloses(x, bets, y, Settleable(feed, calls));
    }

    method SettleListed(bet: Bet, ghost front: seq<Bet>, ghost back: seq<Bet>, feed: Bet -> S.Feed,
                        calls: string -> S.SettleCalls, ghost initial: map<string, Bet>)
      requires svc.Valid() && AllSwept(initial, svc.store.bets, feed, calls)
      requires PendingList(svc.store.bets) == front + [bet] + back
      modifies svc.store, svc.wallet
      ensures svc.Valid() && AllSwept(initial, svc.store.bets, feed, calls)
      ensures PendingList(svc.store.bets) == front + (if Settleable(feed, calls)(bet) then [] else [bet]) + back
      ensures S.KeepsBooks(old(svc.store.bets), old(svc.wallet.Model()), svc.store.bets, svc.wallet.Model())
    {
      ghost var before := svc.store.bets;
      ListedIsPending(before, bet, front, back);
      var outcome := ResolveOutcomeStatus(feed(bet), bet.market, bet.outcome);
      if outcome.Ok? && outcome.value.Some? {
        Settle(bet, outcome.value.value, calls(bet.id));
        if !calls(bet.id).read.fails && !calls(bet.id).mark.fails {
          ListedSettled(initial, before, svc.store.bets, bet, outcome.value.value, front, back, feed, calls);
        }
      }
    }

    /** Settles a pending bet, unless reading or marking it fails. */
    method Settle(bet: Bet, verdict: Verdict, calls: S.SettleCalls)
      requires svc.Valid() && bet.id in svc.store.bets && svc.store.bets[bet.id] == bet && bet.status == Pending
      modifies svc.store, svc.wallet
      ensures svc.Valid()
      ensures if calls.read.fails || calls.mark.fails then svc.store.bets == old(svc.store.bets)
              else SettledOnly(old(svc.store.bets), svc.store.bets, bet, verdict, calls)
      ensures S.KeepsBooks(old(svc.store.bets), old(svc.wallet.Model()), svc.store.bets, svc.wallet.Model())
    {
      if calls.read.fails || calls.mark.fails {
        S.SettledIdle(svc.store.bets, svc.wallet.Model(), bet.id, verdict, calls);
      }
      var _ := svc.SettleBet(bet.id, TextOf(verdict), calls);
    }
  }
}
