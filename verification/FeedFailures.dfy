/** Exactly when incremental runs agree with full ones, and what a failed fetch of conditions leaves behind. */
module FeedFailures {
  import opened Basics
  import opened Lists
  import opened FeedStore
  import opened Normalizer
  import opened Azuro
  import opened FeedSync
  import opened FeedInvariant
  import opened FeedTheorems

  // ---- When runs differ -----------------------------------------------------------------------------------------

  /** Each round answers, or cannot fetch conditions at all. */
  ghost predicate AllSound(rounds: seq<Round>, conds: seq<string -> seq<Condition>>, owners: Owners) {
    && |rounds| == |conds|
    && forall i | 0 <= i < |rounds| :: Failing(rounds[i]) || Answering(rounds[i], conds[i], owners)
  }

  /** A round that answers misses nothing. */
  ghost predicate Complete(st: Store, r: Round, conds: string -> seq<Condition>, owners: Owners)
    requires Keyed(st.events)
  {
    Answering(r, conds, owners) ==> NothingMissed(st, r, conds, owners)
  }

  lemma FailingSyncs(st: Store, r: Round)
    requires Own(st) && Keyed(st.events) && Failing(r)
    ensures Sync(st, PROVIDER, r.hierarchy, r.fetch).0 == SyncAll(st, r.hierarchy, r.fetch).0
    ensures Own(Sync(st, PROVIDER, r.hierarchy, r.fetch).0)
  {
    if r.hierarchy.Some? {
      match Normalize(r.hierarchy.value)
      case Err(_) =>
      case Ok(n) =>
        HierarchyWrites(st, r.hierarchy.value);
        NothingFetched(ApplyHierarchy(st, n), ChangedIds(n.events, Statuses(st.events, PROVIDER)), r.fetch);
        NothingFetched(ApplyHierarchy(st, n), KeysOf(n.events), r.fetch);
    }
  }

  lemma NothingFetched(st: Store, ids: seq<string>, fetch: seq<string> -> Option<Snapshot>)
    requires fetch(ids).None?
    ensures Refresh(st, ids, fetch).0 == st
  {
  }

  lemma SoundSync(st: Store, r: Round, conds: string -> seq<Condition>, owners: Owners)
    requires Own(st) && Keyed(st.events) && (Failing(r) || Answering(r, conds, owners))
    ensures Own(Sync(st, PROVIDER, r.hierarchy, r.fetch).0)
    ensures Sync(st, PROVIDER, r.hierarchy, r.fetch).0 == SyncAll(st, r.hierarchy, r.fetch).0
            <==> Complete(st, r, conds, owners)
  {
    if Failing(r) {
      FailingSyncs(st, r);
      assert !Fetches(r, [], conds);
    } else {
      TwoRefreshes(st, r, conds, owners);
      SyncIsSyncAllExactly(st, r, conds, owners);
    }
  }

  lemma SoundSyncAt(st: Store, rounds: seq<Round>, conds: seq<string -> seq<Condition>>, owners: Owners, i: nat)
    requires Own(st) && Keyed(st.events) && AllSound(rounds, conds, owners) && i < |rounds|
    ensures var few, many := Sync(st, PROVIDER, rounds[i].hierarchy, rounds[i].fetch).0,
                             SyncAll(st, rounds[i].hierarchy, rounds[i].fetch).0;
            Own(few) && (few == many <==> Complete(st, rounds[i], conds[i], owners))
  {
    SoundSync(st, rounds[i], conds[i], owners);
  }

  lemma NextStore(rounds: seq<Round>, stores: seq<Store>, i: nat)
    requires i < |rounds| && Syncs(rounds, stores)
    ensures Keyed(stores[i].events)
    ensures stores[i + 1] == Sync(stores[i], PROVIDER, rounds[i].hierarchy, rounds[i].fetch).0
  {
    assert Synced(stores[i], rounds[i], stores[i + 1]);
  }

  lemma NextStoreIsOwn(rounds: seq<Round>, conds: seq<string -> seq<Condition>>, owners: Owners,
                       stores: seq<Store>, i: nat)
    requires i < |rounds| && AllSound(rounds, conds, owners) && Syncs(rounds, stores) && Own(stores[i])
    ensures Own(stores[i + 1])
  {
    OwnIsKeyed(stores[i]);
    SoundSyncAt(stores[i], rounds, conds, owners, i);
    NextStore(rounds, stores, i);
  }

  lemma {:induction false} StoresAreOwn(rounds: seq<Round>, conds: seq<string -> seq<Condition>>, owners: Owners,
                                        stores: seq<Store>, n: nat)
    requires n <= |rounds| && AllSound(rounds, conds, owners) && Syncs(rounds, stores) && Own(stores[0])
    ensures Own(stores[n])
  {
    if n > 0 {
      StoresAreOwn(rounds, conds, owners, stores, n - 1);
      NextStoreIsOwn(rounds, conds, owners, stores, n - 1);
    }
  }

  lemma RunStaysOwn(rounds: seq<Round>, conds: seq<string -> seq<Condition>>, owners: Owners,
                    stores: seq<Store>, n: nat)
    requires n <= |rounds| && AllSound(rounds, conds, owners) && Syncs(rounds, stores) && Own(stores[0])
    ensures Own(stores[n]) && Keyed(stores[n].events)
  {
    StoresAreOwn(rounds, conds, owners, stores, n);
    OwnIsKeyed(stores[n]);
  }

  ghost predicate CompleteAt(rounds: seq<Round>, conds: seq<string -> seq<Condition>>, owners: Owners,
                             stores: seq<Store>, i: nat)
    requires i < |rounds| == |conds| && i < |stores|
  {
    Keyed(stores[i].events) && Complete(stores[i], rounds[i], conds[i], owners)
  }

  lemma CompleteRoundAgrees(rounds: seq<Round>, conds: seq<string -> seq<Condition>>, owners: Owners,
                            stores: seq<Store>, full: seq<Store>, i: nat)
    requires i < |rounds| && AllSound(rounds, conds, owners)
    requires IncrementalRun(rounds, stores) && FullRun(rounds, full)
    requires CompleteAt(rounds, conds, owners, stores, i) && stores[i] == full[i]
    ensures stores[i + 1] == full[i + 1]
  {
    RunStaysOwn(rounds, conds, owners, stores, i);
    NextStores(rounds, stores, full, i);
    SoundSyncAt(stores[i], rounds, conds, owners, i);
  }

  lemma {:induction false} CompleteRunsAgree(rounds: seq<Round>, conds: seq<string -> seq<Condition>>, owners: Owners,
                                             stores: seq<Store>, full: seq<Store>, n: nat)
    requires n <= |rounds| && AllSound(rounds, conds, owners)
    requires IncrementalRun(rounds, stores) && FullRun(rounds, full)
    requires forall i | 0 <= i < n :: CompleteAt(rounds, conds, owners, stores, i)
    ensures stores[n] == full[n]
  {
    if n > 0 {
      CompleteRunsAgree(rounds, conds, owners, stores, full, n - 1);
      CompleteRoundAgrees(rounds, conds, owners, stores, full, n - 1);
    }
  }

  lemma AgreeingRoundIsComplete(rounds: seq<Round>, conds: seq<string -> seq<Condition>>, owners: Owners,
                                stores: seq<Store>, full: seq<Store>, i: nat)
    requires i < |rounds| && AllSound(rounds, conds, owners)
    requires IncrementalRun(rounds, stores) && FullRun(rounds, full) && stores == full
    ensures CompleteAt(rounds, conds, owners, stores, i)
  {
    RunStaysOwn(rounds, conds, owners, stores, i);
    NextStores(rounds, stores, full, i);
    SoundSyncAt(stores[i], rounds, conds, owners, i);
  }

  /** Over runs with failing fetches among the rounds: the incremental and the full run hold the same stores throughout
      if and only if no round that answers misses anything. */
  lemma RunsAgreeExactly(rounds: seq<Round>, conds: seq<string -> seq<Condition>>, owners: Owners,
                         stores: seq<Store>, full: seq<Store>)
    requires AllSound(rounds, conds, owners) && IncrementalRun(rounds, stores) && FullRun(rounds, full)
    ensures stores == full <==> forall i | 0 <= i < |rounds| :: CompleteAt(rounds, conds, owners, stores, i)
  {
    if stores == full {
      forall i | 0 <= i < |rounds| ensures CompleteAt(rounds, conds, owners, stores, i) {
        AgreeingRoundIsComplete(rounds, conds, owners, stores, full, i);
      }
    }
    if forall i | 0 <= i < |rounds| :: CompleteAt(rounds, conds, owners, stores, i) {
      forall n | 0 <= n < |stores| ensures stores[n] == full[n] {
        CompleteRunsAgree(rounds, conds, owners, stores, full, n);
      }
    }
  }

  // ---- A failed fetch -------------------------------------------------------------------------------------------

  /** The status a game is stored under after a hierarchy: the listed one, or else the one stored before. */
  function StoredStatus(st: Store, events: seq<EventSnapshot>, game: string): Option<string> {
    if events != [] then
      var last := events[|events| - 1];
      if last.key == game then Some(last.status) else StoredStatus(st, events[..|events| - 1], game)
    else if Key(PROVIDER, game) in st.events then Some(st.events[Key(PROVIDER, game)].status)
    else None
  }

  lemma {:induction false} StoredStatusOf(st: Store, events: seq<EventSnapshot>, game: string, i: nat)
    requires i < |events| && events[i].key == game
    requires forall a, b | 0 <= a < b < |events| :: events[a].key != events[b].key
    ensures StoredStatus(st, events, game) == Some(events[i].status)
  {
    if i < |events| - 1 { StoredStatusOf(st, events[..|events| - 1], game, i); }
  }

  lemma {:induction false} StoredStatusElse(st: Store, events: seq<EventSnapshot>, game: string)
    requires forall e | e in events :: e.key != game
    ensures StoredStatus(st, events, game) == StoredStatus(st, [], game)
  {
    if events != [] {
      assert events[|events| - 1] in events;
      StoredStatusElse(st, events[..|events| - 1], game);
    }
  }

  lemma StatusAfter(st: Store, s: Snapshot, game: string)
    requires Own(st) && s.provider == PROVIDER && Normalize(s).Ok? && DistinctEvents(s)
    ensures StoredStatus(ApplyHierarchy(st, Normalize(s).value), [], game) == StoredStatus(st, s.events, game)
  {
    var n := Normalize(s).value;
    var after := ApplyHierarchy(st, n).events;
    var k := Key(PROVIDER, game);
    EventsAfter(st, s);
    NormalEventsAre(s);
    NormalizedIsOwn(s);
    if i :| 0 <= i < |s.events| && s.events[i].key == game {
      StoredStatusOf(st, s.events, game, i);
      assert n.events[i] in n.events && EventKey(n.events[i]) == k;
    } else {
      StoredStatusElse(st, s.events, game);
      UnlistedStays(st, s, game);
    }
  }

  lemma UnlistedStays(st: Store, s: Snapshot, game: string)
    requires Own(st) && s.provider == PROVIDER && Normalize(s).Ok?
    requires forall i | 0 <= i < |s.events| :: s.events[i].key != game
    ensures At(ApplyHierarchy(st, Normalize(s).value).events, Key(PROVIDER, game)) == At(st.events, Key(PROVIDER, game))
  {
    var n := Normalize(s).value;
    var k := Key(PROVIDER, game);
    HierarchyWrites(st, s);
    NormalEventsAre(s);
    NormalizedIsOwn(s);
    PutAllAt(st.events, EventKey, n.events, k);
    LastIsThere(EventKey, n.events, k);
    if Last(EventKey, n.events, k).Some? {
      var i :| 0 <= i < |n.events| && n.events[i] == Last(EventKey, n.events, k).value;
      SameKey(n.events[i].key, game);
    }
  }

  lemma FailedSync(st: Store, st': Store, s: Snapshot, fetch: seq<string> -> Option<Snapshot>)
    requires Keyed(st.events) && Sync(st, PROVIDER, Some(s), fetch) == (st', Some(ConditionsFailed))
    ensures Normalize(s).Ok? && st' == ApplyHierarchy(st, Normalize(s).value)
  {
    match Normalize(s)
    case Err(_) =>
    case Ok(n) => FailedRefresh(ApplyHierarchy(st, n), ChangedIds(n.events, Statuses(st.events, PROVIDER)), fetch);
  }

  lemma FailedRefresh(st: Store, ids: seq<string>, fetch: seq<string> -> Option<Snapshot>)
    ensures Refresh(st, ids, fetch).1 == Some(ConditionsFailed) ==> Refresh(st, ids, fetch).0 == st
  {
  }

  predicate AsksFor(st: Store, listed: seq<EventSnapshot>, e: EventSnapshot, game: string) {
    e.key == game && (e.status == "live" || StoredStatus(st, listed, game) != Some(e.status))
  }

  /** After a failed fetch the next sync asks for a game exactly when it lists the game as live, or under a status other
      than the one the failed sync stored or, for a game that one did not list, the one stored before. */
  lemma AskedAfterFailedFetch(st: Store, st': Store, s: Snapshot, fetch: seq<string> -> Option<Snapshot>,
                              next: Snapshot, game: string)
    requires Own(st) && Keyed(st.events) && s.provider == PROVIDER && DistinctEvents(s)
    requires Sync(st, PROVIDER, Some(s), fetch) == (st', Some(ConditionsFailed))
    requires next.provider == PROVIDER && Normalize(next).Ok?
    ensures Keyed(st'.events) && st'.markets == st.markets && st'.outcomes == st.outcomes
    ensures game in ChangedIds(Normalize(next).value.events, Statuses(st'.events, PROVIDER))
            <==> exists e :: e in next.events && AsksFor(st, s.events, e, game)
  {
    FailedSync(st, st', s, fetch);
    HierarchyWrites(st, s);
    OwnIsKeyed(st');
    StatusAfter(st, s, game);
    AskedByStatus(st', next, game);
    forall e | e in next.events ensures AsksFor(st', [], e, game) == AsksFor(st, s.events, e, game) {
    }
  }

  lemma AsksWhenNeeded(st: Store, n: Event, e: EventSnapshot)
    requires Own(st) && Keyed(st.events) && n.key == e.key && n.status == e.status
    ensures NeedsConditions(n, Statuses(st.events, PROVIDER)) <==> AsksFor(st, [], e, e.key)
  {
    NamedIsKeyed(st.events, PROVIDER, e.key);
    if Key(PROVIDER, e.key) in st.events { assert OwnEvent(Key(PROVIDER, e.key), st.events[Key(PROVIDER, e.key)]); }
  }

  /** A sync asks for a game exactly when it lists it as live or under another status than the stored one. */
  lemma AskedByStatus(st: Store, s: Snapshot, game: string)
    requires Own(st) && Keyed(st.events) && s.provider == PROVIDER && Normalize(s).Ok?
    ensures game in ChangedIds(Normalize(s).value.events, Statuses(st.events, PROVIDER))
            <==> exists e :: e in s.events && AsksFor(st, [], e, game)
  {
    var events := Normalize(s).value.events;
    var existing := Statuses(st.events, PROVIDER);
    ChangedHas(events, existing, game);
    NormalEventsAre(s);
    forall i | 0 <= i < |events| && events[i].key == game
      ensures NeedsConditions(events[i], existing) <==> AsksFor(st, [], s.events[i], game)
    {
      AsksWhenNeeded(st, events[i], s.events[i]);
    }
    if e :| e in events && e.key == game && NeedsConditions(e, existing) {
      var i :| 0 <= i < |events| && events[i] == e;
      assert s.events[i] in s.events && AsksFor(st, [], s.events[i], game);
    }
    if e :| e in s.events && AsksFor(st, [], e, game) {
      var i :| 0 <= i < |events| && s.events[i] == e;
      assert events[i] in events && NeedsConditions(events[i], existing);
    }
  }

  lemma HierarchyTwice(st: Store, s: Snapshot)
    requires Own(st) && s.provider == PROVIDER && Normalize(s).Ok?
    ensures var n := Normalize(s).value; ApplyHierarchy(ApplyHierarchy(st, n), n) == ApplyHierarchy(st, n)
  {
    var n := Normalize(s).value;
    HierarchyWrites(st, s);
    HierarchyWrites(ApplyHierarchy(st, n), s);
    PutAllTwice(st.sports, SportKey, n.sports);
    PutAllTwice(st.leagues, LeagueKey, n.leagues);
    PutAllTwice(st.events, EventKey, n.events);
  }

  /** In particular a next sync of the same hierarchy with no live event asks for nothing and changes nothing. */
  lemma FailedFetchIsNotRepeated(st: Store, st': Store, s: Snapshot, fetch: seq<string> -> Option<Snapshot>,
                                 later: seq<string> -> Option<Snapshot>)
    requires Own(st) && Keyed(st.events) && s.provider == PROVIDER && DistinctEvents(s)
    requires forall e | e in s.events :: e.status != "live"
    requires Sync(st, PROVIDER, Some(s), fetch) == (st', Some(ConditionsFailed))
    ensures Keyed(st'.events) && st'.markets == st.markets && st'.outcomes == st.outcomes
    ensures Sync(st', PROVIDER, Some(s), later) == (st', None)
  {
    FailedSync(st, st', s, fetch);
    HierarchyTwice(st, s);
    HierarchyWrites(st, s);
    OwnIsKeyed(st');
    var ids := ChangedIds(Normalize(s).value.events, Statuses(st'.events, PROVIDER));
    forall game ensures game !in ids {
      AskedAfterFailedFetch(st, st', s, fetch, s, game);
      forall e | e in s.events && e.key == game ensures !AsksFor(st, s.events, e, game) {
        var i :| 0 <= i < |s.events| && s.events[i] == e;
        StoredStatusOf(st, s.events, game, i);
      }
    }
    EmptyOrNot(ids);
    IdleSync(st', s, later);
  }

  lemma EmptyOrNot(xs: seq<string>)
    ensures xs == [] || exists x :: x in xs
  {
    if xs != [] { assert xs[0] in xs; }
  }

  lemma IdleSync(st: Store, s: Snapshot, fetch: seq<string> -> Option<Snapshot>)
    requires Keyed(st.events) && Normalize(s).Ok? && ApplyHierarchy(st, Normalize(s).value) == st
    requires ChangedIds(Normalize(s).value.events, Statuses(st.events, PROVIDER)) == []
    ensures Sync(st, PROVIDER, Some(s), fetch) == (st, None)
  {
  }

  // ---- Lost conditions stay lost --------------------------------------------------------------------------------

  /** Whenever the round lists the game, it lists it under this status. */
  predicate ListsOnlyAs(r: Round, game: string, status: string) {
    r.hierarchy.Some? ==> forall e | e in r.hierarchy.value.events :: e.key == game ==> e.status == status
  }

  ghost predicate UntouchedAt(st: Store, st': Store, owners: Owners, game: string, k: string) {
    && (owners.market(k) == game ==> At(st'.markets, k) == At(st.markets, k))
    && (owners.outcome(k) == game ==> At(st'.outcomes, k) == At(st.outcomes, k))
  }

  /** The game's markets and outcomes, there or missing, are as they were. */
  ghost predicate Untouched(st: Store, st': Store, owners: Owners, game: string) {
    forall k :: UntouchedAt(st, st', owners, game, k)
  }

  lemma UnaskedIsUntouched(st: Store, r: Round, conds: string -> seq<Condition>, owners: Owners, game: string)
    requires Own(st) && Keyed(st.events) && Answering(r, conds, owners)
    requires game !in ChangedIds(Normalize(r.hierarchy.value).value.events, Statuses(st.events, PROVIDER))
    ensures Untouched(st, Sync(st, PROVIDER, r.hierarchy, r.fetch).0, owners, game)
  {
    TwoRefreshes(st, r, conds, owners);
    var ids := ChangedIds(Normalize(r.hierarchy.value).value.events, Statuses(st.events, PROVIDER));
    var st' := Sync(st, PROVIDER, r.hierarchy, r.fetch).0;
    forall k ensures UntouchedAt(st, st', owners, game, k) {
      assert RefreshedAt(st.markets, st'.markets, MarketKey, ToFeedMarkets, owners.market, ids, conds, k);
      assert RefreshedAt(st.outcomes, st'.outcomes, OutcomeKey, ToFeedOutcomes, owners.outcome, ids, conds, k);
    }
  }

  lemma FailingIsUntouched(st: Store, r: Round, owners: Owners, game: string)
    requires Own(st) && Keyed(st.events) && Failing(r)
    ensures Untouched(st, Sync(st, PROVIDER, r.hierarchy, r.fetch).0, owners, game)
    ensures Sync(st, PROVIDER, r.hierarchy, r.fetch).0.events
            == if r.hierarchy.Some? && Normalize(r.hierarchy.value).Ok?
               then ApplyHierarchy(st, Normalize(r.hierarchy.value).value).events else st.events
  {
    if r.hierarchy.Some? {
      match Normalize(r.hierarchy.value)
      case Err(_) =>
      case Ok(n) =>
        NothingFetched(ApplyHierarchy(st, n), ChangedIds(n.events, Statuses(st.events, PROVIDER)), r.fetch);
    }
  }

  lemma StatusStays(st: Store, s: Snapshot, game: string, status: string)
    requires Own(st) && s.provider == PROVIDER && Normalize(s).Ok? && DistinctEvents(s)
    requires StoredStatus(st, [], game) == Some(status)
    requires forall e | e in s.events :: e.key == game ==> e.status == status
    ensures StoredStatus(ApplyHierarchy(st, Normalize(s).value), [], game) == Some(status)
  {
    StatusAfter(st, s, game);
    if i :| 0 <= i < |s.events| && s.events[i].key == game {
      StoredStatusOf(st, s.events, game, i);
      assert s.events[i] in s.events;
    } else {
      StoredStatusElse(st, s.events, game);
    }
  }

  /** While a game is listed only under the status it is stored under, and that is not live, no round touches what the
      store holds of it. */
  lemma QuietRound(st: Store, r: Round, conds: string -> seq<Condition>, owners: Owners, game: string, status: string)
    requires Own(st) && Keyed(st.events) && (Failing(r) || Answering(r, conds, owners))
    requires r.hierarchy.Some? ==> DistinctEvents(r.hierarchy.value)
    requires StoredStatus(st, [], game) == Some(status) && status != "live" && ListsOnlyAs(r, game, status)
    ensures var st' := Sync(st, PROVIDER, r.hierarchy, r.fetch).0;
            Untouched(st, st', owners, game) && StoredStatus(st', [], game) == Some(status)
  {
    if r.hierarchy.Some? && Normalize(r.hierarchy.value).Ok? {
      StatusStays(st, r.hierarchy.value, game, status);
    }
    if Failing(r) {
      FailingIsUntouched(st, r, owners, game);
    } else {
      AskedByStatus(st, r.hierarchy.value, game);
      UnaskedIsUntouched(st, r, conds, owners, game);
      TwoRefreshes(st, r, conds, owners);
    }
  }

  ghost predicate Quiet(rounds: seq<Round>, game: string, status: string) {
    forall i | 0 <= i < |rounds| ::
      ListsOnlyAs(rounds[i], game, status)
      && (rounds[i].hierarchy.Some? ==> DistinctEvents(rounds[i].hierarchy.value))
  }

  lemma QuietRoundAt(st: Store, rounds: seq<Round>, conds: seq<string -> seq<Condition>>, owners: Owners, i: nat,
                     game: string, status: string)
    requires Own(st) && Keyed(st.events) && AllSound(rounds, conds, owners) && i < |rounds|
    requires StoredStatus(st, [], game) == Some(status) && status != "live" && Quiet(rounds, game, status)
    ensures var st' := Sync(st, PROVIDER, rounds[i].hierarchy, rounds[i].fetch).0;
            Untouched(st, st', owners, game) && StoredStatus(st', [], game) == Some(status)
  {
    QuietRound(st, rounds[i], conds[i], owners, game, status);
  }

  /** So what a failed fetch lost stays lost, through any rounds, until one lists the game as live or under another
      status. */
  lemma {:induction false} LostUntilTheStatusChanges(rounds: seq<Round>, conds: seq<string -> seq<Condition>>,
                                                     owners: Owners, stores: seq<Store>, n: nat,
                                                     game: string, status: string)
    requires n <= |rounds| && AllSound(rounds, conds, owners) && Syncs(rounds, stores) && Own(stores[0])
    requires StoredStatus(stores[0], [], game) == Some(status) && status != "live" && Quiet(rounds, game, status)
    ensures Untouched(stores[0], stores[n], owners, game) && StoredStatus(stores[n], [], game) == Some(status)
  {
    if n > 0 {
      LostUntilTheStatusChanges(rounds, conds, owners, stores, n - 1, game, status);
      RunStaysOwn(rounds, conds, owners, stores, n - 1);
      QuietRoundAt(stores[n - 1], rounds, conds, owners, n - 1, game, status);
      NextStore(rounds, stores, n - 1);
      UntouchedTwice(stores[0], stores[n - 1], stores[n], owners, game);
    }
  }

  lemma UntouchedTwice(a: Store, b: Store, c: Store, owners: Owners, game: string)
    requires Untouched(a, b, owners, game) && Untouched(b, c, owners, game)
    ensures Untouched(a, c, owners, game)
  {
    forall k ensures UntouchedAt(a, c, owners, game, k) {
      assert UntouchedAt(a, b, owners, game, k) && UntouchedAt(b, c, owners, game, k);
    }
  }

  // ---- A run that loses conditions ------------------------------------------------------------------------------

  const GAME := "1001"

  const LISTED :=
    Snapshot(PROVIDER, [], [],
             [EventSnapshot(GAME, "", "", "", "", Unset, "upcoming", "", "", Unset, map[])], [], [])

  const WINNER := Condition("7", "", "Active", "Winner", GameRef(GAME, "33"), [])

  function Offered(game: string): seq<Condition> {
    if game == GAME then [WINNER] else []
  }

  function Offer(ids: seq<string>): Option<Snapshot> {
    Some(if GAME in ids then Built([WINNER], [GAME]) else Built([], []))
  }

  const ONE_GAME := Owners((k: string) => GAME, (k: string) => GAME)

  lemma OfferIsAnswer(ids: seq<string>)
    ensures IsAnswer(Offer(ids).value, ids, Offered)
  {
    var cs := if GAME in ids then [WINNER] else [];
    var order := if GAME in ids then [GAME] else [];
    assert Games([WINNER]) == map[GAME := WINNER.game];
    assert Visits(order, Games(cs));
    forall game ensures AnsweredAt(cs, ids, Offered, game) {
      assert Only([WINNER], game) == if game == GAME then [WINNER] else [];
    }
    assert Offer(ids).value == Built(cs, order);
  }

  lemma OfferAnswers()
    ensures Normalize(LISTED).Ok? && Answering(Round(Some(LISTED), Offer), Offered, ONE_GAME)
  {
    NormalizesExactlyWhenResolved(LISTED);
    forall ids ensures Fetches(Round(Some(LISTED), Offer), ids, Offered) { OfferIsAnswer(ids); }
    forall game
      ensures GameOwned(game, Offered, MarketKey, ToFeedMarkets, ONE_GAME.market)
              && GameOwned(game, Offered, OutcomeKey, ToFeedOutcomes, ONE_GAME.outcome)
    {
    }
  }

  const LOST := Round(Some(LISTED), _ => None)

  const FINE := Round(Some(LISTED), Offer)

  lemma FullRunOfTwo(a: Round, b: Round) returns (full: seq<Store>)
    ensures FullRun([a, b], full)
  {
    var full1 := SyncAll(EMPTY, a.hierarchy, a.fetch).0;
    full := [EMPTY, full1, SyncAll(full1, b.hierarchy, b.fetch).0];
  }

  /** The first fetch fails and the second answers: the incremental run never gets the market the full run gets. */
  lemma ConditionsCanBeLost() returns (stores: seq<Store>, full: seq<Store>)
    ensures AllSound([LOST, FINE], [Offered, Offered], ONE_GAME)
    ensures IncrementalRun([LOST, FINE], stores) && FullRun([LOST, FINE], full) && stores != full
  {
    OfferAnswers();
    stores := RunsExist([LOST, FINE]);
    full := FullRunOfTwo(LOST, FINE);
    NextStore([LOST, FINE], stores, 0);
    LostAtOnce(stores[1]);
    RunsAgreeExactly([LOST, FINE], [Offered, Offered], ONE_GAME, stores, full);
    assert !CompleteAt([LOST, FINE], [Offered, Offered], ONE_GAME, stores, 1);
  }

  lemma NothingThereYet(st: Store)
    requires Normalize(LISTED).Ok? && Keyed(EMPTY.events) && st == Sync(EMPTY, PROVIDER, LOST.hierarchy, LOST.fetch).0
    ensures st == ApplyHierarchy(EMPTY, Normalize(LISTED).value) && Own(st) && st.markets == map[]
    ensures StoredStatus(st, [], GAME) == Some("upcoming")
  {
    NothingFetched(ApplyHierarchy(EMPTY, Normalize(LISTED).value),
                   ChangedIds(Normalize(LISTED).value.events, Statuses(EMPTY.events, PROVIDER)), LOST.fetch);
    HierarchyWrites(EMPTY, LISTED);
    StatusAfter(EMPTY, LISTED, GAME);
  }

  lemma WinnerIsMissing(st: Store)
    requires st.markets == map[]
    ensures !GameSettled(st, ONE_GAME, GAME, Offered(GAME))
  {
    var market := ToFeedMarket(WINNER);
    assert Flat(ToFeedMarkets, [WINNER]) == [market];
    assert !SettledAt(st.markets, MarketKey, ToFeedMarkets, ONE_GAME.market, GAME, [WINNER], MarketKey(market));
  }

  lemma LostAtOnce(st: Store)
    requires Normalize(LISTED).Ok? && Keyed(st.events)
    requires Keyed(EMPTY.events) && st == Sync(EMPTY, PROVIDER, LOST.hierarchy, LOST.fetch).0
    ensures !NothingMissed(st, FINE, Offered, ONE_GAME)
  {
    NothingThereYet(st);
    ListedButNotAsked(st);
    WinnerIsMissing(st);
  }

  lemma ListedButNotAsked(st: Store)
    requires Normalize(LISTED).Ok? && Own(st) && Keyed(st.events)
    requires StoredStatus(st, [], GAME) == Some("upcoming")
    ensures GAME in KeysOf(Normalize(LISTED).value.events)
    ensures GAME !in ChangedIds(Normalize(LISTED).value.events, Statuses(st.events, PROVIDER))
  {
    AskedByStatus(st, LISTED, GAME);
    NormalEventsAre(LISTED);
    assert KeysOf(Normalize(LISTED).value.events)[0] == GAME;
  }
}
