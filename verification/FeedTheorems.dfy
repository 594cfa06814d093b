/** Incremental synchronisation against refetching everything, and what every run keeps. */
module FeedTheorems {
  import opened Basics
  import opened Lists
  import opened FeedStore
  import opened Normalizer
  import opened Azuro
  import opened FeedSync
  import opened FeedInvariant

  /** What one sync gets to see. */
  datatype Round = Round(hierarchy: Option<Snapshot>, fetch: seq<string> -> Option<Snapshot>)

  ghost predicate Synced(before: Store, r: Round, after: Store) {
    Keyed(before.events) && after == Sync(before, PROVIDER, r.hierarchy, r.fetch).0
  }

  /** The stores before the first sync and after each. */
  ghost predicate Syncs(rounds: seq<Round>, stores: seq<Store>) {
    && |stores| == |rounds| + 1
    && forall i | 0 <= i < |rounds| :: Synced(stores[i], rounds[i], stores[i + 1])
  }

  ghost predicate IncrementalRun(rounds: seq<Round>, stores: seq<Store>) {
    Syncs(rounds, stores) && stores[0] == EMPTY
  }

  function KeysOf(events: seq<Event>): seq<string> {
    Map((e: Event) => e.key, events)
  }

  /** A sync that asks for the conditions of every event. */
  function SyncAll(st: Store, hierarchy: Option<Snapshot>, fetch: seq<string> -> Option<Snapshot>)
    : (Store, Option<SyncError>)
  {
    if hierarchy.None? then (st, Some(HierarchyFailed))
    else match Normalize(hierarchy.value)
      case Err(problem) => (st, Some(BadHierarchy(problem)))
      case Ok(n) => Refresh(ApplyHierarchy(st, n), KeysOf(n.events), fetch)
  }

  predicate SyncedAll(before: Store, r: Round, after: Store) {
    after == SyncAll(before, r.hierarchy, r.fetch).0
  }

  predicate FullRun(rounds: seq<Round>, stores: seq<Store>) {
    && |stores| == |rounds| + 1 && stores[0] == EMPTY
    && forall i | 0 <= i < |rounds| :: SyncedAll(stores[i], rounds[i], stores[i + 1])
  }

  /** Syncing never gets stuck. */
  lemma {:induction false} RunsExist(rounds: seq<Round>) returns (stores: seq<Store>)
    ensures IncrementalRun(rounds, stores) && Keyed(stores[|rounds|].events)
  {
    if rounds == [] {
      stores := [EMPTY];
    } else {
      var r := rounds[|rounds| - 1];
      var before := RunsExist(rounds[..|rounds| - 1]);
      var last := before[|before| - 1];
      SyncKeepsKeyed(last, PROVIDER, r.hierarchy, r.fetch);
      var next := Sync(last, PROVIDER, r.hierarchy, r.fetch).0;
      stores := before + [next];
      forall i | 0 <= i < |rounds| ensures Synced(stores[i], rounds[i], stores[i + 1]) {
        if i < |rounds| - 1 { assert Synced(before[i], rounds[..|rounds| - 1][i], before[i + 1]); }
      }
    }
  }

  // ---- What is assumed of the provider --------------------------------------------------------------------------

  predicate DistinctEvents(s: Snapshot) {
    forall i, j | 0 <= i < j < |s.events| :: s.events[i].key != s.events[j].key
  }

  ghost predicate Fetches(r: Round, ids: seq<string>, conds: string -> seq<Condition>) {
    r.fetch(ids).Some? && IsAnswer(r.fetch(ids).value, ids, conds)
  }

  /** Nothing fails, event ids are unique, a request is answered with the current conditions of the games asked for,
      and games have keys of their own. */
  ghost predicate Answering(r: Round, conds: string -> seq<Condition>, owners: Owners) {
    && r.hierarchy.Some? && r.hierarchy.value.provider == PROVIDER && Normalize(r.hierarchy.value).Ok?
    && DistinctEvents(r.hierarchy.value)
    && (forall ids :: Fetches(r, ids, conds))
    && Disjoint(conds, owners)
  }

  /** Moreover the conditions of a game that is not live depend on the game and its status. */
  ghost predicate Plays(r: Round, conds: string -> seq<Condition>, calm: (string, string) -> seq<Condition>,
                        owners: Owners)
  {
    && Answering(r, conds, owners)
    && (forall e | e in r.hierarchy.value.events :: e.status != "live" ==> conds(e.key) == calm(e.key, e.status))
  }

  /** No conditions can be fetched; the hierarchy may fail too. */
  ghost predicate Failing(r: Round) {
    (r.hierarchy.Some? ==> r.hierarchy.value.provider == PROVIDER) && forall ids :: r.fetch(ids).None?
  }

  ghost predicate AllPlay(rounds: seq<Round>, conds: seq<string -> seq<Condition>>,
                          calm: (string, string) -> seq<Condition>, owners: Owners)
  {
    |rounds| == |conds| && forall i | 0 <= i < |rounds| :: Plays(rounds[i], conds[i], calm, owners)
  }

  // ---- What the store already holds -----------------------------------------------------------------------------

  ghost predicate SettledAt<V(!new)>(m: map<string, V>, key: V -> string, f: Condition -> seq<V>,
                                     owner: string -> string, game: string, cs: seq<Condition>, k: string)
  {
    Last(key, Flat(f, cs), k).Some? ==> owner(k) == game && At(m, k) == Last(key, Flat(f, cs), k)
  }

  /** Writing the conditions again would change nothing. */
  ghost predicate Settled<V(!new)>(m: map<string, V>, key: V -> string, f: Condition -> seq<V>,
                                   owner: string -> string, game: string, cs: seq<Condition>)
  {
    forall k :: SettledAt(m, key, f, owner, game, cs, k)
  }

  ghost predicate GameSettled(st: Store, owners: Owners, game: string, cs: seq<Condition>) {
    && Settled(st.markets, MarketKey, ToFeedMarkets, owners.market, game, cs)
    && Settled(st.outcomes, OutcomeKey, ToFeedOutcomes, owners.outcome, game, cs)
  }

  ghost predicate EventSettled(st: Store, calm: (string, string) -> seq<Condition>, owners: Owners, e: Event) {
    e.status != "live" ==> GameSettled(st, owners, e.key, calm(e.key, e.status))
  }

  ghost predicate AllSettled(st: Store, calm: (string, string) -> seq<Condition>, owners: Owners) {
    forall k | k in st.events :: EventSettled(st, calm, owners, st.events[k])
  }

  lemma {:induction false} FlatHas<V>(f: Condition -> seq<V>, cs: seq<Condition>, x: V) returns (c: Condition)
    requires x in Flat(f, cs)
    ensures c in cs && x in f(c)
  {
    var before, last := cs[..|cs| - 1], cs[|cs| - 1];
    if x in f(last) { c := last; } else { c := FlatHas(f, before, x); }
  }

  /** A refresh settles the games it asked for and leaves the others alone. */
  lemma RefreshSettles<V(!new)>(m: map<string, V>, m': map<string, V>, key: V -> string, f: Condition -> seq<V>,
                                owner: string -> string, ids: seq<string>, conds: string -> seq<Condition>,
                                game: string, cs: seq<Condition>)
    requires Refreshed(m, m', key, f, owner, ids, conds)
    requires if game in ids then cs == conds(game) && GameOwned(game, conds, key, f, owner)
             else Settled(m, key, f, owner, game, cs)
    ensures Settled(m', key, f, owner, game, cs)
  {
    forall k ensures SettledAt(m', key, f, owner, game, cs, k) {
      assert RefreshedAt(m, m', key, f, owner, ids, conds, k);
      if game in ids {
        LastIsThere(key, Flat(f, cs), k);
        if Last(key, Flat(f, cs), k).Some? {
          var c := FlatHas(f, cs, Last(key, Flat(f, cs), k).value);
          assert OwnedBy(c, key, f, owner, game);
        }
      } else {
        assert SettledAt(m, key, f, owner, game, cs, k);
      }
    }
  }

  /** Asking for settled games too makes no difference. */
  lemma SettledNeedNotBeAsked<V(!new)>(m: map<string, V>, few: map<string, V>, many: map<string, V>, key: V -> string,
                                       f: Condition -> seq<V>, owner: string -> string, ids: seq<string>,
                                       all: seq<string>, conds: string -> seq<Condition>)
    requires Refreshed(m, few, key, f, owner, ids, conds) && Refreshed(m, many, key, f, owner, all, conds)
    requires forall g | g in ids :: g in all
    requires forall g | g in all && g !in ids :: Settled(m, key, f, owner, g, conds(g))
    ensures few == many
  {
    forall k ensures Agree(few, many, k) {
      assert RefreshedAt(m, few, key, f, owner, ids, conds, k);
      assert RefreshedAt(m, many, key, f, owner, all, conds, k);
      if owner(k) in all && owner(k) !in ids {
        assert SettledAt(m, key, f, owner, owner(k), conds(owner(k)), k);
      }
    }
    SameAt(few, many);
  }

  // ---- What the hierarchy does to the events --------------------------------------------------------------------

  lemma NormalEventsAre(s: Snapshot)
    requires Normalize(s).Ok?
    ensures var events := Normalize(s).value.events;
            && |events| == |s.events|
            && forall i | 0 <= i < |events| ::
                 events[i].key == s.events[i].key && events[i].status == s.events[i].status
  {
    TraverseKeeps((x: EventSnapshot) => ToEvent(s.provider, Sports(s), Leagues(s), x), s.events);
  }

  lemma EventsAfter(st: Store, s: Snapshot)
    requires Own(st) && s.provider == PROVIDER && Normalize(s).Ok? && DistinctEvents(s)
    ensures var n := Normalize(s).value;
            var after := ApplyHierarchy(st, n).events;
            && (forall e | e in n.events :: At(after, EventKey(e)) == Some(e))
            && (forall k | k in after && after[k] !in n.events ::
                  k in st.events && after[k] == st.events[k] && after[k].key !in KeysOf(n.events))
  {
    var n := Normalize(s).value;
    var after := ApplyHierarchy(st, n).events;
    HierarchyWrites(st, s);
    NormalizedIsOwn(s);
    NormalEventsAre(s);
    forall e | e in n.events ensures At(after, EventKey(e)) == Some(e) {
      PutAllAt(st.events, EventKey, n.events, EventKey(e));
      LastIsThere(EventKey, n.events, EventKey(e));
      var last := Last(EventKey, n.events, EventKey(e)).value;
      SameKey(last.key, e.key);
      var i :| 0 <= i < |n.events| && n.events[i] == e;
      var j :| 0 <= j < |n.events| && n.events[j] == last;
      assert i == j;
    }
    forall k | k in after && after[k] !in n.events
      ensures k in st.events && after[k] == st.events[k] && after[k].key !in KeysOf(n.events)
    {
      PutAllAt(st.events, EventKey, n.events, k);
      LastIsThere(EventKey, n.events, k);
      forall i | 0 <= i < |n.events| ensures n.events[i].key != after[k].key {
        assert n.events[i] in n.events && OwnEvent(k, st.events[k]);
        SameKey(n.events[i].key, after[k].key);
      }
    }
  }

  lemma OwnIsKeyed(st: Store)
    requires Own(st)
    ensures Keyed(st.events)
  {
    forall k | k in st.events ensures k == EventKey(st.events[k]) { assert OwnEvent(k, st.events[k]); }
  }

  /** An event that is not asked for is not live and is stored under the same status. */
  lemma UnaskedIsKnown(st: Store, events: seq<Event>, e: Event)
    requires Own(st) && Keyed(st.events) && e in events && OwnEvent(EventKey(e), e)
    requires e.key !in ChangedIds(events, Statuses(st.events, PROVIDER))
    ensures e.status != "live" && EventKey(e) in st.events
    ensures st.events[EventKey(e)].status == e.status && st.events[EventKey(e)].key == e.key
  {
    ChangedHas(events, Statuses(st.events, PROVIDER), e.key);
    NamedIsKeyed(st.events, PROVIDER, e.key);
    assert OwnEvent(EventKey(e), st.events[EventKey(e)]);
    SameKey(st.events[EventKey(e)].key, e.key);
  }

  // ---- One sync -------------------------------------------------------------------------------------------------

  /** What a sync that asks for `ids` leaves settled. */
  lemma RefreshKeepsSettled(st: Store, r: Round, conds: string -> seq<Condition>,
                            calm: (string, string) -> seq<Condition>, owners: Owners)
    requires Own(st) && Keyed(st.events) && AllSettled(st, calm, owners) && Plays(r, conds, calm, owners)
    ensures var n := Normalize(r.hierarchy.value).value;
            var ids := ChangedIds(n.events, Statuses(st.events, PROVIDER));
            var (st', error) := Refresh(ApplyHierarchy(st, n), ids, r.fetch);
            error.None? && Own(st') && AllSettled(st', calm, owners)
  {
    var s := r.hierarchy.value;
    var n := Normalize(s).value;
    var ids := ChangedIds(n.events, Statuses(st.events, PROVIDER));
    var mid := ApplyHierarchy(st, n);
    HierarchyWrites(st, s);
    EventsAfter(st, s);
    assert Fetches(r, ids, conds);
    RefreshWrites(mid, ids, r.fetch, conds, owners);
    var st' := Refresh(mid, ids, r.fetch).0;
    forall k | k in st'.events ensures EventSettled(st', calm, owners, st'.events[k]) {
      var e := st'.events[k];
      if e.status != "live" {
        SettledBefore(st, r, conds, calm, owners, k);
        var cs := calm(e.key, e.status);
        RefreshSettles(mid.markets, st'.markets, MarketKey, ToFeedMarkets, owners.market, ids, conds, e.key, cs);
        RefreshSettles(mid.outcomes, st'.outcomes, OutcomeKey, ToFeedOutcomes, owners.outcome, ids, conds, e.key, cs);
      }
    }
  }

  /** A listed event is asked for, or what it needs is there. */
  lemma ListedIsSettled(st: Store, r: Round, conds: string -> seq<Condition>,
                        calm: (string, string) -> seq<Condition>, owners: Owners, e: Event)
    requires Own(st) && Keyed(st.events) && AllSettled(st, calm, owners) && Plays(r, conds, calm, owners)
    requires e in Normalize(r.hierarchy.value).value.events && e.status != "live"
    ensures conds(e.key) == calm(e.key, e.status)
    ensures e.key in ChangedIds(Normalize(r.hierarchy.value).value.events, Statuses(st.events, PROVIDER))
            || GameSettled(st, owners, e.key, calm(e.key, e.status))
  {
    var s := r.hierarchy.value;
    var n := Normalize(s).value;
    NormalEventsAre(s);
    var i :| 0 <= i < |n.events| && n.events[i] == e;
    assert s.events[i] in s.events;
    if e.key !in ChangedIds(n.events, Statuses(st.events, PROVIDER)) {
      NormalizedIsOwn(s);
      UnaskedIsKnown(st, n.events, e);
      assert EventSettled(st, calm, owners, st.events[EventKey(e)]);
    }
  }

  lemma AskedIsListed(events: seq<Event>, existing: map<string, string>, key: string)
    ensures key in ChangedIds(events, existing) ==> key in KeysOf(events)
  {
    ChangedHas(events, existing, key);
    if key in ChangedIds(events, existing) {
      var e :| e in events && e.key == key;
      var i :| 0 <= i < |events| && events[i] == e;
      assert KeysOf(events)[i] == key;
    }
  }

  /** Each event is asked for, or what it needs is there. */
  lemma SettledBefore(st: Store, r: Round, conds: string -> seq<Condition>, calm: (string, string) -> seq<Condition>,
                      owners: Owners, k: string)
    requires Own(st) && Keyed(st.events) && AllSettled(st, calm, owners) && Plays(r, conds, calm, owners)
    requires k in ApplyHierarchy(st, Normalize(r.hierarchy.value).value).events
    requires ApplyHierarchy(st, Normalize(r.hierarchy.value).value).events[k].status != "live"
    ensures var n := Normalize(r.hierarchy.value).value;
            var e := ApplyHierarchy(st, n).events[k];
            if e.key in ChangedIds(n.events, Statuses(st.events, PROVIDER))
            then conds(e.key) == calm(e.key, e.status)
            else GameSettled(st, owners, e.key, calm(e.key, e.status))
  {
    var n := Normalize(r.hierarchy.value).value;
    var e := ApplyHierarchy(st, n).events[k];
    EventsAfter(st, r.hierarchy.value);
    if e in n.events {
      ListedIsSettled(st, r, conds, calm, owners, e);
    } else {
      AskedIsListed(n.events, Statuses(st.events, PROVIDER), e.key);
      assert EventSettled(st, calm, owners, st.events[k]);
    }
  }

  /** Every listed game that is not asked for has its current conditions in the store. */
  ghost predicate NothingMissed(st: Store, r: Round, conds: string -> seq<Condition>, owners: Owners)
    requires Keyed(st.events) && r.hierarchy.Some? && Normalize(r.hierarchy.value).Ok?
  {
    var events := Normalize(r.hierarchy.value).value.events;
    forall g | g in KeysOf(events) && g !in ChangedIds(events, Statuses(st.events, PROVIDER)) ::
      GameSettled(st, owners, g, conds(g))
  }

  lemma SameMeansSettled<V(!new)>(m: map<string, V>, few: map<string, V>, many: map<string, V>, key: V -> string,
                                  f: Condition -> seq<V>, owner: string -> string, ids: seq<string>,
                                  all: seq<string>, conds: string -> seq<Condition>, g: string)
    requires Refreshed(m, few, key, f, owner, ids, conds) && Refreshed(m, many, key, f, owner, all, conds)
    requires few == many && g in all && g !in ids && GameOwned(g, conds, key, f, owner)
    ensures Settled(m, key, f, owner, g, conds(g))
  {
    forall k ensures SettledAt(m, key, f, owner, g, conds(g), k) {
      assert RefreshedAt(m, few, key, f, owner, ids, conds, k);
      assert RefreshedAt(m, many, key, f, owner, all, conds, k);
      LastIsThere(key, Flat(f, conds(g)), k);
      if Last(key, Flat(f, conds(g)), k).Some? {
        var c := FlatHas(f, conds(g), Last(key, Flat(f, conds(g)), k).value);
        assert OwnedBy(c, key, f, owner, g);
      }
    }
  }

  /** A sync and a full sync of the same store, side by side. */
  lemma TwoRefreshes(st: Store, r: Round, conds: string -> seq<Condition>, owners: Owners)
    requires Own(st) && Keyed(st.events) && Answering(r, conds, owners)
    ensures var n := Normalize(r.hierarchy.value).value;
            var few := Sync(st, PROVIDER, r.hierarchy, r.fetch);
            var many := SyncAll(st, r.hierarchy, r.fetch);
            var ids, all := ChangedIds(n.events, Statuses(st.events, PROVIDER)), KeysOf(n.events);
            && Own(few.0) && few.0.(markets := many.0.markets, outcomes := many.0.outcomes) == many.0
            && Refreshed(st.markets, few.0.markets, MarketKey, ToFeedMarkets, owners.market, ids, conds)
            && Refreshed(st.markets, many.0.markets, MarketKey, ToFeedMarkets, owners.market, all, conds)
            && Refreshed(st.outcomes, few.0.outcomes, OutcomeKey, ToFeedOutcomes, owners.outcome, ids, conds)
            && Refreshed(st.outcomes, many.0.outcomes, OutcomeKey, ToFeedOutcomes, owners.outcome, all, conds)
            && few.0.events == ApplyHierarchy(st, n).events
  {
    var s := r.hierarchy.value;
    var n := Normalize(s).value;
    HierarchyWrites(st, s);
    assert Fetches(r, ChangedIds(n.events, Statuses(st.events, PROVIDER)), conds);
    assert Fetches(r, KeysOf(n.events), conds);
    RefreshWrites(ApplyHierarchy(st, n), ChangedIds(n.events, Statuses(st.events, PROVIDER)), r.fetch, conds, owners);
    RefreshWrites(ApplyHierarchy(st, n), KeysOf(n.events), r.fetch, conds, owners);
  }

  /** One incremental sync gives what a full sync gives if and only if it misses nothing. */
  lemma SyncIsSyncAllExactly(st: Store, r: Round, conds: string -> seq<Condition>, owners: Owners)
    requires Own(st) && Keyed(st.events) && Answering(r, conds, owners)
    ensures Sync(st, PROVIDER, r.hierarchy, r.fetch).0 == SyncAll(st, r.hierarchy, r.fetch).0
            <==> NothingMissed(st, r, conds, owners)
  {
    TwoRefreshes(st, r, conds, owners);
    if NothingMissed(st, r, conds, owners) {
      MissingNothingSuffices(st, r, conds, owners);
    }
    if Sync(st, PROVIDER, r.hierarchy, r.fetch).0 == SyncAll(st, r.hierarchy, r.fetch).0 {
      SameMissesNothing(st, r, conds, owners);
    }
  }

  lemma MissingNothingSuffices(st: Store, r: Round, conds: string -> seq<Condition>, owners: Owners)
    requires Own(st) && Keyed(st.events) && Answering(r, conds, owners) && NothingMissed(st, r, conds, owners)
    ensures Sync(st, PROVIDER, r.hierarchy, r.fetch).0 == SyncAll(st, r.hierarchy, r.fetch).0
  {
    TwoRefreshes(st, r, conds, owners);
    var events := Normalize(r.hierarchy.value).value.events;
    var ids, all := ChangedIds(events, Statuses(st.events, PROVIDER)), KeysOf(events);
    var few, many := Sync(st, PROVIDER, r.hierarchy, r.fetch).0, SyncAll(st, r.hierarchy, r.fetch).0;
    forall g | g in ids ensures g in all { AskedIsListed(events, Statuses(st.events, PROVIDER), g); }
    forall g | g in all && g !in ids ensures GameSettled(st, owners, g, conds(g)) {
    }
    SettledNeedNotBeAsked(st.markets, few.markets, many.markets, MarketKey, ToFeedMarkets, owners.market, ids, all,
                          conds);
    SettledNeedNotBeAsked(st.outcomes, few.outcomes, many.outcomes, OutcomeKey, ToFeedOutcomes, owners.outcome, ids,
                          all, conds);
  }

  lemma SameMissesNothing(st: Store, r: Round, conds: string -> seq<Condition>, owners: Owners)
    requires Own(st) && Keyed(st.events) && Answering(r, conds, owners)
    requires Sync(st, PROVIDER, r.hierarchy, r.fetch).0 == SyncAll(st, r.hierarchy, r.fetch).0
    ensures NothingMissed(st, r, conds, owners)
  {
    TwoRefreshes(st, r, conds, owners);
    var events := Normalize(r.hierarchy.value).value.events;
    var ids, all := ChangedIds(events, Statuses(st.events, PROVIDER)), KeysOf(events);
    var few, many := Sync(st, PROVIDER, r.hierarchy, r.fetch).0, SyncAll(st, r.hierarchy, r.fetch).0;
    forall g | g in all && g !in ids ensures GameSettled(st, owners, g, conds(g)) {
      SameMeansSettled(st.markets, few.markets, many.markets, MarketKey, ToFeedMarkets, owners.market, ids, all,
                       conds, g);
      SameMeansSettled(st.outcomes, few.outcomes, many.outcomes, OutcomeKey, ToFeedOutcomes, owners.outcome, ids, all,
                       conds, g);
    }
  }

  lemma SyncIsSyncAll(st: Store, r: Round, conds: string -> seq<Condition>, calm: (string, string) -> seq<Condition>,
                      owners: Owners)
    requires Own(st) && Keyed(st.events) && AllSettled(st, calm, owners) && Plays(r, conds, calm, owners)
    ensures Sync(st, PROVIDER, r.hierarchy, r.fetch).0 == SyncAll(st, r.hierarchy, r.fetch).0
  {
    var events := Normalize(r.hierarchy.value).value.events;
    forall g | g in KeysOf(events) && g !in ChangedIds(events, Statuses(st.events, PROVIDER))
      ensures GameSettled(st, owners, g, conds(g))
    {
      UnaskedIsSettled(st, r, conds, calm, owners, g);
    }
    MissingNothingSuffices(st, r, conds, owners);
  }

  lemma UnaskedIsSettled(st: Store, r: Round, conds: string -> seq<Condition>,
                         calm: (string, string) -> seq<Condition>, owners: Owners, g: string)
    requires Own(st) && Keyed(st.events) && AllSettled(st, calm, owners) && Plays(r, conds, calm, owners)
    requires var events := Normalize(r.hierarchy.value).value.events;
             g in KeysOf(events) && g !in ChangedIds(events, Statuses(st.events, PROVIDER))
    ensures GameSettled(st, owners, g, conds(g))
  {
    var s := r.hierarchy.value;
    var n := Normalize(s).value;
    NormalizedIsOwn(s);
    NormalEventsAre(s);
    var i :| 0 <= i < |n.events| && KeysOf(n.events)[i] == g;
    assert n.events[i] in n.events && s.events[i] in s.events;
    UnaskedIsKnown(st, n.events, n.events[i]);
    assert EventSettled(st, calm, owners, st.events[EventKey(n.events[i])]);
  }

  ghost predicate Fit(st: Store, calm: (string, string) -> seq<Condition>, owners: Owners) {
    Own(st) && Keyed(st.events) && AllSettled(st, calm, owners)
  }

  lemma SyncStep(st: Store, r: Round, conds: string -> seq<Condition>, calm: (string, string) -> seq<Condition>,
                 owners: Owners)
    requires Fit(st, calm, owners) && Plays(r, conds, calm, owners)
    ensures Sync(st, PROVIDER, r.hierarchy, r.fetch).0 == SyncAll(st, r.hierarchy, r.fetch).0
    ensures Fit(Sync(st, PROVIDER, r.hierarchy, r.fetch).0, calm, owners)
  {
    SyncIsSyncAll(st, r, conds, calm, owners);
    RefreshKeepsSettled(st, r, conds, calm, owners);
    OwnIsKeyed(Sync(st, PROVIDER, r.hierarchy, r.fetch).0);
  }

  // ---- Every run ------------------------------------------------------------------------------------------------

  lemma NextStores(rounds: seq<Round>, stores: seq<Store>, full: seq<Store>, i: nat)
    requires i < |rounds| && IncrementalRun(rounds, stores) && FullRun(rounds, full)
    ensures Keyed(stores[i].events)
    ensures stores[i + 1] == Sync(stores[i], PROVIDER, rounds[i].hierarchy, rounds[i].fetch).0
    ensures full[i + 1] == SyncAll(full[i], rounds[i].hierarchy, rounds[i].fetch).0
  {
    assert Synced(stores[i], rounds[i], stores[i + 1]) && SyncedAll(full[i], rounds[i], full[i + 1]);
  }

  lemma StepFits(st: Store, rounds: seq<Round>, conds: seq<string -> seq<Condition>>,
                 calm: (string, string) -> seq<Condition>, owners: Owners, i: nat)
    requires Fit(st, calm, owners) && AllPlay(rounds, conds, calm, owners) && i < |rounds|
    ensures Sync(st, PROVIDER, rounds[i].hierarchy, rounds[i].fetch).0
            == SyncAll(st, rounds[i].hierarchy, rounds[i].fetch).0
    ensures Fit(Sync(st, PROVIDER, rounds[i].hierarchy, rounds[i].fetch).0, calm, owners)
  {
    SyncStep(st, rounds[i], conds[i], calm, owners);
  }

  lemma {:induction false} RunStaysFit(rounds: seq<Round>, conds: seq<string -> seq<Condition>>,
                                       calm: (string, string) -> seq<Condition>, owners: Owners,
                                       stores: seq<Store>, full: seq<Store>, n: nat)
    requires n <= |rounds| && AllPlay(rounds, conds, calm, owners)
    requires IncrementalRun(rounds, stores) && FullRun(rounds, full)
    ensures Fit(stores[n], calm, owners) && stores[n] == full[n]
  {
    if n > 0 {
      RunStaysFit(rounds, conds, calm, owners, stores, full, n - 1);
      NextStores(rounds, stores, full, n - 1);
      StepFits(stores[n - 1], rounds, conds, calm, owners, n - 1);
    }
  }

  /** After every sync the store is the one that refetching all conditions every time gives. */
  lemma IncrementalSyncIsFullSync(rounds: seq<Round>, conds: seq<string -> seq<Condition>>,
                                  calm: (string, string) -> seq<Condition>, owners: Owners,
                                  stores: seq<Store>, full: seq<Store>)
    requires AllPlay(rounds, conds, calm, owners)
    requires IncrementalRun(rounds, stores) && FullRun(rounds, full)
    ensures stores == full
  {
    forall n | 0 <= n < |stores| ensures stores[n] == full[n] {
      RunStaysFit(rounds, conds, calm, owners, stores, full, n);
    }
  }

  // ---- Re-applying ----------------------------------------------------------------------------------------------

  function ApplySnapshot(st: Store, n: Normalized): Store {
    ApplyMarkets(ApplyHierarchy(st, n), n)
  }

  /** Applying a snapshot a second time changes nothing, ids included. */
  lemma ReapplyingChangesNothing(st: Store, s: Snapshot)
    requires Own(st) && s.provider == PROVIDER && Normalize(s).Ok?
    ensures var n := Normalize(s).value;
            ApplySnapshot(ApplySnapshot(st, n), n) == ApplySnapshot(st, n)
  {
    var n := Normalize(s).value;
    var once := ApplySnapshot(st, n);
    HierarchyWrites(st, s);
    MarketsWrite(ApplyHierarchy(st, n), s);
    HierarchyWrites(once, s);
    MarketsWrite(ApplyHierarchy(once, n), s);
    PutAllTwice(st.sports, SportKey, n.sports);
    PutAllTwice(st.leagues, LeagueKey, n.leagues);
    PutAllTwice(st.events, EventKey, n.events);
    PutAllTwice(st.markets, MarketKey, n.markets);
    PutAllTwice(st.outcomes, OutcomeKey, n.outcomes);
  }

  // ---- References -----------------------------------------------------------------------------------------------

  ghost predicate MarketLinked(st: Store, x: Market) {
    exists k :: k in st.events && st.events[k].id == x.eventId
  }

  ghost predicate OutcomeLinked(st: Store, x: Outcome) {
    exists k :: k in st.markets && st.markets[k].id == x.marketId
  }

  ghost predicate Linked(st: Store) {
    && (forall k | k in st.markets :: MarketLinked(st, st.markets[k]))
    && (forall k | k in st.outcomes :: OutcomeLinked(st, st.outcomes[k]))
  }

  ghost predicate Requested(s: Snapshot, ids: seq<string>) {
    exists cs: seq<Condition>, order ::
      s == Built(cs, order) && Visits(order, Games(cs)) && forall c | c in cs :: c.game.game in ids
  }

  /** The provider answers for requested games only, if it answers. */
  ghost predicate Polite(r: Round) {
    && (r.hierarchy.Some? ==> r.hierarchy.value.provider == PROVIDER)
    && (forall ids | r.fetch(ids).Some? :: Requested(r.fetch(ids).value, ids))
  }

  /** Own entities are overwritten by own entities under the same key, so ids stay. */
  lemma EventsRemain(st: Store, s: Snapshot)
    requires Own(st) && s.provider == PROVIDER && Normalize(s).Ok?
    ensures var after := ApplyHierarchy(st, Normalize(s).value).events;
            && (forall k | k in st.events :: k in after && after[k].id == st.events[k].id)
            && (forall e | e in Normalize(s).value.events :: EventKey(e) in after && after[EventKey(e)].id == e.id)
  {
    var n := Normalize(s).value;
    var after := ApplyHierarchy(st, n).events;
    HierarchyWrites(st, s);
    NormalizedIsOwn(s);
    forall k | k in st.events ensures k in after && after[k].id == st.events[k].id {
      PutAllAt(st.events, EventKey, n.events, k);
      assert OwnEvent(k, st.events[k]) && OwnEvent(k, after[k]);
      SameKey(st.events[k].key, after[k].key);
    }
    forall e | e in n.events ensures EventKey(e) in after && after[EventKey(e)].id == e.id {
      PutAllAt(st.events, EventKey, n.events, EventKey(e));
      LastIsThere(EventKey, n.events, EventKey(e));
      assert OwnEvent(EventKey(e), after[EventKey(e)]) && OwnEvent(EventKey(e), e);
      SameKey(e.key, after[EventKey(e)].key);
    }
  }

  lemma HierarchyKeepsLinked(st: Store, s: Snapshot)
    requires Own(st) && Linked(st) && s.provider == PROVIDER && Normalize(s).Ok?
    ensures Linked(ApplyHierarchy(st, Normalize(s).value))
  {
    var mid := ApplyHierarchy(st, Normalize(s).value);
    EventsRemain(st, s);
    forall k | k in mid.markets ensures MarketLinked(mid, mid.markets[k]) {
      assert MarketLinked(st, st.markets[k]);
      var e :| e in st.events && st.events[e].id == st.markets[k].eventId;
      assert mid.events[e].id == mid.markets[k].eventId;
    }
    forall k | k in mid.outcomes ensures OutcomeLinked(mid, mid.outcomes[k]) {
      assert OutcomeLinked(st, st.outcomes[k]);
      var m :| m in st.markets && st.markets[m].id == st.outcomes[k].marketId;
      assert mid.markets[m].id == mid.outcomes[k].marketId;
    }
  }

  ghost predicate KnowsGame(st: Store, game: string) {
    Key(PROVIDER, game) in st.events && st.events[Key(PROVIDER, game)].id == Id(PROVIDER, EventKind, game)
  }

  /** Markets of known games point to events, and outcomes to the markets written with them. */
  lemma ConditionsKeepLinked(st: Store, cs: seq<Condition>, order: seq<string>)
    requires Own(st) && Linked(st) && Visits(order, Games(cs)) && forall c | c in cs :: KnowsGame(st, c.game.game)
    ensures Normalize(Built(cs, order)).Ok?
    ensures Own(ApplyMarkets(st, Normalize(Built(cs, order)).value))
    ensures Linked(ApplyMarkets(st, Normalize(Built(cs, order)).value))
  {
    BuiltSnapshotsNormalize(cs, order);
    MarketsWrite(st, Built(cs, order));
    var n := Normalize(Built(cs, order)).value;
    var st' := ApplyMarkets(st, n);
    forall k | k in st'.markets ensures MarketLinked(st', st'.markets[k]) { MarketStaysLinked(st, st', cs, k); }
    forall k | k in st'.outcomes ensures OutcomeLinked(st', st'.outcomes[k]) { OutcomeStaysLinked(st, st', cs, k); }
  }

  lemma MarketStaysLinked(st: Store, st': Store, cs: seq<Condition>, k: string)
    requires Linked(st) && st'.events == st.events && k in st'.markets
    requires st'.markets == PutAll(st.markets, MarketKey, Map(ToFeedMarket, cs))
    requires forall c | c in cs :: KnowsGame(st, c.game.game)
    ensures MarketLinked(st', st'.markets[k])
  {
    var markets := Map(ToFeedMarket, cs);
    PutAllAt(st.markets, MarketKey, markets, k);
    LastIsThere(MarketKey, markets, k);
    if k in st.markets && st'.markets[k] == st.markets[k] {
      assert MarketLinked(st, st.markets[k]);
    } else {
      var i :| 0 <= i < |markets| && markets[i] == st'.markets[k];
      assert cs[i] in cs && KnowsGame(st, cs[i].game.game);
    }
  }

  lemma OutcomeStaysLinked(st: Store, st': Store, cs: seq<Condition>, k: string)
    requires Own(st) && Own(st') && Linked(st) && k in st'.outcomes
    requires st'.markets == PutAll(st.markets, MarketKey, Map(ToFeedMarket, cs))
    requires st'.outcomes == PutAll(st.outcomes, OutcomeKey, Flat(ToFeedOutcomes, cs))
    ensures OutcomeLinked(st', st'.outcomes[k])
  {
    var outcomes := Flat(ToFeedOutcomes, cs);
    PutAllAt(st.outcomes, OutcomeKey, outcomes, k);
    LastIsThere(OutcomeKey, outcomes, k);
    if k in st.outcomes && st'.outcomes[k] == st.outcomes[k] {
      OldOutcomeStaysLinked(st, st', cs, st.outcomes[k]);
    } else {
      NewOutcomeIsLinked(st, st', cs, st'.outcomes[k]);
    }
  }

  lemma OldOutcomeStaysLinked(st: Store, st': Store, cs: seq<Condition>, x: Outcome)
    requires Own(st) && Own(st') && OutcomeLinked(st, x)
    requires st'.markets == PutAll(st.markets, MarketKey, Map(ToFeedMarket, cs))
    ensures OutcomeLinked(st', x)
  {
    var m :| m in st.markets && st.markets[m].id == x.marketId;
    MarketRemains(st, st', Map(ToFeedMarket, cs), m);
  }

  lemma NewOutcomeIsLinked(st: Store, st': Store, cs: seq<Condition>, x: Outcome)
    requires Own(st') && x in Flat(ToFeedOutcomes, cs)
    requires st'.markets == PutAll(st.markets, MarketKey, Map(ToFeedMarket, cs))
    ensures OutcomeLinked(st', x)
  {
    var c := FlatHas(ToFeedOutcomes, cs, x);
    NewMarketIsThere(st, st', cs, c);
  }

  lemma MarketRemains(st: Store, st': Store, markets: seq<Market>, m: string)
    requires Own(st) && Own(st') && st'.markets == PutAll(st.markets, MarketKey, markets) && m in st.markets
    ensures m in st'.markets && st'.markets[m].id == st.markets[m].id
  {
    PutAllAt(st.markets, MarketKey, markets, m);
    assert OwnMarket(m, st.markets[m]) && OwnMarket(m, st'.markets[m]);
    SameKey(st.markets[m].key, st'.markets[m].key);
  }

  lemma NewMarketIsThere(st: Store, st': Store, cs: seq<Condition>, c: Condition)
    requires Own(st') && st'.markets == PutAll(st.markets, MarketKey, Map(ToFeedMarket, cs)) && c in cs
    ensures exists k :: k in st'.markets && st'.markets[k].id == Id(PROVIDER, MarketKind, MarketOf(c))
  {
    var k := Key(PROVIDER, MarketOf(c));
    var i :| 0 <= i < |cs| && cs[i] == c;
    assert Map(ToFeedMarket, cs)[i] == ToFeedMarket(c) && MarketKey(ToFeedMarket(c)) == k;
    PutAllAt(st.markets, MarketKey, Map(ToFeedMarket, cs), k);
    LastIsThere(MarketKey, Map(ToFeedMarket, cs), k);
    assert OwnMarket(k, st'.markets[k]);
    SameKey(st'.markets[k].key, MarketOf(c));
  }

  lemma SyncKeepsLinked(st: Store, r: Round)
    requires Own(st) && Keyed(st.events) && Linked(st) && Polite(r)
    ensures var st' := Sync(st, PROVIDER, r.hierarchy, r.fetch).0; Own(st') && Linked(st')
  {
    if r.hierarchy.Some? && Normalize(r.hierarchy.value).Ok? {
      var s := r.hierarchy.value;
      var n := Normalize(s).value;
      var ids := ChangedIds(n.events, Statuses(st.events, PROVIDER));
      var mid := ApplyHierarchy(st, n);
      HierarchyWrites(st, s);
      HierarchyKeepsLinked(st, s);
      if ids != [] && r.fetch(ids).Some? {
        var cs: seq<Condition>, order :| r.fetch(ids).value == Built(cs, order) && Visits(order, Games(cs))
                         && forall c | c in cs :: c.game.game in ids;
        EventsRemain(st, s);
        NormalizedIsOwn(s);
        forall c | c in cs ensures KnowsGame(mid, c.game.game) {
          ChangedHas(n.events, Statuses(st.events, PROVIDER), c.game.game);
          var e :| e in n.events && e.key == c.game.game;
          assert OwnEvent(EventKey(e), e);
        }
        ConditionsKeepLinked(mid, cs, order);
      }
    }
  }

  /** After any run of syncs, failed ones included, every stored market points to a stored event and every stored
      outcome to a stored market. */
  lemma {:induction false} ReferencesAreStored(rounds: seq<Round>, stores: seq<Store>, n: nat)
    requires n <= |rounds| && IncrementalRun(rounds, stores) && forall i | 0 <= i < |rounds| :: Polite(rounds[i])
    ensures Own(stores[n]) && Linked(stores[n])
  {
    if n > 0 {
      ReferencesAreStored(rounds, stores, n - 1);
      assert Synced(stores[n - 1], rounds[n - 1], stores[n]);
      SyncKeepsLinked(stores[n - 1], rounds[n - 1]);
    }
  }
}
