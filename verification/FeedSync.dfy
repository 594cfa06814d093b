/** Incremental synchronisation of the feed: the hierarchy always, conditions only for events that need them. */
module FeedSync {
  import opened Basics
  import opened Lists
  import opened FeedStore
  import opened Normalizer

  datatype SyncError =
    | UnknownProvider | HierarchyFailed | BadHierarchy(problem: Problem) | ConditionsFailed
    | BadConditions(problem: Problem)

  function ApplyHierarchy(st: Store, n: Normalized): Store {
    st.(sports := Fold(UpsertSport, st.sports, n.sports), leagues := Fold(UpsertLeague, st.leagues, n.leagues),
        events := Fold(UpsertEvent, st.events, n.events))
  }

  function ApplyMarkets(st: Store, n: Normalized): Store {
    st.(markets := Fold(UpsertMarket, st.markets, n.markets), outcomes := Fold(UpsertOutcome, st.outcomes, n.outcomes))
  }

  /** New events, live events, and events whose status changed. */
  predicate NeedsConditions(e: Event, existing: map<string, string>) {
    e.key !in existing || existing[e.key] != e.status || e.status == "live"
  }

  function ChangedIds(events: seq<Event>, existing: map<string, string>): seq<string> {
    if events == [] then []
    else
      ChangedIds(events[..|events| - 1], existing)
      + if NeedsConditions(events[|events| - 1], existing) then [events[|events| - 1].key] else []
  }

  /** The second half of a sync, asking for the given games. */
  function Refresh(st: Store, ids: seq<string>, fetch: seq<string> -> Option<Snapshot>): (Store, Option<SyncError>) {
    if ids == [] then (st, None)
    else match fetch(ids)
      case None => (st, Some(ConditionsFailed))
      case Some(conditions) =>
        match Normalize(conditions)
        case Err(problem) => (st, Some(BadConditions(problem)))
        case Ok(n) => (ApplyMarkets(st, n), None)
  }

  /** `hierarchy` is what the provider answers, `fetch` how it answers for conditions; None is an error. */
  ghost function Sync(st: Store, name: string, hierarchy: Option<Snapshot>, fetch: seq<string> -> Option<Snapshot>)
    : (Store, Option<SyncError>)
    requires Keyed(st.events)
  {
    if hierarchy.None? then (st, Some(HierarchyFailed))
    else match Normalize(hierarchy.value)
      case Err(problem) => (st, Some(BadHierarchy(problem)))
      case Ok(n) => Refresh(ApplyHierarchy(st, n), ChangedIds(n.events, Statuses(st.events, name)), fetch)
  }

  lemma {:induction false} EventsStayKeyed(m: map<string, Event>, xs: seq<Event>)
    requires Keyed(m)
    ensures Keyed(Fold(UpsertEvent, m, xs))
  {
    if xs != [] { EventsStayKeyed(m, xs[..|xs| - 1]); }
  }

  lemma RefreshKeepsEvents(st: Store, ids: seq<string>, fetch: seq<string> -> Option<Snapshot>)
    ensures Refresh(st, ids, fetch).0.events == st.events
  {
  }

  lemma SyncKeepsKeyed(st: Store, name: string, hierarchy: Option<Snapshot>, fetch: seq<string> -> Option<Snapshot>)
    requires Keyed(st.events)
    ensures Keyed(Sync(st, name, hierarchy, fetch).0.events)
  {
    if hierarchy.Some? {
      match Normalize(hierarchy.value)
      case Err(_) =>
      case Ok(n) =>
        EventsStayKeyed(st.events, n.events);
        RefreshKeepsEvents(ApplyHierarchy(st, n), ChangedIds(n.events, Statuses(st.events, name)), fetch);
    }
  }

  lemma {:induction false} ChangedHas(events: seq<Event>, existing: map<string, string>, key: string)
    ensures key in ChangedIds(events, existing)
            <==> exists e :: e in events && e.key == key && NeedsConditions(e, existing)
  {
    if events != [] {
      var before, last := events[..|events| - 1], events[|events| - 1];
      ChangedHas(before, existing, key);
      assert events == before + [last];
      assert last in events;
    }
  }

  /** A listed event whose conditions a sync asks for: it is live, or not stored under its status. */
  predicate Outdated(e: Event, stored: map<string, Event>, name: string) {
    var k := name + ":" + e.key;
    e.status == "live" || !(k in stored && stored[k].provider == name && stored[k].status == e.status)
  }

  lemma OutdatedNeeds(e: Event, stored: map<string, Event>, name: string)
    requires Keyed(stored)
    ensures NeedsConditions(e, Statuses(stored, name)) <==> Outdated(e, stored, name)
  {
    NamedIsKeyed(stored, name, e.key);
  }

  /** The keys of the outdated events, and no others. */
  ghost predicate AsksForOutdated(ids: seq<string>, events: seq<Event>, stored: map<string, Event>, name: string) {
    forall id :: id in ids <==> exists e :: e in events && e.key == id && Outdated(e, stored, name)
  }

  predicate KeepsConditions(before: Store, after: Store) {
    after.markets == before.markets && after.outcomes == before.outcomes
  }

  /** After the hierarchy is stored: conditions are asked for only if some event is outdated, and for exactly those;
      an answer that fails or cannot be read leaves the stored conditions alone. */
  ghost predicate Refreshes(before: Store, after: Store, name: string, events: seq<Event>,
                            fetch: seq<string> -> Option<Snapshot>, error: Option<SyncError>)
  {
    if forall e | e in events :: !Outdated(e, before.events, name) then
      error.None? && KeepsConditions(before, after)
    else
      exists ids: seq<string> | AsksForOutdated(ids, events, before.events, name) ::
        if fetch(ids).None? then error == Some(ConditionsFailed) && KeepsConditions(before, after)
        else match Normalize(fetch(ids).value)
          case Err(problem) => error == Some(BadConditions(problem)) && KeepsConditions(before, after)
          case Ok(n) => error.None? && KeepsConditions(ApplyMarkets(before, n), after)
  }

  lemma SyncRefreshes(st: Store, name: string, hierarchy: Snapshot, fetch: seq<string> -> Option<Snapshot>)
    requires Keyed(st.events) && Normalize(hierarchy).Ok?
    ensures var (st', error) := Sync(st, name, Some(hierarchy), fetch);
            Refreshes(st, st', name, Normalize(hierarchy).value.events, fetch, error)
  {
    var events := Normalize(hierarchy).value.events;
    var ids := ChangedIds(events, Statuses(st.events, name));
    AsksForChanged(st.events, name, events);
    NothingOutdated(ids, events, st.events, name);
    RefreshTells(ApplyHierarchy(st, Normalize(hierarchy).value), ids, fetch);
  }

  lemma AsksForChanged(stored: map<string, Event>, name: string, events: seq<Event>)
    requires Keyed(stored)
    ensures AsksForOutdated(ChangedIds(events, Statuses(stored, name)), events, stored, name)
  {
    var ids := ChangedIds(events, Statuses(stored, name));
    forall id ensures id in ids <==> exists e :: e in events && e.key == id && Outdated(e, stored, name) {
      ChangedHas(events, Statuses(stored, name), id);
      forall e ensures NeedsConditions(e, Statuses(stored, name)) <==> Outdated(e, stored, name) {
        OutdatedNeeds(e, stored, name);
      }
    }
  }

  lemma NothingOutdated(ids: seq<string>, events: seq<Event>, stored: map<string, Event>, name: string)
    requires AsksForOutdated(ids, events, stored, name)
    ensures ids == [] <==> forall e | e in events :: !Outdated(e, stored, name)
  {
    if ids != [] { assert ids[0] in ids; }
    forall e | e in events && Outdated(e, stored, name) ensures e.key in ids {}
  }

  lemma RefreshTells(st: Store, ids: seq<string>, fetch: seq<string> -> Option<Snapshot>)
    ensures var (st', error) := Refresh(st, ids, fetch);
            if ids == [] then error.None? && st' == st
            else if fetch(ids).None? then error == Some(ConditionsFailed) && st' == st
            else match Normalize(fetch(ids).value)
              case Err(problem) => error == Some(BadConditions(problem)) && st' == st
              case Ok(n) => error.None? && KeepsConditions(ApplyMarkets(st, n), st')
  {
  }

  /** Every entity has an id. */
  ghost predicate Identified(n: Normalized) {
    && (forall x | x in n.sports :: x.id != NoId) && (forall x | x in n.leagues :: x.id != NoId)
    && (forall x | x in n.events :: x.id != NoId) && (forall x | x in n.markets :: x.id != NoId)
    && (forall x | x in n.outcomes :: x.id != NoId)
  }

  lemma NormalizedIsIdentified(s: Snapshot)
    requires Normalize(s).Ok?
    ensures Identified(Normalize(s).value)
  {
    TraverseKeeps((x: LeagueSnapshot) => ToLeague(s.provider, Sports(s), x), s.leagues);
    TraverseKeeps((x: EventSnapshot) => ToEvent(s.provider, Sports(s), Leagues(s), x), s.events);
    TraverseKeeps((x: MarketSnapshot) => ToMarket(s.provider, Events(s), x), s.markets);
    TraverseKeeps((x: OutcomeSnapshot) => ToOutcome(s.provider, Markets(s), x), s.outcomes);
  }

  class Service {
    const store: MemoryStore
    const providers: set<string>

    constructor (store: MemoryStore, providers: set<string>)
      ensures this.store == store && this.providers == providers
    {
      this.store := store;
      this.providers := providers;
    }

    /** `drawn` stands for the ids the store would draw; the normaliser leaves none to draw. */
    method SyncProvider(name: string, hierarchy: Option<Snapshot>, fetch: seq<string> -> Option<Snapshot>, drawn: Id)
      returns (error: Option<SyncError>)
      requires Keyed(store.events)
      modifies store
      ensures Keyed(store.events)
      ensures name !in providers ==> error == Some(UnknownProvider) && store.Contents() == old(store.Contents())
      ensures name in providers ==> (store.Contents(), error) == Sync(old(store.Contents()), name, hierarchy, fetch)
      ensures name in providers && hierarchy.None? ==>
                error == Some(HierarchyFailed) && store.Contents() == old(store.Contents())
      ensures name in providers && hierarchy.Some? && Normalize(hierarchy.value).Err? ==>
                error == Some(BadHierarchy(Normalize(hierarchy.value).error))
                && store.Contents() == old(store.Contents())
      ensures name in providers && hierarchy.Some? && Normalize(hierarchy.value).Ok? ==>
                Refreshes(old(store.Contents()), store.Contents(), name, Normalize(hierarchy.value).value.events, fetch,
                          error)
    {
      if name !in providers { return Some(UnknownProvider); }
      SyncKeepsKeyed(store.Contents(), name, hierarchy, fetch);
      if hierarchy.Some? && Normalize(hierarchy.value).Ok? {
        SyncRefreshes(store.Contents(), name, hierarchy.value, fetch);
      }
      if hierarchy.None? { return Some(HierarchyFailed); }
      var normal := NormalizeSnapshot(hierarchy.value);
      if normal.Err? { return Some(BadHierarchy(normal.error)); }
      var existing := store.GetEventStatusesByProvider(name);
      NormalizedIsIdentified(hierarchy.value);
      StoreHierarchy(normal.value, drawn);
      var ids := ChangedEventIDs(normal.value.events, existing);
      if |ids| == 0 { return None; }
      var conditions := fetch(ids);
      if conditions.None? { return Some(ConditionsFailed); }
      var refreshed := NormalizeSnapshot(conditions.value);
      if refreshed.Err? { return Some(BadConditions(refreshed.error)); }
      NormalizedIsIdentified(conditions.value);
      StoreMarkets(refreshed.value, drawn);
      return None;
    }

    method ChangedEventIDs(events: seq<Event>, existing: map<string, string>) returns (ids: seq<string>)
      ensures ids == ChangedIds(events, existing)
      ensures forall id :: id in ids <==>
                exists e :: e in events && e.key == id
                            && (id !in existing || existing[id] != e.status || e.status == "live")
    {
      ids := [];
      for i := 0 to |events|
        invariant ids == ChangedIds(events[..i], existing)
      {
        OneMore(events, i);
        var e := events[i];
        if e.key !in existing || existing[e.key] != e.status || e.status == "live" {
          ids := ids + [e.key];
        }
      }
      assert events[..|events|] == events;
      forall id ensures id in ids <==> exists e :: e in events && e.key == id && NeedsConditions(e, existing) {
        ChangedHas(events, existing, id);
      }
    }

    method StoreHierarchy(n: Normalized, drawn: Id)
      requires Identified(n)
      modifies store
      ensures store.Contents() == ApplyHierarchy(old(store.Contents()), n)
    {
      ghost var before := store.Contents();
      for i := 0 to |n.sports|
        invariant store.Contents() == before.(sports := Fold(UpsertSport, before.sports, n.sports[..i]))
      {
        OneMore(n.sports, i);
        var _ := store.PutSport(n.sports[i], drawn);
      }
      assert n.sports[..|n.sports|] == n.sports;
      ghost var sported := store.Contents();
      for i := 0 to |n.leagues|
        invariant store.Contents() == sported.(leagues := Fold(UpsertLeague, before.leagues, n.leagues[..i]))
      {
        OneMore(n.leagues, i);
        var _ := store.PutLeague(n.leagues[i], drawn);
      }
      assert n.leagues[..|n.leagues|] == n.leagues;
      ghost var leagued := store.Contents();
      for i := 0 to |n.events|
        invariant store.Contents() == leagued.(events := Fold(UpsertEvent, before.events, n.events[..i]))
      {
        OneMore(n.events, i);
        var _ := store.PutEvent(n.events[i], drawn);
      }
      assert n.events[..|n.events|] == n.events;
    }

    method StoreMarkets(n: Normalized, drawn: Id)
      requires Identified(n)
      modifies store
      ensures store.Contents() == ApplyMarkets(old(store.Contents()), n)
    {
      ghost var before := store.Contents();
      for i := 0 to |n.markets|
        invariant store.Contents() == before.(markets := Fold(UpsertMarket, before.markets, n.markets[..i]))
      {
        OneMore(n.markets, i);
        var _ := store.PutMarket(n.markets[i], drawn);
      }
      assert n.markets[..|n.markets|] == n.markets;
      ghost var marketed := store.Contents();
      for i := 0 to |n.outcomes|
        invariant store.Contents() == marketed.(outcomes := Fold(UpsertOutcome, before.outcomes, n.outcomes[..i]))
      {
        OneMore(n.outcomes, i);
        var _ := store.PutOutcome(n.outcomes[i], drawn);
      }
      assert n.outcomes[..|n.outcomes|] == n.outcomes;
    }
  }
}
