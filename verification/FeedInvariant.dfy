/** A store fed by one provider: every upsert is a plain write, and what a sync writes where. */
module FeedInvariant {
  import opened Basics
  import opened Lists
  import opened FeedStore
  import opened Normalizer
  import opened Azuro
  import opened FeedSync

  // ---- Entities of the provider ---------------------------------------------------------------------------------

  predicate OwnSport(k: string, x: Sport) {
    x.provider == PROVIDER && k == SportKey(x) && x.id == Id(PROVIDER, SportKind, x.key)
  }

  predicate OwnLeague(k: string, x: League) {
    x.provider == PROVIDER && k == LeagueKey(x) && x.id == Id(PROVIDER, LeagueKind, x.key)
  }

  predicate OwnEvent(k: string, x: Event) {
    x.provider == PROVIDER && k == EventKey(x) && x.id == Id(PROVIDER, EventKind, x.key)
  }

  predicate OwnMarket(k: string, x: Market) {
    x.provider == PROVIDER && k == MarketKey(x) && x.id == Id(PROVIDER, MarketKind, x.key)
  }

  predicate OwnOutcome(k: string, x: Outcome) {
    x.provider == PROVIDER && k == OutcomeKey(x) && x.id == Id(PROVIDER, OutcomeKind, x.key)
  }

  ghost predicate AllOwn<V>(own: (string, V) -> bool, m: map<string, V>) {
    forall k | k in m :: own(k, m[k])
  }

  ghost predicate Own(st: Store) {
    && AllOwn(OwnSport, st.sports) && AllOwn(OwnLeague, st.leagues) && AllOwn(OwnEvent, st.events)
    && AllOwn(OwnMarket, st.markets) && AllOwn(OwnOutcome, st.outcomes)
  }

  lemma SameKey(a: string, b: string)
    ensures Key(PROVIDER, a) == Key(PROVIDER, b) <==> a == b
  {
    assert a == Key(PROVIDER, a)[|PROVIDER| + 1..];
    assert b == Key(PROVIDER, b)[|PROVIDER| + 1..];
  }

  /** On the provider's own entities the upsert f is a write under the key. */
  ghost predicate Writes<V(!new)>(f: (map<string, V>, V) -> map<string, V>, key: V -> string, own: (string, V) -> bool)
  {
    forall m, x {:trigger f(m, x)} :: AllOwn(own, m) && own(key(x), x) ==> f(m, x) == m[key(x) := x]
  }

  lemma {:induction false} FoldWrites<V(!new)>(f: (map<string, V>, V) -> map<string, V>, key: V -> string,
                                         own: (string, V) -> bool, m: map<string, V>, xs: seq<V>)
    requires Writes(f, key, own) && AllOwn(own, m) && forall x | x in xs :: own(key(x), x)
    ensures Fold(f, m, xs) == PutAll(m, key, xs) && AllOwn(own, PutAll(m, key, xs))
  {
    if xs != [] {
      FoldWrites(f, key, own, m, xs[..|xs| - 1]);
      assert xs[|xs| - 1] in xs;
    }
  }

  lemma SportsAreWritten()
    ensures Writes(UpsertSport, SportKey, OwnSport)
  {
    forall m: map<string, Sport>, x: Sport | AllOwn(OwnSport, m) && OwnSport(SportKey(x), x)
      ensures UpsertSport(m, x) == m[SportKey(x) := x]
    {
      if SportKey(x) in m { SameKey(m[SportKey(x)].key, x.key); }
    }
  }

  lemma LeaguesAreWritten()
    ensures Writes(UpsertLeague, LeagueKey, OwnLeague)
  {
    forall m: map<string, League>, x: League | AllOwn(OwnLeague, m) && OwnLeague(LeagueKey(x), x)
      ensures UpsertLeague(m, x) == m[LeagueKey(x) := x]
    {
      if LeagueKey(x) in m { SameKey(m[LeagueKey(x)].key, x.key); }
    }
  }

  lemma EventsAreWritten()
    ensures Writes(UpsertEvent, EventKey, OwnEvent)
  {
    forall m: map<string, Event>, x: Event | AllOwn(OwnEvent, m) && OwnEvent(EventKey(x), x)
      ensures UpsertEvent(m, x) == m[EventKey(x) := x]
    {
      if EventKey(x) in m { SameKey(m[EventKey(x)].key, x.key); }
    }
  }

  lemma MarketsAreWritten()
    ensures Writes(UpsertMarket, MarketKey, OwnMarket)
  {
    forall m: map<string, Market>, x: Market | AllOwn(OwnMarket, m) && OwnMarket(MarketKey(x), x)
      ensures UpsertMarket(m, x) == m[MarketKey(x) := x]
    {
      if MarketKey(x) in m { SameKey(m[MarketKey(x)].key, x.key); }
    }
  }

  lemma OutcomesAreWritten()
    ensures Writes(UpsertOutcome, OutcomeKey, OwnOutcome)
  {
    forall m: map<string, Outcome>, x: Outcome | AllOwn(OwnOutcome, m) && OwnOutcome(OutcomeKey(x), x)
      ensures UpsertOutcome(m, x) == m[OutcomeKey(x) := x]
    {
      if OutcomeKey(x) in m { SameKey(m[OutcomeKey(x)].key, x.key); }
    }
  }

  /** What the normaliser makes of the provider's snapshots is the provider's. */
  lemma NormalizedIsOwn(s: Snapshot)
    requires s.provider == PROVIDER && Normalize(s).Ok?
    ensures var n := Normalize(s).value;
            && (forall x | x in n.sports :: OwnSport(SportKey(x), x))
            && (forall x | x in n.leagues :: OwnLeague(LeagueKey(x), x))
            && (forall x | x in n.events :: OwnEvent(EventKey(x), x))
            && (forall x | x in n.markets :: OwnMarket(MarketKey(x), x))
            && (forall x | x in n.outcomes :: OwnOutcome(OutcomeKey(x), x))
  {
    TraverseKeeps((x: LeagueSnapshot) => ToLeague(s.provider, Sports(s), x), s.leagues);
    TraverseKeeps((x: EventSnapshot) => ToEvent(s.provider, Sports(s), Leagues(s), x), s.events);
    TraverseKeeps((x: MarketSnapshot) => ToMarket(s.provider, Events(s), x), s.markets);
    TraverseKeeps((x: OutcomeSnapshot) => ToOutcome(s.provider, Markets(s), x), s.outcomes);
  }

  lemma HierarchyWrites(st: Store, s: Snapshot)
    requires Own(st) && s.provider == PROVIDER && Normalize(s).Ok?
    ensures var n := Normalize(s).value;
            && ApplyHierarchy(st, n)
               == st.(sports := PutAll(st.sports, SportKey, n.sports),
                      leagues := PutAll(st.leagues, LeagueKey, n.leagues),
                      events := PutAll(st.events, EventKey, n.events))
            && Own(ApplyHierarchy(st, n))
  {
    var n := Normalize(s).value;
    NormalizedIsOwn(s);
    SportsAreWritten();
    LeaguesAreWritten();
    EventsAreWritten();
    FoldWrites(UpsertSport, SportKey, OwnSport, st.sports, n.sports);
    FoldWrites(UpsertLeague, LeagueKey, OwnLeague, st.leagues, n.leagues);
    FoldWrites(UpsertEvent, EventKey, OwnEvent, st.events, n.events);
  }

  lemma MarketsWrite(st: Store, s: Snapshot)
    requires Own(st) && s.provider == PROVIDER && Normalize(s).Ok?
    ensures var n := Normalize(s).value;
            && ApplyMarkets(st, n)
               == st.(markets := PutAll(st.markets, MarketKey, n.markets),
                      outcomes := PutAll(st.outcomes, OutcomeKey, n.outcomes))
            && Own(ApplyMarkets(st, n))
  {
    var n := Normalize(s).value;
    NormalizedIsOwn(s);
    MarketsAreWritten();
    OutcomesAreWritten();
    FoldWrites(UpsertMarket, MarketKey, OwnMarket, st.markets, n.markets);
    FoldWrites(UpsertOutcome, OutcomeKey, OwnOutcome, st.outcomes, n.outcomes);
  }

  // ---- Answers game by game -------------------------------------------------------------------------------------

  /** The conditions of one game, in order. */
  function Only(cs: seq<Condition>, game: string): seq<Condition> {
    if cs == [] then []
    else Only(cs[..|cs| - 1], game) + if cs[|cs| - 1].game.game == game then [cs[|cs| - 1]] else []
  }

  lemma {:induction false} OnlyHasAll(cs: seq<Condition>, game: string, c: Condition)
    ensures c in Only(cs, game) <==> c in cs && c.game.game == game
  {
    if cs != [] {
      OnlyHasAll(cs[..|cs| - 1], game, c);
      assert cs == cs[..|cs| - 1] + [cs[|cs| - 1]];
    }
  }

  ghost predicate AnsweredAt(cs: seq<Condition>, ids: seq<string>, conds: string -> seq<Condition>, game: string) {
    Only(cs, game) == if game in ids then conds(game) else []
  }

  /** The conditions of exactly the requested games, each game's in its own order, the games interleaved anyhow. */
  ghost predicate Answers(cs: seq<Condition>, ids: seq<string>, conds: string -> seq<Condition>) {
    forall game :: AnsweredAt(cs, ids, conds, game)
  }

  ghost predicate IsAnswer(s: Snapshot, ids: seq<string>, conds: string -> seq<Condition>) {
    exists cs, order :: s == Built(cs, order) && Visits(order, Games(cs)) && Answers(cs, ids, conds)
  }

  /** Every key the condition writes belongs to its game. */
  ghost predicate OwnedBy<V(!new)>(c: Condition, key: V -> string, f: Condition -> seq<V>, owner: string -> string,
                             game: string)
  {
    c.game.game == game && forall x | x in f(c) :: owner(key(x)) == game
  }

  ghost predicate AllOwned<V(!new)>(cs: seq<Condition>, key: V -> string, f: Condition -> seq<V>,
                                    owner: string -> string)
  {
    forall c | c in cs :: OwnedBy(c, key, f, owner, c.game.game)
  }

  /** Only the owning game's conditions write a key. */
  lemma {:induction false} OwnerWrites<V(!new)>(cs: seq<Condition>, key: V -> string, f: Condition -> seq<V>,
                                          owner: string -> string, k: string)
    requires AllOwned(cs, key, f, owner)
    ensures Last(key, Flat(f, cs), k) == Last(key, Flat(f, Only(cs, owner(k))), k)
  {
    if cs != [] {
      var before, c := cs[..|cs| - 1], cs[|cs| - 1];
      assert c in cs && OwnedBy(c, key, f, owner, c.game.game);
      forall d | d in before ensures OwnedBy(d, key, f, owner, d.game.game) { assert d in cs; }
      OwnerWrites(before, key, f, owner, k);
      OwnerWritesNext(before, c, key, f, owner, k);
      assert cs == before + [c];
    }
  }

  lemma OwnerWritesNext<V(!new)>(cs: seq<Condition>, c: Condition, key: V -> string, f: Condition -> seq<V>,
                                 owner: string -> string, k: string)
    requires OwnedBy(c, key, f, owner, c.game.game)
    requires Last(key, Flat(f, cs), k) == Last(key, Flat(f, Only(cs, owner(k))), k)
    ensures Last(key, Flat(f, cs + [c]), k) == Last(key, Flat(f, Only(cs + [c], owner(k))), k)
  {
    var mine := Only(cs, owner(k));
    assert (cs + [c])[..|cs + [c]| - 1] == cs;
    LastOfNext(cs, c, key, f, k);
    if c.game.game == owner(k) {
      LastOfNext(mine, c, key, f, k);
    } else {
      LastIsThere(key, f(c), k);
      assert mine + [] == mine;
    }
  }

  lemma LastOfNext<V>(cs: seq<Condition>, c: Condition, key: V -> string, f: Condition -> seq<V>, k: string)
    ensures Last(key, Flat(f, cs + [c]), k)
            == if Last(key, f(c), k).Some? then Last(key, f(c), k) else Last(key, Flat(f, cs), k)
  {
    assert (cs + [c])[..|cs + [c]| - 1] == cs;
    LastOfSum(key, Flat(f, cs), f(c), k);
  }

  // ---- What refreshing writes -----------------------------------------------------------------------------------

  /** m' holds under k what the requested conditions of k's game say, or what m holds if they say nothing. */
  ghost predicate RefreshedAt<V(!new)>(m: map<string, V>, m': map<string, V>, key: V -> string, f: Condition -> seq<V>,
                                 owner: string -> string, ids: seq<string>, conds: string -> seq<Condition>, k: string)
  {
    At(m', k) == if owner(k) in ids && Last(key, Flat(f, conds(owner(k))), k).Some?
                 then Last(key, Flat(f, conds(owner(k))), k) else At(m, k)
  }

  ghost predicate Refreshed<V(!new)>(m: map<string, V>, m': map<string, V>, key: V -> string, f: Condition -> seq<V>,
                               owner: string -> string, ids: seq<string>, conds: string -> seq<Condition>)
  {
    forall k :: RefreshedAt(m, m', key, f, owner, ids, conds, k)
  }

  lemma AnswersRefresh<V(!new)>(m: map<string, V>, key: V -> string, f: Condition -> seq<V>, owner: string -> string,
                          ids: seq<string>, conds: string -> seq<Condition>, cs: seq<Condition>)
    requires Answers(cs, ids, conds) && AllOwned(cs, key, f, owner)
    ensures Refreshed(m, PutAll(m, key, Flat(f, cs)), key, f, owner, ids, conds)
  {
    forall k ensures RefreshedAt(m, PutAll(m, key, Flat(f, cs)), key, f, owner, ids, conds, k) {
      PutAllAt(m, key, Flat(f, cs), k);
      OwnerWrites(cs, key, f, owner, k);
      assert AnsweredAt(cs, ids, conds, owner(k));
    }
  }

  /** Each condition of a game is the game's, and writes the game's keys only. */
  ghost predicate GameOwned<V(!new)>(game: string, conds: string -> seq<Condition>, key: V -> string,
                               f: Condition -> seq<V>, owner: string -> string)
  {
    forall c | c in conds(game) :: OwnedBy(c, key, f, owner, game)
  }

  lemma AnswersAreOwned<V(!new)>(key: V -> string, f: Condition -> seq<V>, owner: string -> string, ids: seq<string>,
                           conds: string -> seq<Condition>, cs: seq<Condition>)
    requires Answers(cs, ids, conds) && forall game :: GameOwned(game, conds, key, f, owner)
    ensures AllOwned(cs, key, f, owner)
  {
    forall c | c in cs ensures OwnedBy(c, key, f, owner, c.game.game) {
      OnlyHasAll(cs, c.game.game, c);
      assert AnsweredAt(cs, ids, conds, c.game.game) && GameOwned(c.game.game, conds, key, f, owner);
    }
  }

  function ToFeedMarkets(c: Condition): seq<Market> { [ToFeedMarket(c)] }

  lemma {:induction false} FlatMarkets(cs: seq<Condition>)
    ensures Map(ToFeedMarket, cs) == Flat(ToFeedMarkets, cs)
  {
    if cs != [] { FlatMarkets(cs[..|cs| - 1]); }
  }

  /** Which game a market's and an outcome's store key belongs to. */
  datatype Owners = Owners(market: string -> string, outcome: string -> string)

  ghost predicate Disjoint(conds: string -> seq<Condition>, owners: Owners) {
    forall game ::
      GameOwned(game, conds, MarketKey, ToFeedMarkets, owners.market)
      && GameOwned(game, conds, OutcomeKey, ToFeedOutcomes, owners.outcome)
  }

  lemma RefreshWrites(st: Store, ids: seq<string>, fetch: seq<string> -> Option<Snapshot>,
                      conds: string -> seq<Condition>, owners: Owners)
    requires Own(st) && Disjoint(conds, owners)
    requires fetch(ids).Some? && IsAnswer(fetch(ids).value, ids, conds)
    ensures var (st', error) := Refresh(st, ids, fetch);
            && error.None? && Own(st') && st' == st.(markets := st'.markets, outcomes := st'.outcomes)
            && Refreshed(st.markets, st'.markets, MarketKey, ToFeedMarkets, owners.market, ids, conds)
            && Refreshed(st.outcomes, st'.outcomes, OutcomeKey, ToFeedOutcomes, owners.outcome, ids, conds)
  {
    if ids == [] {
      forall k ensures RefreshedAt(st.markets, st.markets, MarketKey, ToFeedMarkets, owners.market, ids, conds, k) {
      }
    } else {
      var s := fetch(ids).value;
      var cs, order :| s == Built(cs, order) && Visits(order, Games(cs)) && Answers(cs, ids, conds);
      BuiltSnapshotsNormalize(cs, order);
      MarketsWrite(st, s);
      FlatMarkets(cs);
      forall game
        ensures GameOwned(game, conds, MarketKey, ToFeedMarkets, owners.market)
        ensures GameOwned(game, conds, OutcomeKey, ToFeedOutcomes, owners.outcome)
      {
      }
      AnswersAreOwned(MarketKey, ToFeedMarkets, owners.market, ids, conds, cs);
      AnswersAreOwned(OutcomeKey, ToFeedOutcomes, owners.outcome, ids, conds, cs);
      AnswersRefresh(st.markets, MarketKey, ToFeedMarkets, owners.market, ids, conds, cs);
      AnswersRefresh(st.outcomes, OutcomeKey, ToFeedOutcomes, owners.outcome, ids, conds, cs);
    }
  }
}
