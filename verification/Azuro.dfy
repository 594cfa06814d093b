/** How the Azuro provider turns conditions into a snapshot. The walk over sports and games is not part of this. */
module Azuro {
  import opened Basics
  import opened Lists
  import opened FeedStore
  import opened Normalizer

  const PROVIDER := "azuro"

  datatype GameRef = GameRef(game: string, sport: string)

  datatype Selection = Selection(title: string, key: string, odds: string, state: string)

  datatype Condition = Condition(
    id: string, conditionId: string, state: string, title: string, game: GameRef, selections: seq<Selection>)

  function ConditionState(state: string): string {
    if state == "Active" then "active"
    else if state == "Paused" || state == "Stopped" then "suspended"
    else if state == "Resolved" then "settled"
    else "cancelled"
  }

  function SelectionState(state: string): string {
    if state == "Active" then "active"
    else if state == "Won" then "won"
    else if state == "Lost" then "lost"
    else if state == "Paused" || state == "Stopped" then "suspended"
    else "cancelled"
  }

  function MarketOf(c: Condition): string {
    if c.conditionId == "" then c.id else c.conditionId
  }

  function ToMarketSnapshot(c: Condition): MarketSnapshot {
    MarketSnapshot(MarketOf(c), c.game.game, c.title, c.title, "", ConditionState(c.state), map["condition_id" := c.id])
  }

  function ToOutcomeSnapshot(market: string, x: Selection): OutcomeSnapshot {
    OutcomeSnapshot(market + ":" + x.key, market, x.title, x.odds, SelectionState(x.state),
                    map["azuro_outcome_id" := x.key])
  }

  function ToOutcomeSnapshots(c: Condition): seq<OutcomeSnapshot> {
    Map((x: Selection) => ToOutcomeSnapshot(MarketOf(c), x), c.selections)
  }

  /** The games the conditions mention, each as its last condition has it. */
  function Games(cs: seq<Condition>): map<string, GameRef> {
    if cs == [] then map[] else Games(cs[..|cs| - 1])[cs[|cs| - 1].game.game := cs[|cs| - 1].game]
  }

  function Stub(games: map<string, GameRef>, game: string): EventSnapshot {
    var sport := if game in games && games[game].sport != "" then games[game].sport else "0";
    EventSnapshot(game, "", sport, "", "", Unset, "upcoming", "", "", Unset, map[])
  }

  function Stubs(games: map<string, GameRef>, order: seq<string>): seq<EventSnapshot> {
    Map((g: string) => Stub(games, g), order)
  }

  /** The snapshot when the games are visited in the given order. */
  function Built(cs: seq<Condition>, order: seq<string>): Snapshot {
    Snapshot(PROVIDER, [], [], Stubs(Games(cs), order), Map(ToMarketSnapshot, cs), Flat(ToOutcomeSnapshots, cs))
  }

  /** Every game once, in some order. */
  ghost predicate Visits(order: seq<string>, games: map<string, GameRef>) {
    && (forall g :: g in order <==> g in games)
    && (forall i, j | 0 <= i < j < |order| :: order[i] != order[j])
  }

  // ---- What the snapshot says, condition by condition -------------------------------------------------------------

  /** How the states of selections and of conditions read. */
  predicate SelectionReads(state: string, status: string) {
    && (state == "Active" ==> status == "active")
    && (state == "Won" ==> status == "won")
    && (state == "Lost" ==> status == "lost")
    && (state == "Paused" || state == "Stopped" ==> status == "suspended")
    && (state !in ["Active", "Won", "Lost", "Paused", "Stopped"] ==> status == "cancelled")
  }

  predicate ConditionReads(state: string, status: string) {
    && (state == "Active" ==> status == "active")
    && (state == "Paused" || state == "Stopped" ==> status == "suspended")
    && (state == "Resolved" ==> status == "settled")
    && (state !in ["Active", "Paused", "Stopped", "Resolved"] ==> status == "cancelled")
  }

  /** A condition's market goes by its condition id, or by its id when it has none. */
  predicate NamesMarket(c: Condition, key: string) {
    if c.conditionId != "" then key == c.conditionId else key == c.id
  }

  predicate TellsMarket(c: Condition, y: MarketSnapshot) {
    NamesMarket(c, y.key) && y.event == c.game.game && y.kind == c.title && y.name == c.title && y.line == ""
    && ConditionReads(c.state, y.status) && y.metadata == map["condition_id" := c.id]
  }

  predicate TellsOutcome(market: string, x: Selection, y: OutcomeSnapshot) {
    y.key == market + ":" + x.key && y.market == market && y.name == x.title && y.odds == x.odds
    && SelectionReads(x.state, y.status) && y.metadata == map["azuro_outcome_id" := x.key]
  }

  /** How many selections the first n conditions have. */
  function Offset(cs: seq<Condition>, n: nat): nat
    requires n <= |cs|
  {
    if n == 0 then 0 else Offset(cs, n - 1) + |cs[n - 1].selections|
  }

  lemma {:induction false} OffsetGrows(cs: seq<Condition>, i: nat, n: nat)
    requires i < n <= |cs|
    ensures Offset(cs, i) + |cs[i].selections| <= Offset(cs, n)
  {
    if i < n - 1 { OffsetGrows(cs, i, n - 1); }
  }

  ghost predicate TellsSelections(cs: seq<Condition>, i: nat, outcomes: seq<OutcomeSnapshot>)
    requires i < |cs|
  {
    && Offset(cs, i) + |cs[i].selections| <= |outcomes|
    && forall j | 0 <= j < |cs[i].selections| ::
         TellsSelection(cs[i], cs[i].selections[j], outcomes[Offset(cs, i) + j])
  }

  ghost predicate TellsSelection(c: Condition, x: Selection, y: OutcomeSnapshot) {
    forall market | NamesMarket(c, market) :: TellsOutcome(market, x, y)
  }

  /** A stub for a game as the last condition that mentions it has it. */
  ghost predicate TellsGame(cs: seq<Condition>, e: EventSnapshot) {
    && e == EventSnapshot(e.key, "", e.sport, "", "", Unset, "upcoming", "", "", Unset, map[])
    && exists k :: 0 <= k < |cs| && cs[k].game.game == e.key && (forall m | k < m < |cs| :: cs[m].game.game != e.key)
                   && e.sport == (if cs[k].game.sport == "" then "0" else cs[k].game.sport)
  }

  predicate Mentions(events: seq<EventSnapshot>, game: string) {
    exists i :: 0 <= i < |events| && events[i].key == game
  }

  /** One market a condition and one outcome a selection, in order, and one upcoming event a game, in some order. */
  ghost predicate Tells(cs: seq<Condition>, s: Snapshot) {
    && s.provider == "azuro" && s.sports == [] && s.leagues == []
    && |s.markets| == |cs| && (forall i | 0 <= i < |cs| :: TellsMarket(cs[i], s.markets[i]))
    && |s.outcomes| == Offset(cs, |cs|) && (forall i | 0 <= i < |cs| :: TellsSelections(cs, i, s.outcomes))
    && (forall e | e in s.events :: TellsGame(cs, e))
    && (forall c | c in cs :: Mentions(s.events, c.game.game))
    && (forall i, j | 0 <= i < j < |s.events| :: s.events[i].key != s.events[j].key)
  }

  lemma {:induction false} GamesTell(cs: seq<Condition>, game: string)
    requires game in Games(cs)
    ensures exists k :: 0 <= k < |cs| && cs[k].game.game == game && Games(cs)[game] == cs[k].game
                        && forall m | k < m < |cs| :: cs[m].game.game != game
  {
    var n := |cs| - 1;
    if cs[n].game.game != game {
      GamesTell(cs[..n], game);
      var k :| 0 <= k < n && cs[..n][k].game.game == game && Games(cs[..n])[game] == cs[..n][k].game
               && forall m | k < m < n :: cs[..n][m].game.game != game;
      assert cs[k].game.game == game && forall m | k < m < n :: cs[m].game.game == cs[..n][m].game.game;
    }
  }

  lemma {:induction false} OffsetPrefix(cs: seq<Condition>, n: nat, i: nat)
    requires i <= n <= |cs|
    ensures Offset(cs[..n], i) == Offset(cs, i)
  {
    if i > 0 { OffsetPrefix(cs, n, i - 1); }
  }

  lemma {:induction false} SelectionsTell(cs: seq<Condition>)
    ensures |Flat(ToOutcomeSnapshots, cs)| == Offset(cs, |cs|)
    ensures forall i | 0 <= i < |cs| :: TellsSelections(cs, i, Flat(ToOutcomeSnapshots, cs))
  {
    if cs != [] {
      var n := |cs| - 1;
      var before, all := Flat(ToOutcomeSnapshots, cs[..n]), Flat(ToOutcomeSnapshots, cs);
      SelectionsTell(cs[..n]);
      OffsetPrefix(cs, n, n);
      forall i | 0 <= i < |cs| ensures TellsSelections(cs, i, all) {
        if i < n {
          EarlierSelectionsTell(cs, i, before, all);
        } else {
          AddedTell(cs[n]);
          LastSelectionsTell(cs, before, ToOutcomeSnapshots(cs[n]));
        }
      }
    }
  }

  lemma EarlierSelectionsTell(cs: seq<Condition>, i: nat, before: seq<OutcomeSnapshot>, all: seq<OutcomeSnapshot>)
    requires i < |cs| - 1 && before <= all && TellsSelections(cs[..|cs| - 1], i, before)
    ensures TellsSelections(cs, i, all)
  {
    OffsetPrefix(cs, |cs| - 1, i);
    assert cs[..|cs| - 1][i] == cs[i];
  }

  lemma LastSelectionsTell(cs: seq<Condition>, before: seq<OutcomeSnapshot>, added: seq<OutcomeSnapshot>)
    requires cs != [] && |before| == Offset(cs, |cs| - 1) && |added| == |cs[|cs| - 1].selections|
    requires forall j | 0 <= j < |added| :: TellsSelection(cs[|cs| - 1], cs[|cs| - 1].selections[j], added[j])
    ensures TellsSelections(cs, |cs| - 1, before + added)
  {
    var all, n := before + added, |cs| - 1;
    assert Offset(cs, n) + |cs[n].selections| == |all|;
    forall j | 0 <= j < |added| ensures TellsSelection(cs[n], cs[n].selections[j], all[Offset(cs, n) + j]) {
      assert all[|before| + j] == added[j];
    }
  }

  lemma AddedTell(c: Condition)
    ensures var added := ToOutcomeSnapshots(c);
            |added| == |c.selections| && forall j | 0 <= j < |added| :: TellsSelection(c, c.selections[j], added[j])
  {
    forall j, market | 0 <= j < |c.selections| && NamesMarket(c, market)
      ensures TellsOutcome(market, c.selections[j], ToOutcomeSnapshot(MarketOf(c), c.selections[j]))
    {
      SelectionTells(c, c.selections[j], market);
    }
  }

  lemma SelectionTells(c: Condition, x: Selection, market: string)
    requires NamesMarket(c, market)
    ensures TellsOutcome(market, x, ToOutcomeSnapshot(MarketOf(c), x))
  {
  }

  lemma MarketsTell(cs: seq<Condition>)
    ensures forall i | 0 <= i < |cs| :: TellsMarket(cs[i], Map(ToMarketSnapshot, cs)[i])
  {
    forall i | 0 <= i < |cs| ensures TellsMarket(cs[i], Map(ToMarketSnapshot, cs)[i]) { MarketTells(cs[i]); }
  }

  lemma MarketTells(c: Condition)
    ensures TellsMarket(c, ToMarketSnapshot(c))
  {
  }

  lemma StubsDiffer(cs: seq<Condition>, order: seq<string>)
    requires Visits(order, Games(cs))
    ensures var events := Stubs(Games(cs), order);
            forall i, j | 0 <= i < j < |events| :: events[i].key != events[j].key
  {
    forall i, j | 0 <= i < j < |order| ensures Stub(Games(cs), order[i]).key != Stub(Games(cs), order[j]).key {}
  }

  lemma StubsTell(cs: seq<Condition>, order: seq<string>)
    requires Visits(order, Games(cs))
    ensures forall e | e in Stubs(Games(cs), order) :: TellsGame(cs, e)
    ensures forall c | c in cs :: Mentions(Stubs(Games(cs), order), c.game.game)
  {
    GamesAreKnown(cs);
    var events := Stubs(Games(cs), order);
    forall e | e in events ensures TellsGame(cs, e) {
      var i :| 0 <= i < |events| && events[i] == e;
      assert e == Stub(Games(cs), order[i]) && order[i] in order;
      GamesTell(cs, order[i]);
    }
    forall c | c in cs ensures Mentions(events, c.game.game) {
      assert c.game.game in order;
      var i :| 0 <= i < |order| && order[i] == c.game.game;
      assert events[i].key == c.game.game;
    }
  }

  lemma BuiltTells(cs: seq<Condition>, order: seq<string>)
    requires Visits(order, Games(cs))
    ensures Tells(cs, Built(cs, order))
  {
    var s := Built(cs, order);
    StubsTell(cs, order);
    SelectionsTell(cs);
    MarketsTell(cs);
    StubsDiffer(cs, order);
  }

  method CollectGames(cs: seq<Condition>) returns (games: map<string, GameRef>)
    ensures games == Games(cs)
  {
    games := map[];
    for i := 0 to |cs|
      invariant games == Games(cs[..i])
    {
      OneMore(cs, i);
      games := games[cs[i].game.game := cs[i].game];
    }
    assert cs[..|cs|] == cs;
  }

  /** Walks the games in any order. */
  method AddStubs(games: map<string, GameRef>) returns (events: seq<EventSnapshot>)
    ensures exists order :: Visits(order, games) && events == Stubs(games, order)
  {
    events := [];
    var left := games.Keys;
    ghost var order: seq<string> := [];
    while left != {}
      invariant left <= games.Keys
      invariant forall g :: g in order <==> g in games.Keys - left
      invariant forall i, j | 0 <= i < j < |order| :: order[i] != order[j]
      invariant events == Stubs(games, order)
      decreases |left|
    {
      var game :| game in left;
      assert game !in order;
      var sport := games[game].sport;
      if sport == "" { sport := "0"; }
      events := events + [EventSnapshot(game, "", sport, "", "", Unset, "upcoming", "", "", Unset, map[])];
      order := order + [game];
      left := left - {game};
    }
  }

  method AddOutcomes(market: string, selections: seq<Selection>) returns (outcomes: seq<OutcomeSnapshot>)
    ensures outcomes == Map((x: Selection) => ToOutcomeSnapshot(market, x), selections)
    ensures |outcomes| == |selections|
    ensures forall j | 0 <= j < |selections| :: TellsOutcome(market, selections[j], outcomes[j])
  {
    outcomes := [];
    for j := 0 to |selections|
      invariant outcomes == Map((x: Selection) => ToOutcomeSnapshot(market, x), selections[..j])
    {
      var x := selections[j];
      outcomes := outcomes + [OutcomeSnapshot(
        market + ":" + x.key, market, x.title, x.odds, SelectionState(x.state), map["azuro_outcome_id" := x.key])];
    }
    assert selections[..|selections|] == selections;
  }

  method BuildSnapshot(cs: seq<Condition>) returns (s: Snapshot)
    ensures exists order :: Visits(order, Games(cs)) && s == Built(cs, order)
    ensures Tells(cs, s)
  {
    var games := CollectGames(cs);
    var events := AddStubs(games);
    ghost var order :| Visits(order, games) && events == Stubs(games, order);
    var markets: seq<MarketSnapshot> := [];
    var outcomes: seq<OutcomeSnapshot> := [];
    for i := 0 to |cs|
      invariant markets == Map(ToMarketSnapshot, cs[..i])
      invariant outcomes == Flat(ToOutcomeSnapshots, cs[..i])
    {
      OneMore(cs, i);
      var c := cs[i];
      var market := c.conditionId;
      if market == "" { market := c.id; }
      markets := markets + [MarketSnapshot(
        market, c.game.game, c.title, c.title, "", ConditionState(c.state), map["condition_id" := c.id])];
      var added := AddOutcomes(market, c.selections);
      outcomes := outcomes + added;
    }
    assert cs[..|cs|] == cs;
    s := Snapshot(PROVIDER, [], [], events, markets, outcomes);
    assert s == Built(cs, order);
    BuiltTells(cs, order);
  }

  // ---- What normalising it gives ----------------------------------------------------------------------------------

  function MarketFrom(m: MarketSnapshot): Market {
    Market(Id(PROVIDER, MarketKind, m.key), PROVIDER, m.key, Id(PROVIDER, EventKind, m.event), m.kind, m.name, m.line,
           m.status, m.metadata)
  }

  function ToFeedMarket(c: Condition): Market {
    MarketFrom(ToMarketSnapshot(c))
  }

  function ToFeedOutcome(x: OutcomeSnapshot): Outcome {
    Outcome(Id(PROVIDER, OutcomeKind, x.key), PROVIDER, x.key, Id(PROVIDER, MarketKind, x.market), x.name, x.odds,
            x.status, x.metadata)
  }

  function ToFeedOutcomes(c: Condition): seq<Outcome> {
    Map(ToFeedOutcome, ToOutcomeSnapshots(c))
  }

  lemma {:induction false} GamesAreKnown(cs: seq<Condition>)
    ensures forall c | c in cs :: c.game.game in Games(cs)
    ensures forall g | g in Games(cs) :: exists c :: c in cs && c.game.game == g
  {
    if cs != [] {
      var before := cs[..|cs| - 1];
      GamesAreKnown(before);
      assert cs == before + [cs[|cs| - 1]];
      assert cs[|cs| - 1] in cs;
    }
  }

  lemma {:induction false} OutcomesNameMarkets(cs: seq<Condition>)
    ensures forall x | x in Flat(ToOutcomeSnapshots, cs) :: exists c :: c in cs && x.market == MarketOf(c)
  {
    if cs != [] {
      var before, c := cs[..|cs| - 1], cs[|cs| - 1];
      OutcomesNameMarkets(before);
      assert cs == before + [c] && c in cs;
    }
  }

  lemma {:induction false} MapOfFlat(cs: seq<Condition>)
    ensures Map(ToFeedOutcome, Flat(ToOutcomeSnapshots, cs)) == Flat(ToFeedOutcomes, cs)
  {
    if cs != [] {
      MapOfFlat(cs[..|cs| - 1]);
    }
  }

  predicate GameIsKnown(cs: seq<Condition>, order: seq<string>, c: Condition) {
    var ids := Events(Built(cs, order));
    c.game.game in ids && ids[c.game.game] == Id(PROVIDER, EventKind, c.game.game)
  }

  predicate MarketIsKnown(cs: seq<Condition>, order: seq<string>, c: Condition) {
    var ids := Markets(Built(cs, order));
    MarketOf(c) in ids && ids[MarketOf(c)] == Id(PROVIDER, MarketKind, MarketOf(c))
  }

  lemma KnownReferences(cs: seq<Condition>, order: seq<string>, c: Condition)
    requires Visits(order, Games(cs)) && c in cs
    ensures GameIsKnown(cs, order, c) && MarketIsKnown(cs, order, c)
  {
    var s := Built(cs, order);
    GamesAreKnown(cs);
    IdsHave(PROVIDER, EventKind, NameOfEvent, s.events, c.game.game);
    IdsHave(PROVIDER, MarketKind, NameOfMarket, s.markets, MarketOf(c));
    var g :| 0 <= g < |order| && order[g] == c.game.game;
    assert NameOfEvent(s.events[g]) == c.game.game;
    var m :| 0 <= m < |cs| && cs[m] == c;
    assert NameOfMarket(s.markets[m]) == MarketOf(c);
  }

  lemma BuiltEvents(cs: seq<Condition>, order: seq<string>)
    ensures NormalEvents(Built(cs, order)).Ok?
  {
    var s := Built(cs, order);
    TraverseOkExactly((x: EventSnapshot) => ToEvent(s.provider, Sports(s), Leagues(s), x), s.events);
  }

  lemma BuiltMarkets(cs: seq<Condition>, order: seq<string>)
    requires Visits(order, Games(cs))
    ensures NormalMarkets(Built(cs, order)) == Ok(Map(ToFeedMarket, cs))
  {
    var s := Built(cs, order);
    var f := (x: MarketSnapshot) => ToMarket(s.provider, Events(s), x);
    forall x | x in s.markets ensures f(x) == Ok(MarketFrom(x)) {
      var i :| 0 <= i < |cs| && s.markets[i] == x;
      KnownReferences(cs, order, cs[i]);
      assert GameIsKnown(cs, order, cs[i]);
    }
    TraverseOk(f, MarketFrom, s.markets);
    assert Map(MarketFrom, s.markets) == Map(ToFeedMarket, cs);
  }

  lemma BuiltOutcomes(cs: seq<Condition>, order: seq<string>)
    requires Visits(order, Games(cs))
    ensures NormalOutcomes(Built(cs, order)) == Ok(Flat(ToFeedOutcomes, cs))
  {
    var s := Built(cs, order);
    var f := (x: OutcomeSnapshot) => ToOutcome(s.provider, Markets(s), x);
    OutcomesNameMarkets(cs);
    forall x | x in s.outcomes ensures f(x) == Ok(ToFeedOutcome(x)) {
      var c :| c in cs && x.market == MarketOf(c);
      KnownReferences(cs, order, c);
      assert MarketIsKnown(cs, order, c);
    }
    TraverseOk(f, ToFeedOutcome, s.outcomes);
    MapOfFlat(cs);
  }

  /** A snapshot built from conditions alone always normalises: each market points to the event of its game and each
      outcome to the market of its condition, whatever order the games were visited in. */
  lemma BuiltSnapshotsNormalize(cs: seq<Condition>, order: seq<string>)
    requires Visits(order, Games(cs))
    ensures var n := Normalize(Built(cs, order));
            n.Ok? && n.value.markets == Map(ToFeedMarket, cs) && n.value.outcomes == Flat(ToFeedOutcomes, cs)
  {
    assert NormalLeagues(Built(cs, order)) == Ok([]);
    BuiltEvents(cs, order);
    BuiltMarkets(cs, order);
    BuiltOutcomes(cs, order);
  }
}
