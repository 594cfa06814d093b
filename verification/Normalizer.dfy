/** Provider snapshots, their cross-references, and how conditions become a snapshot. */
module Normalizer {
  import opened Basics
  import opened Lists
  import opened FeedStore

  datatype SportSnapshot = SportSnapshot(key: string, slug: string, name: string)

  datatype LeagueSnapshot = LeagueSnapshot(key: string, sport: string, name: string, country: string)

  datatype EventSnapshot = EventSnapshot(
    key: string, league: string, sport: string, home: string, away: string, startsAt: Stamp, status: string,
    homeScore: string, awayScore: string, scoredAt: Stamp, metadata: Metadata)

  datatype MarketSnapshot = MarketSnapshot(
    key: string, event: string, kind: string, name: string, line: string, status: string, metadata: Metadata)

  datatype OutcomeSnapshot = OutcomeSnapshot(
    key: string, market: string, name: string, odds: string, status: string, metadata: Metadata)

  datatype Snapshot = Snapshot(
    provider: string, sports: seq<SportSnapshot>, leagues: seq<LeagueSnapshot>, events: seq<EventSnapshot>,
    markets: seq<MarketSnapshot>, outcomes: seq<OutcomeSnapshot>)

  datatype Problem = UnknownSport | UnknownEvent | UnknownMarket | BadTime

  datatype Normalized = Normalized(
    sports: seq<Sport>, leagues: seq<League>, events: seq<Event>, markets: seq<Market>, outcomes: seq<Outcome>)

  // ---- Normalising ----------------------------------------------------------------------------------------------

  type Ids = map<string, Id>

  /** The zero id where a map lookup finds nothing. */
  function Find(ids: Ids, key: string): Id {
    if key in ids then ids[key] else NoId
  }

  function ToSport(provider: string, x: SportSnapshot): Sport {
    Sport(Id(provider, SportKind, x.key), provider, x.key, x.slug, x.name)
  }

  function ToLeague(provider: string, sports: Ids, x: LeagueSnapshot): Result<League, Problem> {
    if x.sport !in sports then Err(UnknownSport)
    else Ok(League(Id(provider, LeagueKind, x.key), provider, x.key, sports[x.sport], x.name, x.country))
  }

  function ToEvent(provider: string, sports: Ids, leagues: Ids, x: EventSnapshot): Result<Event, Problem> {
    if x.startsAt.Garbled? || x.scoredAt.Garbled? then Err(BadTime)
    else
      Ok(Event(Id(provider, EventKind, x.key), provider, x.key, Find(leagues, x.league), Find(sports, x.sport),
               x.home, x.away, x.startsAt, x.status, x.homeScore, x.awayScore, x.scoredAt, x.metadata))
  }

  function ToMarket(provider: string, events: Ids, x: MarketSnapshot): Result<Market, Problem> {
    if x.event !in events then Err(UnknownEvent)
    else
      Ok(Market(Id(provider, MarketKind, x.key), provider, x.key, events[x.event], x.kind, x.name, x.line, x.status,
                x.metadata))
  }

  function ToOutcome(provider: string, markets: Ids, x: OutcomeSnapshot): Result<Outcome, Problem> {
    if x.market !in markets then Err(UnknownMarket)
    else
      Ok(Outcome(Id(provider, OutcomeKind, x.key), provider, x.key, markets[x.market], x.name, x.odds, x.status,
                 x.metadata))
  }

  /** The ids the elements get, by their keys. */
  function IdsOf<A>(provider: string, kind: Kind, key: A -> string, xs: seq<A>): Ids {
    if xs == [] then map[]
    else
      var k := key(xs[|xs| - 1]);
      IdsOf(provider, kind, key, xs[..|xs| - 1])[k := Id(provider, kind, k)]
  }

  lemma {:induction false} IdsHave<A>(provider: string, kind: Kind, key: A -> string, xs: seq<A>, k: string)
    ensures k in IdsOf(provider, kind, key, xs) <==> exists i :: 0 <= i < |xs| && key(xs[i]) == k
    ensures k in IdsOf(provider, kind, key, xs) ==> IdsOf(provider, kind, key, xs)[k] == Id(provider, kind, k)
  {
    if xs != [] {
      var before := xs[..|xs| - 1];
      IdsHave(provider, kind, key, before, k);
      if i :| 0 <= i < |before| && key(before[i]) == k { assert key(xs[i]) == k; }
      if i :| 0 <= i < |xs| && key(xs[i]) == k { assert i < |before| ==> key(before[i]) == k; }
    }
  }

  function NameOfSport(x: SportSnapshot): string { x.key }

  function NameOfLeague(x: LeagueSnapshot): string { x.key }

  function NameOfEvent(x: EventSnapshot): string { x.key }

  function NameOfMarket(x: MarketSnapshot): string { x.key }

  function Sports(s: Snapshot): Ids { IdsOf(s.provider, SportKind, NameOfSport, s.sports) }

  function Leagues(s: Snapshot): Ids { IdsOf(s.provider, LeagueKind, NameOfLeague, s.leagues) }

  function Events(s: Snapshot): Ids { IdsOf(s.provider, EventKind, NameOfEvent, s.events) }

  function Markets(s: Snapshot): Ids { IdsOf(s.provider, MarketKind, NameOfMarket, s.markets) }

  function NormalLeagues(s: Snapshot): Result<seq<League>, Problem> {
    Traverse((x: LeagueSnapshot) => ToLeague(s.provider, Sports(s), x), s.leagues)
  }

  function NormalEvents(s: Snapshot): Result<seq<Event>, Problem> {
    Traverse((x: EventSnapshot) => ToEvent(s.provider, Sports(s), Leagues(s), x), s.events)
  }

  function NormalMarkets(s: Snapshot): Result<seq<Market>, Problem> {
    Traverse((x: MarketSnapshot) => ToMarket(s.provider, Events(s), x), s.markets)
  }

  function NormalOutcomes(s: Snapshot): Result<seq<Outcome>, Problem> {
    Traverse((x: OutcomeSnapshot) => ToOutcome(s.provider, Markets(s), x), s.outcomes)
  }

  function Normalize(s: Snapshot): Result<Normalized, Problem> {
    if NormalLeagues(s).Err? then Err(NormalLeagues(s).error)
    else if NormalEvents(s).Err? then Err(NormalEvents(s).error)
    else if NormalMarkets(s).Err? then Err(NormalMarkets(s).error)
    else if NormalOutcomes(s).Err? then Err(NormalOutcomes(s).error)
    else
      Ok(Normalized(Map((x: SportSnapshot) => ToSport(s.provider, x), s.sports), NormalLeagues(s).value,
                    NormalEvents(s).value, NormalMarkets(s).value, NormalOutcomes(s).value))
  }

  method NormalizeSports(s: Snapshot) returns (ids: Ids, sports: seq<Sport>)
    ensures ids == Sports(s) && sports == Map((x: SportSnapshot) => ToSport(s.provider, x), s.sports)
  {
    ids, sports := map[], [];
    for i := 0 to |s.sports|
      invariant ids == IdsOf(s.provider, SportKind, NameOfSport, s.sports[..i])
      invariant sports == Map((x: SportSnapshot) => ToSport(s.provider, x), s.sports[..i])
    {
      var x := s.sports[i];
      var id := Id(s.provider, SportKind, x.key);
      OneMore(s.sports, i);
      ids := ids[x.key := id];
      sports := sports + [Sport(id, s.provider, x.key, x.slug, x.name)];
    }
    assert s.sports[..|s.sports|] == s.sports;
  }

  method NormalizeLeagues(s: Snapshot, sports: Ids) returns (ids: Ids, leagues: Result<seq<League>, Problem>)
    requires sports == Sports(s)
    ensures leagues == NormalLeagues(s) && (leagues.Ok? ==> ids == Leagues(s))
  {
    ghost var f := (x: LeagueSnapshot) => ToLeague(s.provider, Sports(s), x);
    ids := map[];
    var done: seq<League> := [];
    TraverseStarts(f, s.leagues);
    for i := 0 to |s.leagues|
      invariant ids == IdsOf(s.provider, LeagueKind, NameOfLeague, s.leagues[..i])
      invariant Traverse(f, s.leagues) == Prepend(done, Traverse(f, s.leagues[i..]))
    {
      var x := s.leagues[i];
      var id := Id(s.provider, LeagueKind, x.key);
      OneMore(s.leagues, i);
      TraverseNext(f, s.leagues, done, i);
      ids := ids[x.key := id];
      if x.sport !in sports { return ids, Err(UnknownSport); }
      done := done + [League(id, s.provider, x.key, sports[x.sport], x.name, x.country)];
    }
    TraverseEnds(f, s.leagues, done);
    assert s.leagues[..|s.leagues|] == s.leagues;
    leagues := Ok(done);
  }

  method NormalizeEvents(s: Snapshot, sports: Ids, leagues: Ids) returns (ids: Ids, events: Result<seq<Event>, Problem>)
    requires sports == Sports(s) && leagues == Leagues(s)
    ensures events == NormalEvents(s) && (events.Ok? ==> ids == Events(s))
  {
    ghost var f := (x: EventSnapshot) => ToEvent(s.provider, Sports(s), Leagues(s), x);
    ids := map[];
    var done: seq<Event> := [];
    TraverseStarts(f, s.events);
    for i := 0 to |s.events|
      invariant ids == IdsOf(s.provider, EventKind, NameOfEvent, s.events[..i])
      invariant Traverse(f, s.events) == Prepend(done, Traverse(f, s.events[i..]))
    {
      var x := s.events[i];
      var id := Id(s.provider, EventKind, x.key);
      OneMore(s.events, i);
      TraverseNext(f, s.events, done, i);
      ids := ids[x.key := id];
      if x.startsAt.Garbled? { return ids, Err(BadTime); }
      if x.scoredAt.Garbled? { return ids, Err(BadTime); }
      done := done + [Event(
        id, s.provider, x.key, Find(leagues, x.league), Find(sports, x.sport), x.home, x.away, x.startsAt, x.status,
        x.homeScore, x.awayScore, x.scoredAt, x.metadata)];
    }
    TraverseEnds(f, s.events, done);
    assert s.events[..|s.events|] == s.events;
    events := Ok(done);
  }

  method NormalizeMarkets(s: Snapshot, events: Ids) returns (ids: Ids, markets: Result<seq<Market>, Problem>)
    requires events == Events(s)
    ensures markets == NormalMarkets(s) && (markets.Ok? ==> ids == Markets(s))
  {
    ghost var f := (x: MarketSnapshot) => ToMarket(s.provider, Events(s), x);
    ids := map[];
    var done: seq<Market> := [];
    TraverseStarts(f, s.markets);
    for i := 0 to |s.markets|
      invariant ids == IdsOf(s.provider, MarketKind, NameOfMarket, s.markets[..i])
      invariant Traverse(f, s.markets) == Prepend(done, Traverse(f, s.markets[i..]))
    {
      var x := s.markets[i];
      var id := Id(s.provider, MarketKind, x.key);
      OneMore(s.markets, i);
      TraverseNext(f, s.markets, done, i);
      ids := ids[x.key := id];
      if x.event !in events { return ids, Err(UnknownEvent); }
      done := done + [Market(
        id, s.provider, x.key, events[x.event], x.kind, x.name, x.line, x.status, x.metadata)];
    }
    TraverseEnds(f, s.markets, done);
    assert s.markets[..|s.markets|] == s.markets;
    markets := Ok(done);
  }

  method NormalizeOutcomes(s: Snapshot, markets: Ids) returns (outcomes: Result<seq<Outcome>, Problem>)
    requires markets == Markets(s)
    ensures outcomes == NormalOutcomes(s)
  {
    ghost var f := (x: OutcomeSnapshot) => ToOutcome(s.provider, Markets(s), x);
    var done: seq<Outcome> := [];
    TraverseStarts(f, s.outcomes);
    for i := 0 to |s.outcomes|
      invariant Traverse(f, s.outcomes) == Prepend(done, Traverse(f, s.outcomes[i..]))
    {
      var x := s.outcomes[i];
      TraverseNext(f, s.outcomes, done, i);
      if x.market !in markets { return Err(UnknownMarket); }
      done := done + [Outcome(
        Id(s.provider, OutcomeKind, x.key), s.provider, x.key, markets[x.market], x.name, x.odds, x.status,
        x.metadata)];
    }
    TraverseEnds(f, s.outcomes, done);
    outcomes := Ok(done);
  }

  // ---- What normalising says, entity by entity --------------------------------------------------------------------

  predicate HasSport(s: Snapshot, key: string) { exists i :: 0 <= i < |s.sports| && s.sports[i].key == key }

  predicate HasLeague(s: Snapshot, key: string) { exists i :: 0 <= i < |s.leagues| && s.leagues[i].key == key }

  predicate HasEvent(s: Snapshot, key: string) { exists i :: 0 <= i < |s.events| && s.events[i].key == key }

  predicate HasMarket(s: Snapshot, key: string) { exists i :: 0 <= i < |s.markets| && s.markets[i].key == key }

  /** References name the hash of provider, kind and the key referred to; a league or sport an event does not find is
      left out. */
  predicate SportTold(s: Snapshot, x: SportSnapshot, y: Sport) {
    y.id == Id(s.provider, SportKind, x.key) && y.provider == s.provider && y.key == x.key && y.slug == x.slug
    && y.name == x.name
  }

  predicate LeagueTold(s: Snapshot, x: LeagueSnapshot, y: League) {
    y.id == Id(s.provider, LeagueKind, x.key) && y.provider == s.provider && y.key == x.key
    && y.sportId == Id(s.provider, SportKind, x.sport) && y.name == x.name && y.country == x.country
  }

  predicate EventTold(s: Snapshot, x: EventSnapshot, y: Event) {
    && y.id == Id(s.provider, EventKind, x.key) && y.provider == s.provider && y.key == x.key
    && y.leagueId == (if HasLeague(s, x.league) then Id(s.provider, LeagueKind, x.league) else NoId)
    && y.sportId == (if HasSport(s, x.sport) then Id(s.provider, SportKind, x.sport) else NoId)
    && y.home == x.home && y.away == x.away && y.startsAt == x.startsAt && y.status == x.status
    && y.homeScore == x.homeScore && y.awayScore == x.awayScore && y.scoredAt == x.scoredAt && y.metadata == x.metadata
  }

  predicate MarketTold(s: Snapshot, x: MarketSnapshot, y: Market) {
    y.id == Id(s.provider, MarketKind, x.key) && y.provider == s.provider && y.key == x.key
    && y.eventId == Id(s.provider, EventKind, x.event) && y.kind == x.kind && y.name == x.name && y.line == x.line
    && y.status == x.status && y.metadata == x.metadata
  }

  predicate OutcomeTold(s: Snapshot, x: OutcomeSnapshot, y: Outcome) {
    y.id == Id(s.provider, OutcomeKind, x.key) && y.provider == s.provider && y.key == x.key
    && y.marketId == Id(s.provider, MarketKind, x.market) && y.name == x.name && y.odds == x.odds
    && y.status == x.status && y.metadata == x.metadata
  }

  predicate SportsTold(s: Snapshot, ys: seq<Sport>) {
    |ys| == |s.sports| && forall i | 0 <= i < |ys| :: SportTold(s, s.sports[i], ys[i])
  }

  predicate LeaguesTold(s: Snapshot, ys: seq<League>) {
    |ys| == |s.leagues| && forall i | 0 <= i < |ys| :: LeagueTold(s, s.leagues[i], ys[i])
  }

  predicate EventsTold(s: Snapshot, ys: seq<Event>) {
    |ys| == |s.events| && forall i | 0 <= i < |ys| :: EventTold(s, s.events[i], ys[i])
  }

  predicate MarketsTold(s: Snapshot, ys: seq<Market>) {
    |ys| == |s.markets| && forall i | 0 <= i < |ys| :: MarketTold(s, s.markets[i], ys[i])
  }

  predicate OutcomesTold(s: Snapshot, ys: seq<Outcome>) {
    |ys| == |s.outcomes| && forall i | 0 <= i < |ys| :: OutcomeTold(s, s.outcomes[i], ys[i])
  }

  /** Each entity of the snapshot, in its place. */
  predicate Told(s: Snapshot, n: Normalized) {
    SportsTold(s, n.sports) && LeaguesTold(s, n.leagues) && EventsTold(s, n.events) && MarketsTold(s, n.markets)
    && OutcomesTold(s, n.outcomes)
  }

  predicate SportsFound(s: Snapshot) { forall x | x in s.leagues :: HasSport(s, x.sport) }

  predicate TimesRead(s: Snapshot) { forall x | x in s.events :: !x.startsAt.Garbled? && !x.scoredAt.Garbled? }

  predicate EventsFound(s: Snapshot) { forall x | x in s.markets :: HasEvent(s, x.event) }

  predicate MarketsFound(s: Snapshot) { forall x | x in s.outcomes :: HasMarket(s, x.market) }

  /** Success with every entity told, or the first problem: sports, then times, then events, then markets. */
  predicate Normalizes(s: Snapshot, r: Result<Normalized, Problem>) {
    if !SportsFound(s) then r == Err(UnknownSport)
    else if !TimesRead(s) then r == Err(BadTime)
    else if !EventsFound(s) then r == Err(UnknownEvent)
    else if !MarketsFound(s) then r == Err(UnknownMarket)
    else r.Ok? && Told(s, r.value)
  }

  lemma KnownKeys(s: Snapshot, key: string)
    ensures key in Sports(s) <==> HasSport(s, key)
    ensures key in Leagues(s) <==> HasLeague(s, key)
    ensures key in Events(s) <==> HasEvent(s, key)
    ensures key in Markets(s) <==> HasMarket(s, key)
    ensures key in Sports(s) ==> Sports(s)[key] == Id(s.provider, SportKind, key)
    ensures key in Leagues(s) ==> Leagues(s)[key] == Id(s.provider, LeagueKind, key)
    ensures key in Events(s) ==> Events(s)[key] == Id(s.provider, EventKind, key)
    ensures key in Markets(s) ==> Markets(s)[key] == Id(s.provider, MarketKind, key)
  {
    IdsHave(s.provider, SportKind, NameOfSport, s.sports, key);
    IdsHave(s.provider, LeagueKind, NameOfLeague, s.leagues, key);
    IdsHave(s.provider, EventKind, NameOfEvent, s.events, key);
    IdsHave(s.provider, MarketKind, NameOfMarket, s.markets, key);
  }

  /** A traversal that fails has met one of the errors. */
  lemma {:induction false} TraverseError<A, B>(f: A -> Result<B, Problem>, xs: seq<A>, problem: Problem)
    requires forall x | x in xs :: f(x).Ok? || f(x) == Err(problem)
    ensures Traverse(f, xs).Ok? || Traverse(f, xs) == Err(problem)
  {
    if xs != [] { TraverseError(f, xs[1..], problem); }
  }

  lemma LeaguesTell(s: Snapshot)
    ensures if SportsFound(s)
            then NormalLeagues(s).Ok? && LeaguesTold(s, NormalLeagues(s).value)
            else NormalLeagues(s) == Err(UnknownSport)
  {
    var f := (x: LeagueSnapshot) => ToLeague(s.provider, Sports(s), x);
    forall x | x in s.leagues ensures x.sport in Sports(s) <==> HasSport(s, x.sport) { KnownKeys(s, x.sport); }
    TraverseError(f, s.leagues, UnknownSport);
    TraverseOkExactly(f, s.leagues);
    if SportsFound(s) {
      TraverseKeeps(f, s.leagues);
      forall i | 0 <= i < |s.leagues| ensures LeagueTold(s, s.leagues[i], NormalLeagues(s).value[i]) {
        KnownKeys(s, s.leagues[i].sport);
      }
    }
  }

  lemma EventsTell(s: Snapshot)
    ensures if TimesRead(s)
            then NormalEvents(s).Ok? && EventsTold(s, NormalEvents(s).value)
            else NormalEvents(s) == Err(BadTime)
  {
    var f := (x: EventSnapshot) => ToEvent(s.provider, Sports(s), Leagues(s), x);
    TraverseError(f, s.events, BadTime);
    TraverseOkExactly(f, s.events);
    if TimesRead(s) {
      TraverseKeeps(f, s.events);
      forall i | 0 <= i < |s.events| ensures EventTold(s, s.events[i], NormalEvents(s).value[i]) {
        KnownKeys(s, s.events[i].league);
        KnownKeys(s, s.events[i].sport);
      }
    }
  }

  lemma MarketsTell(s: Snapshot)
    ensures if EventsFound(s)
            then NormalMarkets(s).Ok? && MarketsTold(s, NormalMarkets(s).value)
            else NormalMarkets(s) == Err(UnknownEvent)
  {
    var f := (x: MarketSnapshot) => ToMarket(s.provider, Events(s), x);
    forall x | x in s.markets ensures x.event in Events(s) <==> HasEvent(s, x.event) { KnownKeys(s, x.event); }
    TraverseError(f, s.markets, UnknownEvent);
    TraverseOkExactly(f, s.markets);
    if EventsFound(s) {
      TraverseKeeps(f, s.markets);
      forall i | 0 <= i < |s.markets| ensures MarketTold(s, s.markets[i], NormalMarkets(s).value[i]) {
        KnownKeys(s, s.markets[i].event);
      }
    }
  }

  lemma OutcomesTell(s: Snapshot)
    ensures if MarketsFound(s)
            then NormalOutcomes(s).Ok? && OutcomesTold(s, NormalOutcomes(s).value)
            else NormalOutcomes(s) == Err(UnknownMarket)
  {
    var f := (x: OutcomeSnapshot) => ToOutcome(s.provider, Markets(s), x);
    forall x | x in s.outcomes ensures x.market in Markets(s) <==> HasMarket(s, x.market) { KnownKeys(s, x.market); }
    TraverseError(f, s.outcomes, UnknownMarket);
    TraverseOkExactly(f, s.outcomes);
    if MarketsFound(s) {
      TraverseKeeps(f, s.outcomes);
      forall i | 0 <= i < |s.outcomes| ensures OutcomeTold(s, s.outcomes[i], NormalOutcomes(s).value[i]) {
        KnownKeys(s, s.outcomes[i].market);
      }
    }
  }

  lemma NormalizeTells(s: Snapshot)
    ensures Normalizes(s, Normalize(s))
  {
    LeaguesTell(s);
    EventsTell(s);
    MarketsTell(s);
    OutcomesTell(s);
  }

  method NormalizeSnapshot(s: Snapshot) returns (r: Result<Normalized, Problem>)
    ensures r == Normalize(s) && Normalizes(s, r)
  {
    NormalizeTells(s);
    var sportIds, sports := NormalizeSports(s);
    var leagueIds, leagues := NormalizeLeagues(s, sportIds);
    if leagues.Err? { return Err(leagues.error); }
    var eventIds, events := NormalizeEvents(s, sportIds, leagueIds);
    if events.Err? { return Err(events.error); }
    var marketIds, markets := NormalizeMarkets(s, eventIds);
    if markets.Err? { return Err(markets.error); }
    var outcomes := NormalizeOutcomes(s, marketIds);
    if outcomes.Err? { return Err(outcomes.error); }
    return Ok(Normalized(sports, leagues.value, events.value, markets.value, outcomes.value));
  }

  /** Normalising succeeds exactly when every reference it checks is resolved and every time reads. */
  predicate Resolved(s: Snapshot) {
    && (forall x | x in s.leagues :: x.sport in Sports(s))
    && (forall x | x in s.events :: !x.startsAt.Garbled? && !x.scoredAt.Garbled?)
    && (forall x | x in s.markets :: x.event in Events(s))
    && (forall x | x in s.outcomes :: x.market in Markets(s))
  }

  lemma NormalizesExactlyWhenResolved(s: Snapshot)
    ensures Normalize(s).Ok? <==> Resolved(s)
  {
    TraverseOkExactly((x: LeagueSnapshot) => ToLeague(s.provider, Sports(s), x), s.leagues);
    TraverseOkExactly((x: EventSnapshot) => ToEvent(s.provider, Sports(s), Leagues(s), x), s.events);
    TraverseOkExactly((x: MarketSnapshot) => ToMarket(s.provider, Events(s), x), s.markets);
    TraverseOkExactly((x: OutcomeSnapshot) => ToOutcome(s.provider, Markets(s), x), s.outcomes);
  }

  lemma {:induction false} TraverseOkExactly<A, B>(f: A -> Result<B, Problem>, xs: seq<A>)
    ensures Traverse(f, xs).Ok? <==> forall x | x in xs :: f(x).Ok?
  {
    if xs != [] {
      TraverseOkExactly(f, xs[1..]);
      forall x | x in xs ensures x == xs[0] || x in xs[1..] {
      }
    }
  }
}
