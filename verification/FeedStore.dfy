/** The odds feed's entities and its in-memory store. Creation and update times are left out. */
module FeedStore {
  import opened Basics
  import opened Lists

  datatype Kind = SportKind | LeagueKind | EventKind | MarketKind | OutcomeKind

  /** An id is a hash of provider, kind and the provider's own id; it is taken to be injective. */
  datatype Id = NoId | Id(provider: string, kind: Kind, key: string)

  /** A time text: absent, not in the expected format, or a time. */
  datatype Stamp = Unset | Garbled | Seconds(seconds: int)

  type Metadata = map<string, string>

  datatype Sport = Sport(id: Id, provider: string, key: string, slug: string, name: string)

  datatype League = League(id: Id, provider: string, key: string, sportId: Id, name: string, country: string)

  datatype Event = Event(
    id: Id, provider: string, key: string, leagueId: Id, sportId: Id, home: string, away: string, startsAt: Stamp,
    status: string, homeScore: string, awayScore: string, scoredAt: Stamp, metadata: Metadata)

  datatype Market = Market(
    id: Id, provider: string, key: string, eventId: Id, kind: string, name: string, line: string, status: string,
    metadata: Metadata)

  datatype Outcome = Outcome(
    id: Id, provider: string, key: string, marketId: Id, name: string, odds: string, status: string,
    metadata: Metadata)

  datatype Store = Store(
    sports: map<string, Sport>, leagues: map<string, League>, events: map<string, Event>,
    markets: map<string, Market>, outcomes: map<string, Outcome>)

  const EMPTY := Store(map[], map[], map[], map[], map[])

  function Key(provider: string, key: string): string {
    provider + ":" + key
  }

  function SportKey(x: Sport): string { Key(x.provider, x.key) }

  function LeagueKey(x: League): string { Key(x.provider, x.key) }

  function EventKey(x: Event): string { Key(x.provider, x.key) }

  function MarketKey(x: Market): string { Key(x.provider, x.key) }

  function OutcomeKey(x: Outcome): string { Key(x.provider, x.key) }

  // ---- An entity without an id gets the one drawn for it -------------------------------------------------------

  function NamedSport(x: Sport, drawn: Id): Sport { if x.id == NoId then x.(id := drawn) else x }

  function NamedLeague(x: League, drawn: Id): League { if x.id == NoId then x.(id := drawn) else x }

  function NamedEvent(x: Event, drawn: Id): Event { if x.id == NoId then x.(id := drawn) else x }

  function NamedMarket(x: Market, drawn: Id): Market { if x.id == NoId then x.(id := drawn) else x }

  function NamedOutcome(x: Outcome, drawn: Id): Outcome { if x.id == NoId then x.(id := drawn) else x }

  // ---- Upserts: an entity that is there keeps its id ------------------------------------------------------------

  function UpsertSport(m: map<string, Sport>, x: Sport): map<string, Sport> {
    var k := SportKey(x);
    m[k := if k in m then m[k].(slug := x.slug, name := x.name) else x]
  }

  function UpsertLeague(m: map<string, League>, x: League): map<string, League> {
    var k := LeagueKey(x);
    m[k := if k in m then m[k].(sportId := x.sportId, name := x.name, country := x.country) else x]
  }

  function UpsertEvent(m: map<string, Event>, x: Event): map<string, Event> {
    var k := EventKey(x);
    m[k :=
      if k in m then
        m[k].(leagueId := x.leagueId, sportId := x.sportId, home := x.home, away := x.away, startsAt := x.startsAt,
              status := x.status, homeScore := x.homeScore, awayScore := x.awayScore, scoredAt := x.scoredAt,
              metadata := x.metadata)
      else x]
  }

  function UpsertMarket(m: map<string, Market>, x: Market): map<string, Market> {
    var k := MarketKey(x);
    m[k :=
      if k in m then
        m[k].(eventId := x.eventId, kind := x.kind, name := x.name, line := x.line, status := x.status,
              metadata := x.metadata)
      else x]
  }

  function UpsertOutcome(m: map<string, Outcome>, x: Outcome): map<string, Outcome> {
    var k := OutcomeKey(x);
    m[k :=
      if k in m then
        m[k].(marketId := x.marketId, name := x.name, odds := x.odds, status := x.status, metadata := x.metadata)
      else x]
  }

  // ---- Statuses -------------------------------------------------------------------------------------------------

  ghost predicate Keyed(events: map<string, Event>) {
    forall k | k in events :: k == EventKey(events[k])
  }

  function KeysNamed(events: map<string, Event>, provider: string): set<string> {
    set k | k in events && events[k].provider == provider :: events[k].key
  }

  lemma NamedIsKeyed(events: map<string, Event>, provider: string, key: string)
    requires Keyed(events)
    ensures key in KeysNamed(events, provider)
            <==> Key(provider, key) in events && events[Key(provider, key)].provider == provider
  {
    if Key(provider, key) in events && events[Key(provider, key)].provider == provider {
      assert Key(provider, key) == EventKey(events[Key(provider, key)]);
      assert events[Key(provider, key)].key == Key(provider, key)[|provider| + 1..] == key;
    }
  }

  ghost function StatusesOf(events: map<string, Event>, provider: string, keys: set<string>): (m: map<string, string>)
    requires forall key | key in keys :: Key(provider, key) in events
    ensures m.Keys == keys && forall key | key in keys :: m[key] == events[Key(provider, key)].status
    decreases |keys|
  {
    if keys == {} then map[]
    else
      var key :| key in keys;
      StatusesOf(events, provider, keys - {key})[key := events[Key(provider, key)].status]
  }

  /** The status of each of the provider's events, by the provider's id. */
  ghost function Statuses(events: map<string, Event>, provider: string): map<string, string>
    requires Keyed(events)
  {
    assert forall key | key in KeysNamed(events, provider) :: Key(provider, key) in events by {
      forall key | key in KeysNamed(events, provider) ensures Key(provider, key) in events {
        NamedIsKeyed(events, provider, key);
      }
    }
    StatusesOf(events, provider, KeysNamed(events, provider))
  }

  // ---- The store ------------------------------------------------------------------------------------------------

  class MemoryStore {
    var sports: map<string, Sport>
    var leagues: map<string, League>
    var events: map<string, Event>
    var markets: map<string, Market>
    var outcomes: map<string, Outcome>

    ghost function Contents(): Store
      reads this
    {
      Store(sports, leagues, events, markets, outcomes)
    }

    constructor ()
      ensures Contents() == EMPTY
    {
      sports, leagues, events, markets, outcomes := map[], map[], map[], map[], map[];
    }

    method PutSport(x: Sport, drawn: Id) returns (id: Id)
      modifies this
      ensures Contents() == old(Contents()).(sports := UpsertSport(old(sports), NamedSport(x, drawn)))
      ensures SportKey(x) in sports && id == sports[SportKey(x)].id
      ensures var k := x.provider + ":" + x.key;
              if k in old(sports) then
                var was := old(sports)[k];
                sports == old(sports)[k := x.(id := was.id, provider := was.provider, key := was.key)] && id == was.id
              else
                id == (if x.id == NoId then drawn else x.id) && sports == old(sports)[k := x.(id := id)]
    {
      var k := SportKey(x);
      if k in sports {
        sports := sports[k := sports[k].(slug := x.slug, name := x.name)];
      } else if x.id == NoId {
        sports := sports[k := x.(id := drawn)];
      } else {
        sports := sports[k := x];
      }
      id := sports[k].id;
    }

    method PutLeague(x: League, drawn: Id) returns (id: Id)
      modifies this
      ensures Contents() == old(Contents()).(leagues := UpsertLeague(old(leagues), NamedLeague(x, drawn)))
      ensures LeagueKey(x) in leagues && id == leagues[LeagueKey(x)].id
      ensures var k := x.provider + ":" + x.key;
              if k in old(leagues) then
                var was := old(leagues)[k];
                leagues == old(leagues)[k := x.(id := was.id, provider := was.provider, key := was.key)] && id == was.id
              else
                id == (if x.id == NoId then drawn else x.id) && leagues == old(leagues)[k := x.(id := id)]
    {
      var k := LeagueKey(x);
      if k in leagues {
        leagues := leagues[k := leagues[k].(sportId := x.sportId, name := x.name, country := x.country)];
      } else if x.id == NoId {
        leagues := leagues[k := x.(id := drawn)];
      } else {
        leagues := leagues[k := x];
      }
      id := leagues[k].id;
    }

    method PutEvent(x: Event, drawn: Id) returns (id: Id)
      modifies this
      ensures Contents() == old(Contents()).(events := UpsertEvent(old(events), NamedEvent(x, drawn)))
      ensures EventKey(x) in events && id == events[EventKey(x)].id
      ensures var k := x.provider + ":" + x.key;
              if k in old(events) then
                var was := old(events)[k];
                events == old(events)[k := x.(id := was.id, provider := was.provider, key := was.key)] && id == was.id
              else
                id == (if x.id == NoId then drawn else x.id) && events == old(events)[k := x.(id := id)]
    {
      var k := EventKey(x);
      if k in events {
        events := events[k := events[k].(
          leagueId := x.leagueId, sportId := x.sportId, home := x.home, away := x.away, startsAt := x.startsAt,
          status := x.status, homeScore := x.homeScore, awayScore := x.awayScore, scoredAt := x.scoredAt,
          metadata := x.metadata)];
      } else if x.id == NoId {
        events := events[k := x.(id := drawn)];
      } else {
        events := events[k := x];
      }
      id := events[k].id;
    }

    method PutMarket(x: Market, drawn: Id) returns (id: Id)
      modifies this
      ensures Contents() == old(Contents()).(markets := UpsertMarket(old(markets), NamedMarket(x, drawn)))
      ensures MarketKey(x) in markets && id == markets[MarketKey(x)].id
      ensures var k := x.provider + ":" + x.key;
              if k in old(markets) then
                var was := old(markets)[k];
                markets == old(markets)[k := x.(id := was.id, provider := was.provider, key := was.key)] && id == was.id
              else
                id == (if x.id == NoId then drawn else x.id) && markets == old(markets)[k := x.(id := id)]
    {
      var k := MarketKey(x);
      if k in markets {
        markets := markets[k := markets[k].(
          eventId := x.eventId, kind := x.kind, name := x.name, line := x.line, status := x.status,
          metadata := x.metadata)];
      } else if x.id == NoId {
        markets := markets[k := x.(id := drawn)];
      } else {
        markets := markets[k := x];
      }
      id := markets[k].id;
    }

    method PutOutcome(x: Outcome, drawn: Id) returns (id: Id)
      modifies this
      ensures Contents() == old(Contents()).(outcomes := UpsertOutcome(old(outcomes), NamedOutcome(x, drawn)))
      ensures OutcomeKey(x) in outcomes && id == outcomes[OutcomeKey(x)].id
      ensures var k := x.provider + ":" + x.key;
              if k in old(outcomes) then
                var was := old(outcomes)[k];
                outcomes == old(outcomes)[k := x.(id := was.id, provider := was.provider, key := was.key)]
                && id == was.id
              else
                id == (if x.id == NoId then drawn else x.id) && outcomes == old(outcomes)[k := x.(id := id)]
    {
      var k := OutcomeKey(x);
      if k in outcomes {
        outcomes := outcomes[k := outcomes[k].(
          marketId := x.marketId, name := x.name, odds := x.odds, status := x.status, metadata := x.metadata)];
      } else if x.id == NoId {
        outcomes := outcomes[k := x.(id := drawn)];
      } else {
        outcomes := outcomes[k := x];
      }
      id := outcomes[k].id;
    }

    /** Walks the events in any order. */
    method GetEventStatusesByProvider(provider: string) returns (statuses: map<string, string>)
      requires Keyed(events)
      ensures statuses == Statuses(events, provider)
    {
      statuses := map[];
      var left := events.Keys;
      while left != {}
        invariant left <= events.Keys
        invariant forall key :: key in statuses
                    <==> Key(provider, key) in events.Keys - left && events[Key(provider, key)].provider == provider
        invariant forall key | key in statuses :: statuses[key] == events[Key(provider, key)].status
        decreases |left|
      {
        var k :| k in left;
        var e := events[k];
        left := left - {k};
        if e.provider == provider {
          statuses := statuses[e.key := e.status];
          assert k == Key(provider, e.key);
          forall key | Key(provider, key) == k ensures key == e.key {
            assert key == k[|provider| + 1..] == e.key;
          }
        }
      }
      forall key ensures key in statuses <==> key in KeysNamed(events, provider) {
        NamedIsKeyed(events, provider, key);
      }
    }
  }
}
