/**
  What the store holds of a game after syncs of which some fail, told from the hierarchies and the failures alone:
  the current conditions, exactly when the last fetch that asked for the game and worked was for its present status.
*/
module FeedHistory {
  import opened Basics
  import opened Lists
  import opened FeedStore
  import opened Normalizer
  import opened Azuro
  import opened FeedSync
  import opened FeedInvariant
  import opened FeedTheorems
  import opened FeedFailures

  // ---- The history of a game ------------------------------------------------------------------------------------

  function ListedAs(events: seq<EventSnapshot>, game: string): Option<string> {
    if events == [] then None
    else
      var last := events[|events| - 1];
      if last.key == game then Some(last.status) else ListedAs(events[..|events| - 1], game)
  }

  /** The status the round lists the game under, if its hierarchy arrives and can be read. */
  function Listing(r: Round, game: string): Option<string> {
    if r.hierarchy.Some? && Normalize(r.hierarchy.value).Ok? then ListedAs(r.hierarchy.value.events, game) else None
  }

  /** The status the game was last listed under, and the one it had when its conditions were last fetched. */
  datatype Trace = Trace(listed: Option<string>, fetched: Option<string>)

  const UNKNOWN := Trace(None, None)

  predicate Asks(t: Trace, listing: Option<string>) {
    listing.Some? && (listing.value == "live" || listing != t.listed)
  }

  /** One more round; `down` says that fetching fails in it. */
  function Traced(t: Trace, listing: Option<string>, down: bool): Trace {
    if listing.None? then t else Trace(listing, if Asks(t, listing) && !down then listing else t.fetched)
  }

  function History(rounds: seq<Round>, down: seq<bool>, n: nat, game: string): Trace
    requires n <= |rounds| == |down|
  {
    if n == 0 then UNKNOWN
    else Traced(History(rounds, down, n - 1, game), Listing(rounds[n - 1], game), down[n - 1])
  }

  // ---- What a round does ----------------------------------------------------------------------------------------

  /** The request the sync makes, if it makes one, is answered with the current conditions, or fails if `down`. */
  ghost predicate Responds(st: Store, r: Round, conds: string -> seq<Condition>, down: bool)
    requires Keyed(st.events) && r.hierarchy.Some? && Normalize(r.hierarchy.value).Ok?
  {
    var ids := ChangedIds(Normalize(r.hierarchy.value).value.events, Statuses(st.events, PROVIDER));
    ids == [] || (if down then r.fetch(ids).None? else Fetches(r, ids, conds))
  }

  /** A round of a provider that lists events once, gives games keys of their own, and whose conditions of a game that
      is not live depend on the game and its status. The hierarchy may fail too. */
  ghost predicate Happens(st: Store, r: Round, conds: string -> seq<Condition>,
                          calm: (string, string) -> seq<Condition>, owners: Owners, down: bool)
    requires Keyed(st.events)
  {
    && Disjoint(conds, owners)
    && (r.hierarchy.Some? ==>
          && r.hierarchy.value.provider == PROVIDER && DistinctEvents(r.hierarchy.value)
          && (Normalize(r.hierarchy.value).Ok? ==> Responds(st, r, conds, down))
          && forall e | e in r.hierarchy.value.events :: e.status != "live" ==> conds(e.key) == calm(e.key, e.status))
  }

  lemma {:induction false} ListedAsFinds(events: seq<EventSnapshot>, game: string)
    requires forall i, j | 0 <= i < j < |events| :: events[i].key != events[j].key
    ensures forall i | 0 <= i < |events| :: events[i].key == game ==> ListedAs(events, game) == Some(events[i].status)
    ensures ListedAs(events, game).Some? ==> exists i :: 0 <= i < |events| && events[i].key == game
  {
    if events != [] {
      var n := |events| - 1;
      ListedAsFinds(events[..n], game);
      if events[n].key == game {
      } else if ListedAs(events, game).Some? {
        var i :| 0 <= i < n && events[..n][i].key == game;
        assert events[i].key == game;
      }
    }
  }

  lemma {:induction false} StoredOrListed(st: Store, events: seq<EventSnapshot>, game: string)
    ensures StoredStatus(st, events, game)
            == if ListedAs(events, game).Some? then ListedAs(events, game) else StoredStatus(st, [], game)
  {
    if events != [] { StoredOrListed(st, events[..|events| - 1], game); }
  }

  /** A sync asks for a game exactly when the trace says so. */
  lemma AskedByTrace(st: Store, s: Snapshot, game: string, t: Trace)
    requires Own(st) && Keyed(st.events) && s.provider == PROVIDER && Normalize(s).Ok? && DistinctEvents(s)
    requires StoredStatus(st, [], game) == t.listed
    ensures game in ChangedIds(Normalize(s).value.events, Statuses(st.events, PROVIDER))
            <==> Asks(t, ListedAs(s.events, game))
  {
    AskedByStatus(st, s, game);
    ListedAsFinds(s.events, game);
    if Asks(t, ListedAs(s.events, game)) {
      var i :| 0 <= i < |s.events| && s.events[i].key == game;
      assert s.events[i] in s.events && AsksFor(st, [], s.events[i], game);
    }
  }

  /** The markets and outcomes after a round, and the events. */
  lemma RoundWrites(st: Store, r: Round, conds: string -> seq<Condition>, calm: (string, string) -> seq<Condition>,
                    owners: Owners, down: bool)
    requires Own(st) && Keyed(st.events) && Happens(st, r, conds, calm, owners, down)
    requires r.hierarchy.Some? && Normalize(r.hierarchy.value).Ok?
    ensures var n := Normalize(r.hierarchy.value).value;
            var asked := if down then [] else ChangedIds(n.events, Statuses(st.events, PROVIDER));
            var st' := Sync(st, PROVIDER, r.hierarchy, r.fetch).0;
            && Own(st') && st'.events == ApplyHierarchy(st, n).events
            && Refreshed(st.markets, st'.markets, MarketKey, ToFeedMarkets, owners.market, asked, conds)
            && Refreshed(st.outcomes, st'.outcomes, OutcomeKey, ToFeedOutcomes, owners.outcome, asked, conds)
  {
    var n := Normalize(r.hierarchy.value).value;
    var ids := ChangedIds(n.events, Statuses(st.events, PROVIDER));
    HierarchyWrites(st, r.hierarchy.value);
    if down || ids == [] {
      NothingAsked(st.markets, MarketKey, ToFeedMarkets, owners.market, conds);
      NothingAsked(st.outcomes, OutcomeKey, ToFeedOutcomes, owners.outcome, conds);
    } else {
      RefreshWrites(ApplyHierarchy(st, n), ids, r.fetch, conds, owners);
    }
  }

  lemma NothingAsked<V(!new)>(m: map<string, V>, key: V -> string, f: Condition -> seq<V>, owner: string -> string,
                              conds: string -> seq<Condition>)
    ensures Refreshed(m, m, key, f, owner, [], conds)
  {
    forall k ensures RefreshedAt(m, m, key, f, owner, [], conds, k) {}
  }

  // ---- The store follows the trace ------------------------------------------------------------------------------

  /** The store has the status the trace says, and the conditions the trace says were fetched. */
  ghost predicate Follows(st: Store, t: Trace, game: string, calm: (string, string) -> seq<Condition>, owners: Owners) {
    && StoredStatus(st, [], game) == t.listed
    && (t.fetched.Some? && t.fetched.value != "live" ==> GameSettled(st, owners, game, calm(game, t.fetched.value)))
  }

  lemma StatusFollows(st: Store, r: Round, conds: string -> seq<Condition>, calm: (string, string) -> seq<Condition>,
                      owners: Owners, down: bool, game: string)
    requires Own(st) && Keyed(st.events) && Happens(st, r, conds, calm, owners, down)
    requires r.hierarchy.Some? && Normalize(r.hierarchy.value).Ok?
    ensures StoredStatus(Sync(st, PROVIDER, r.hierarchy, r.fetch).0, [], game)
            == if Listing(r, game).Some? then Listing(r, game) else StoredStatus(st, [], game)
  {
    RoundWrites(st, r, conds, calm, owners, down);
    StatusAfter(st, r.hierarchy.value, game);
    StoredOrListed(st, r.hierarchy.value.events, game);
  }

  /** The conditions of a game under the status the round lists it, if that is not live. */
  lemma ListedConditions(r: Round, conds: string -> seq<Condition>, calm: (string, string) -> seq<Condition>,
                         game: string)
    requires r.hierarchy.Some? && DistinctEvents(r.hierarchy.value)
    requires forall e | e in r.hierarchy.value.events :: e.status != "live" ==> conds(e.key) == calm(e.key, e.status)
    ensures var listed := ListedAs(r.hierarchy.value.events, game);
            listed.Some? && listed.value != "live" ==> conds(game) == calm(game, listed.value)
  {
    ListedAsFinds(r.hierarchy.value.events, game);
    if i :| 0 <= i < |r.hierarchy.value.events| && r.hierarchy.value.events[i].key == game {
      assert r.hierarchy.value.events[i] in r.hierarchy.value.events;
    }
  }

  lemma SettledFollows(st: Store, r: Round, conds: string -> seq<Condition>, calm: (string, string) -> seq<Condition>,
                       owners: Owners, down: bool, game: string, t: Trace)
    requires Own(st) && Keyed(st.events) && Happens(st, r, conds, calm, owners, down)
    requires r.hierarchy.Some? && Normalize(r.hierarchy.value).Ok? && Follows(st, t, game, calm, owners)
    ensures var t' := Traced(t, Listing(r, game), down);
            t'.fetched.Some? && t'.fetched.value != "live" ==>
              GameSettled(Sync(st, PROVIDER, r.hierarchy, r.fetch).0, owners, game, calm(game, t'.fetched.value))
  {
    var t' := Traced(t, Listing(r, game), down);
    if t'.fetched.Some? && t'.fetched.value != "live" {
      var ids := ChangedIds(Normalize(r.hierarchy.value).value.events, Statuses(st.events, PROVIDER));
      var asked := if down then [] else ids;
      var st' := Sync(st, PROVIDER, r.hierarchy, r.fetch).0;
      var cs := calm(game, t'.fetched.value);
      RoundWrites(st, r, conds, calm, owners, down);
      AskedByTrace(st, r.hierarchy.value, game, t);
      ListedConditions(r, conds, calm, game);
      RefreshSettles(st.markets, st'.markets, MarketKey, ToFeedMarkets, owners.market, asked, conds, game, cs);
      RefreshSettles(st.outcomes, st'.outcomes, OutcomeKey, ToFeedOutcomes, owners.outcome, asked, conds, game, cs);
    }
  }

  lemma RoundFollows(st: Store, r: Round, conds: string -> seq<Condition>, calm: (string, string) -> seq<Condition>,
                     owners: Owners, down: bool, game: string, t: Trace)
    requires Own(st) && Keyed(st.events) && Happens(st, r, conds, calm, owners, down)
    requires Follows(st, t, game, calm, owners)
    ensures var st' := Sync(st, PROVIDER, r.hierarchy, r.fetch).0;
            Own(st') && Follows(st', Traced(t, Listing(r, game), down), game, calm, owners)
  {
    if r.hierarchy.Some? && Normalize(r.hierarchy.value).Ok? {
      RoundWrites(st, r, conds, calm, owners, down);
      StatusFollows(st, r, conds, calm, owners, down, game);
      SettledFollows(st, r, conds, calm, owners, down, game, t);
    }
  }

  // ---- Conditions that tell the status --------------------------------------------------------------------------

  /** What conditions say of a market. */
  function Said(cs: seq<Condition>, k: string): Option<Market> {
    Last(MarketKey, Flat(ToFeedMarkets, cs), k)
  }

  /** Conditions of the game always say something of its market `k`, and not the same under different statuses. */
  ghost predicate TellsApart(game: string, k: string, calm: (string, string) -> seq<Condition>, owners: Owners) {
    && owners.market(k) == game
    && (forall s | s != "live" :: Said(calm(game, s), k).Some?)
    && (forall s, s' | s != "live" && s' != "live" && s != s' :: Said(calm(game, s), k) != Said(calm(game, s'), k))
  }

  ghost predicate DiffersFromCalm(said: Option<Market>, game: string, k: string,
                                  calm: (string, string) -> seq<Condition>)
  {
    forall s | s != "live" :: Said(calm(game, s), k) != said
  }

  /** In a round that lists the game as live, the market says something else than whenever the game is calm. */
  ghost predicate LiveTells(r: Round, game: string, k: string, conds: string -> seq<Condition>,
                            calm: (string, string) -> seq<Condition>)
  {
    Listing(r, game) == Some("live") ==>
      Said(conds(game), k).Some? && DiffersFromCalm(Said(conds(game), k), game, k, calm)
  }

  /** The market shows what was said when the game's conditions were last fetched. */
  ghost predicate Shows(st: Store, t: Trace, game: string, k: string, calm: (string, string) -> seq<Condition>) {
    match t.fetched
    case None => k !in st.markets
    case Some(s) =>
      if s == "live" then DiffersFromCalm(At(st.markets, k), game, k, calm)
      else At(st.markets, k) == Said(calm(game, s), k)
  }

  lemma MarketShows(st: Store, r: Round, conds: string -> seq<Condition>, calm: (string, string) -> seq<Condition>,
                    owners: Owners, down: bool, game: string, k: string, t: Trace)
    requires Own(st) && Keyed(st.events) && Happens(st, r, conds, calm, owners, down)
    requires StoredStatus(st, [], game) == t.listed && Shows(st, t, game, k, calm)
    requires TellsApart(game, k, calm, owners) && LiveTells(r, game, k, conds, calm)
    ensures Shows(Sync(st, PROVIDER, r.hierarchy, r.fetch).0, Traced(t, Listing(r, game), down), game, k, calm)
  {
    if r.hierarchy.Some? && Normalize(r.hierarchy.value).Ok? {
      MarketAfter(st, r, conds, calm, owners, down, game, k, t);
      ListedConditions(r, conds, calm, game);
    }
  }

  lemma MarketAfter(st: Store, r: Round, conds: string -> seq<Condition>, calm: (string, string) -> seq<Condition>,
                    owners: Owners, down: bool, game: string, k: string, t: Trace)
    requires Own(st) && Keyed(st.events) && Happens(st, r, conds, calm, owners, down)
    requires r.hierarchy.Some? && Normalize(r.hierarchy.value).Ok?
    requires StoredStatus(st, [], game) == t.listed && owners.market(k) == game
    ensures At(Sync(st, PROVIDER, r.hierarchy, r.fetch).0.markets, k)
            == if !down && Asks(t, Listing(r, game)) && Said(conds(game), k).Some? then Said(conds(game), k)
               else At(st.markets, k)
  {
    RoundWrites(st, r, conds, calm, owners, down);
    AskedByTrace(st, r.hierarchy.value, game, t);
    var ids := ChangedIds(Normalize(r.hierarchy.value).value.events, Statuses(st.events, PROVIDER));
    assert RefreshedAt(st.markets, Sync(st, PROVIDER, r.hierarchy, r.fetch).0.markets, MarketKey, ToFeedMarkets,
                       owners.market, if down then [] else ids, conds, k);
  }

  /** A market that shows one status is not settled for another. */
  lemma ShownIsFetched(st: Store, t: Trace, game: string, k: string, calm: (string, string) -> seq<Condition>,
                       owners: Owners, status: string)
    requires TellsApart(game, k, calm, owners) && Shows(st, t, game, k, calm) && status != "live"
    requires GameSettled(st, owners, game, calm(game, status))
    ensures t.fetched == Some(status)
  {
    assert SettledAt(st.markets, MarketKey, ToFeedMarkets, owners.market, game, calm(game, status), k);
  }

  // ---- Every run ------------------------------------------------------------------------------------------------

  ghost predicate HappensAt(rounds: seq<Round>, conds: seq<string -> seq<Condition>>,
                            calm: (string, string) -> seq<Condition>, owners: Owners, down: seq<bool>,
                            stores: seq<Store>, i: nat)
    requires i < |rounds| == |conds| == |down| && i < |stores|
  {
    Keyed(stores[i].events) && Happens(stores[i], rounds[i], conds[i], calm, owners, down[i])
  }

  /** An incremental run in which any hierarchy and any fetch may fail. */
  ghost predicate BrokenRun(rounds: seq<Round>, conds: seq<string -> seq<Condition>>,
                            calm: (string, string) -> seq<Condition>, owners: Owners, down: seq<bool>,
                            stores: seq<Store>)
  {
    && |rounds| == |conds| == |down| && IncrementalRun(rounds, stores)
    && forall i | 0 <= i < |rounds| :: HappensAt(rounds, conds, calm, owners, down, stores, i)
  }

  lemma RunSteps(rounds: seq<Round>, conds: seq<string -> seq<Condition>>, calm: (string, string) -> seq<Condition>,
                 owners: Owners, down: seq<bool>, stores: seq<Store>, i: nat)
    requires BrokenRun(rounds, conds, calm, owners, down, stores) && i < |rounds|
    ensures Keyed(stores[i].events) && Happens(stores[i], rounds[i], conds[i], calm, owners, down[i])
    ensures stores[i + 1] == Sync(stores[i], PROVIDER, rounds[i].hierarchy, rounds[i].fetch).0
  {
    assert HappensAt(rounds, conds, calm, owners, down, stores, i);
    NextStore(rounds, stores, i);
  }

  /** After every run of syncs, failed ones included, the store has each game under the status it was last listed under,
      and holds the conditions it was last asked for with success. */
  lemma {:induction false} StoreFollowsHistory(rounds: seq<Round>, conds: seq<string -> seq<Condition>>,
                                               calm: (string, string) -> seq<Condition>, owners: Owners,
                                               down: seq<bool>, stores: seq<Store>, n: nat, game: string)
    requires BrokenRun(rounds, conds, calm, owners, down, stores) && n <= |rounds|
    ensures FollowsAt(rounds, calm, owners, down, stores, n, game)
  {
    if n == 0 {
      EmptyFollows(rounds, calm, owners, down, stores, game);
    } else {
      var i := n - 1;
      StoreFollowsHistory(rounds, conds, calm, owners, down, stores, i, game);
      NextFollows(rounds, conds, calm, owners, down, stores, i, game);
      assert FollowsAt(rounds, calm, owners, down, stores, i + 1, game);
    }
  }

  lemma EmptyFollows(rounds: seq<Round>, calm: (string, string) -> seq<Condition>, owners: Owners, down: seq<bool>,
                     stores: seq<Store>, game: string)
    requires |rounds| == |down| && stores != [] && stores[0] == EMPTY
    ensures FollowsAt(rounds, calm, owners, down, stores, 0, game)
  {
    assert History(rounds, down, 0, game) == UNKNOWN;
    assert Own(EMPTY) && StoredStatus(EMPTY, [], game) == None;
  }

  lemma EmptyShows(rounds: seq<Round>, calm: (string, string) -> seq<Condition>, down: seq<bool>, stores: seq<Store>,
                   game: string, k: string)
    requires |rounds| == |down| && stores != [] && stores[0] == EMPTY
    ensures ShowsAt(rounds, calm, down, stores, 0, game, k)
  {
    assert History(rounds, down, 0, game) == UNKNOWN;
  }

  ghost predicate FollowsAt(rounds: seq<Round>, calm: (string, string) -> seq<Condition>, owners: Owners,
                            down: seq<bool>, stores: seq<Store>, n: nat, game: string)
    requires n <= |rounds| == |down| && n < |stores|
  {
    Own(stores[n]) && Follows(stores[n], History(rounds, down, n, game), game, calm, owners)
  }

  lemma NextFollows(rounds: seq<Round>, conds: seq<string -> seq<Condition>>,
                    calm: (string, string) -> seq<Condition>, owners: Owners, down: seq<bool>, stores: seq<Store>,
                    i: nat, game: string)
    requires BrokenRun(rounds, conds, calm, owners, down, stores) && i < |rounds|
    requires FollowsAt(rounds, calm, owners, down, stores, i, game)
    ensures FollowsAt(rounds, calm, owners, down, stores, i + 1, game)
  {
    RunSteps(rounds, conds, calm, owners, down, stores, i);
    RoundFollows(stores[i], rounds[i], conds[i], calm, owners, down[i], game, History(rounds, down, i, game));
  }

  ghost predicate ShowsAt(rounds: seq<Round>, calm: (string, string) -> seq<Condition>, down: seq<bool>,
                          stores: seq<Store>, n: nat, game: string, k: string)
    requires n <= |rounds| == |down| && n < |stores|
  {
    Shows(stores[n], History(rounds, down, n, game), game, k, calm)
  }

  ghost predicate LiveRoundsTell(rounds: seq<Round>, conds: seq<string -> seq<Condition>>,
                                 calm: (string, string) -> seq<Condition>, n: nat, game: string, k: string)
    requires n <= |rounds| == |conds|
  {
    forall i | 0 <= i < n :: LiveTells(rounds[i], game, k, conds[i], calm)
  }

  lemma {:induction false} StoreShowsHistory(rounds: seq<Round>, conds: seq<string -> seq<Condition>>,
                                             calm: (string, string) -> seq<Condition>, owners: Owners,
                                             down: seq<bool>, stores: seq<Store>, n: nat, m: nat, game: string,
                                             k: string)
    requires BrokenRun(rounds, conds, calm, owners, down, stores) && n <= m <= |rounds|
    requires TellsApart(game, k, calm, owners)
    requires LiveRoundsTell(rounds, conds, calm, m, game, k)
    ensures ShowsAt(rounds, calm, down, stores, n, game, k)
  {
    if n > 0 {
      StoreShowsHistory(rounds, conds, calm, owners, down, stores, n - 1, m, game, k);
      MarketShowsAt(rounds, conds, calm, owners, down, stores, n - 1, m, game, k);
    } else {
      EmptyShows(rounds, calm, down, stores, game, k);
    }
  }

  lemma MarketShowsAt(rounds: seq<Round>, conds: seq<string -> seq<Condition>>,
                      calm: (string, string) -> seq<Condition>, owners: Owners, down: seq<bool>, stores: seq<Store>,
                      i: nat, m: nat, game: string, k: string)
    requires BrokenRun(rounds, conds, calm, owners, down, stores) && i < m <= |rounds|
    requires TellsApart(game, k, calm, owners) && LiveRoundsTell(rounds, conds, calm, m, game, k)
    requires ShowsAt(rounds, calm, down, stores, i, game, k)
    ensures ShowsAt(rounds, calm, down, stores, i + 1, game, k)
  {
    StoreFollowsHistory(rounds, conds, calm, owners, down, stores, i, game);
    RunSteps(rounds, conds, calm, owners, down, stores, i);
    MarketShows(stores[i], rounds[i], conds[i], calm, owners, down[i], game, k, History(rounds, down, i, game));
  }

  /** The store holds the conditions a game has under a status that is not live if the last fetch for it that worked was
      for that status; and, when the game's conditions tell its statuses apart, only if. */
  lemma HeldExactly(rounds: seq<Round>, conds: seq<string -> seq<Condition>>, calm: (string, string) -> seq<Condition>,
                    owners: Owners, down: seq<bool>, stores: seq<Store>, n: nat, game: string, status: string,
                    k: string)
    requires BrokenRun(rounds, conds, calm, owners, down, stores) && n <= |rounds| && status != "live"
    ensures var fetched := History(rounds, down, n, game).fetched;
            && (fetched == Some(status) ==> GameSettled(stores[n], owners, game, calm(game, status)))
            && (TellsApart(game, k, calm, owners) && LiveRoundsTell(rounds, conds, calm, n, game, k) ==>
                  (GameSettled(stores[n], owners, game, calm(game, status)) <==> fetched == Some(status)))
  {
    StoreFollowsHistory(rounds, conds, calm, owners, down, stores, n, game);
    if TellsApart(game, k, calm, owners) && LiveRoundsTell(rounds, conds, calm, n, game, k)
       && GameSettled(stores[n], owners, game, calm(game, status))
    {
      StoreShowsHistory(rounds, conds, calm, owners, down, stores, n, n, game, k);
      ShownIsFetched(stores[n], History(rounds, down, n, game), game, k, calm, owners, status);
    }
  }

  // ---- Incremental against full, from the history ---------------------------------------------------------------

  /** If the round lists the game and the sync does not ask for it, then its last successful fetch was for the status it
      is listed under. */
  predicate UpToDate(rounds: seq<Round>, down: seq<bool>, i: nat, game: string)
    requires i < |rounds| == |down|
  {
    var t, listing := History(rounds, down, i, game), Listing(rounds[i], game);
    listing.Some? && !Asks(t, listing) ==> t.fetched == listing
  }

  ghost predicate AllUpToDate(rounds: seq<Round>, down: seq<bool>)
    requires |rounds| == |down|
  {
    forall i, game | 0 <= i < |rounds| && !down[i] :: UpToDate(rounds, down, i, game)
  }

  /** Each round plays, or no conditions can be fetched in it. */
  ghost predicate PlaysOrFails(rounds: seq<Round>, conds: seq<string -> seq<Condition>>,
                               calm: (string, string) -> seq<Condition>, owners: Owners, down: seq<bool>)
  {
    && |rounds| == |conds| == |down|
    && forall i | 0 <= i < |rounds| ::
         if down[i] then FailsCalmly(rounds[i], conds[i], calm, owners) else Plays(rounds[i], conds[i], calm, owners)
  }

  ghost predicate FailsCalmly(r: Round, conds: string -> seq<Condition>, calm: (string, string) -> seq<Condition>,
                              owners: Owners)
  {
    && Failing(r) && Disjoint(conds, owners)
    && (r.hierarchy.Some? ==>
          && DistinctEvents(r.hierarchy.value)
          && forall e | e in r.hierarchy.value.events :: e.status != "live" ==> conds(e.key) == calm(e.key, e.status))
  }

  lemma PlayedRoundHappens(st: Store, r: Round, conds: string -> seq<Condition>,
                           calm: (string, string) -> seq<Condition>, owners: Owners, down: bool)
    requires Keyed(st.events)
    requires if down then FailsCalmly(r, conds, calm, owners) else Plays(r, conds, calm, owners)
    ensures Happens(st, r, conds, calm, owners, down)
  {
    if r.hierarchy.Some? && Normalize(r.hierarchy.value).Ok? && !down {
      assert Fetches(r, ChangedIds(Normalize(r.hierarchy.value).value.events, Statuses(st.events, PROVIDER)), conds);
    }
  }

  lemma PlayedRunIsBroken(rounds: seq<Round>, conds: seq<string -> seq<Condition>>,
                          calm: (string, string) -> seq<Condition>, owners: Owners, down: seq<bool>,
                          stores: seq<Store>)
    requires PlaysOrFails(rounds, conds, calm, owners, down) && IncrementalRun(rounds, stores)
    ensures BrokenRun(rounds, conds, calm, owners, down, stores) && AllSound(rounds, conds, owners)
  {
    forall i | 0 <= i < |rounds| ensures HappensAt(rounds, conds, calm, owners, down, stores, i) {
      NextStore(rounds, stores, i);
      PlayedRoundHappens(stores[i], rounds[i], conds[i], calm, owners, down[i]);
    }
  }

  lemma FailingIsComplete(st: Store, r: Round, conds: string -> seq<Condition>, owners: Owners)
    requires Keyed(st.events) && Failing(r)
    ensures Complete(st, r, conds, owners)
  {
    assert !Fetches(r, [], conds);
  }

  /** Which games a round lists and does not ask for, from the history. */
  lemma UnaskedByHistory(rounds: seq<Round>, conds: seq<string -> seq<Condition>>,
                         calm: (string, string) -> seq<Condition>, owners: Owners, down: seq<bool>,
                         stores: seq<Store>, i: nat, game: string)
    requires BrokenRun(rounds, conds, calm, owners, down, stores) && i < |rounds| && !down[i]
    requires Plays(rounds[i], conds[i], calm, owners)
    ensures Keyed(stores[i].events)
    ensures var events := Normalize(rounds[i].hierarchy.value).value.events;
            var t, listing := History(rounds, down, i, game), Listing(rounds[i], game);
            && (game in KeysOf(events) && game !in ChangedIds(events, Statuses(stores[i].events, PROVIDER))
                <==> listing.Some? && !Asks(t, listing))
            && (listing.Some? && !Asks(t, listing) ==> conds[i](game) == calm(game, listing.value))
  {
    var s := rounds[i].hierarchy.value;
    StoreFollowsHistory(rounds, conds, calm, owners, down, stores, i, game);
    RunSteps(rounds, conds, calm, owners, down, stores, i);
    AskedByTrace(stores[i], s, game, History(rounds, down, i, game));
    ListedConditions(rounds[i], conds[i], calm, game);
    ListedIsKey(s, game);
  }

  lemma ListedIsKey(s: Snapshot, game: string)
    requires Normalize(s).Ok? && DistinctEvents(s)
    ensures game in KeysOf(Normalize(s).value.events) <==> ListedAs(s.events, game).Some?
  {
    var events := Normalize(s).value.events;
    NormalEventsAre(s);
    ListedAsFinds(s.events, game);
    if game in KeysOf(events) {
      var i :| 0 <= i < |KeysOf(events)| && KeysOf(events)[i] == game;
      assert s.events[i].key == game;
    }
    if i :| 0 <= i < |s.events| && s.events[i].key == game { assert KeysOf(events)[i] == game; }
  }

  lemma MissingByHistory(rounds: seq<Round>, conds: seq<string -> seq<Condition>>,
                         calm: (string, string) -> seq<Condition>, owners: Owners, down: seq<bool>,
                         stores: seq<Store>, i: nat)
    requires BrokenRun(rounds, conds, calm, owners, down, stores) && i < |rounds| && !down[i]
    requires Plays(rounds[i], conds[i], calm, owners) && forall game :: UpToDate(rounds, down, i, game)
    ensures CompleteAt(rounds, conds, owners, stores, i)
  {
    RunSteps(rounds, conds, calm, owners, down, stores, i);
    var events := Normalize(rounds[i].hierarchy.value).value.events;
    forall g | g in KeysOf(events) && g !in ChangedIds(events, Statuses(stores[i].events, PROVIDER))
      ensures GameSettled(stores[i], owners, g, conds[i](g))
    {
      UnaskedByHistory(rounds, conds, calm, owners, down, stores, i, g);
      assert UpToDate(rounds, down, i, g);
      StoreFollowsHistory(rounds, conds, calm, owners, down, stores, i, g);
    }
  }

  ghost predicate Telling(rounds: seq<Round>, conds: seq<string -> seq<Condition>>,
                          calm: (string, string) -> seq<Condition>, owners: Owners, tell: string -> string)
    requires |rounds| == |conds|
  {
    forall game ::
      TellsApart(game, tell(game), calm, owners) && LiveRoundsTell(rounds, conds, calm, |rounds|, game, tell(game))
  }

  lemma CompleteIsUpToDate(rounds: seq<Round>, conds: seq<string -> seq<Condition>>,
                           calm: (string, string) -> seq<Condition>, owners: Owners, down: seq<bool>,
                           stores: seq<Store>, i: nat, game: string, tell: string -> string)
    requires BrokenRun(rounds, conds, calm, owners, down, stores) && i < |rounds| && !down[i]
    requires Plays(rounds[i], conds[i], calm, owners) && CompleteAt(rounds, conds, owners, stores, i)
    requires Telling(rounds, conds, calm, owners, tell)
    ensures UpToDate(rounds, down, i, game)
  {
    UnaskedByHistory(rounds, conds, calm, owners, down, stores, i, game);
    var t, listing := History(rounds, down, i, game), Listing(rounds[i], game);
    if listing.Some? && !Asks(t, listing) {
      assert NothingMissed(stores[i], rounds[i], conds[i], owners);
      assert GameSettled(stores[i], owners, game, conds[i](game));
      assert LiveRoundsTell(rounds, conds, calm, |rounds|, game, tell(game));
      HeldExactly(rounds, conds, calm, owners, down, stores, i, game, listing.value, tell(game));
    }
  }

  /** With fetches that fail, the incremental run agrees with the full run throughout if every game that an answering
      round lists and does not ask for was last fetched under that status; and, when conditions tell the statuses apart,
      only if. Hierarchies and failures alone decide it. */
  lemma HistoryDecides(rounds: seq<Round>, conds: seq<string -> seq<Condition>>,
                       calm: (string, string) -> seq<Condition>, owners: Owners, down: seq<bool>,
                       stores: seq<Store>, full: seq<Store>, tell: string -> string)
    requires PlaysOrFails(rounds, conds, calm, owners, down)
    requires IncrementalRun(rounds, stores) && FullRun(rounds, full)
    ensures AllUpToDate(rounds, down) ==> stores == full
    ensures Telling(rounds, conds, calm, owners, tell) ==> (stores == full <==> AllUpToDate(rounds, down))
  {
    PlayedRunIsBroken(rounds, conds, calm, owners, down, stores);
    RunsAgreeExactly(rounds, conds, owners, stores, full);
    if AllUpToDate(rounds, down) {
      forall i | 0 <= i < |rounds| ensures CompleteAt(rounds, conds, owners, stores, i) {
        UpToDateIsComplete(rounds, conds, calm, owners, down, stores, i);
      }
    }
    if Telling(rounds, conds, calm, owners, tell) && stores == full {
      forall i, game | 0 <= i < |rounds| && !down[i] ensures UpToDate(rounds, down, i, game) {
        assert CompleteAt(rounds, conds, owners, stores, i);
        CompleteIsUpToDate(rounds, conds, calm, owners, down, stores, i, game, tell);
      }
    }
  }

  lemma UpToDateIsComplete(rounds: seq<Round>, conds: seq<string -> seq<Condition>>,
                           calm: (string, string) -> seq<Condition>, owners: Owners, down: seq<bool>,
                           stores: seq<Store>, i: nat)
    requires PlaysOrFails(rounds, conds, calm, owners, down) && BrokenRun(rounds, conds, calm, owners, down, stores)
    requires AllUpToDate(rounds, down) && i < |rounds|
    ensures CompleteAt(rounds, conds, owners, stores, i)
  {
    RunSteps(rounds, conds, calm, owners, down, stores, i);
    if down[i] {
      FailingIsComplete(stores[i], rounds[i], conds[i], owners);
    } else {
      forall game ensures UpToDate(rounds, down, i, game) {}
      MissingByHistory(rounds, conds, calm, owners, down, stores, i);
    }
  }

  // ---- Conditions that tell ---------------------------------------------------------------------------------------

  /** One market a game, with the status in its title. */
  function Titled(game: string, status: string): seq<Condition> {
    [Condition(game, "", "Active", status, GameRef(game, ""), [])]
  }

  function TitledLive(game: string): seq<Condition> {
    Titled(game, "live")
  }

  function GameOfKey(k: string): string {
    if |k| <= |PROVIDER| then "" else k[|PROVIDER| + 1..]
  }

  /** Such conditions do tell the statuses apart, so the exact statement speaks of some providers. */
  lemma TitlesTell(game: string)
    ensures TellsApart(game, Key(PROVIDER, game), Titled, Owners(GameOfKey, GameOfKey))
    ensures Disjoint(TitledLive, Owners(GameOfKey, GameOfKey))
    ensures Said(TitledLive(game), Key(PROVIDER, game)).Some?
    ensures DiffersFromCalm(Said(TitledLive(game), Key(PROVIDER, game)), game, Key(PROVIDER, game), Titled)
  {
    forall s ensures Said(Titled(game, s), Key(PROVIDER, game)) == Some(ToFeedMarket(Titled(game, s)[0])) {
      TitleIsSaid(game, s);
    }
    forall g
      ensures GameOwned(g, TitledLive, MarketKey, ToFeedMarkets, GameOfKey)
              && GameOwned(g, TitledLive, OutcomeKey, ToFeedOutcomes, GameOfKey)
    {
    }
  }

  lemma TitleIsSaid(game: string, status: string)
    ensures Said(Titled(game, status), Key(PROVIDER, game)) == Some(ToFeedMarket(Titled(game, status)[0]))
  {
    var market := ToFeedMarket(Titled(game, status)[0]);
    assert Flat(ToFeedMarkets, Titled(game, status)) == [market] && MarketKey(market) == Key(PROVIDER, game);
  }

  // ---- From a provider's selection to the stored outcome ---------------------------------------------------------

  /** The conditions of the game name no other selection under the store key. */
  ghost predicate OnlySelection(cs: seq<Condition>, market: string, x: Selection) {
    forall c, y, m | c in cs && y in c.selections && NamesMarket(c, m) && m + ":" + y.key == market + ":" + x.key ::
      m == market && y == x
  }

  lemma {:induction false} FlatHolds<V>(f: Condition -> seq<V>, cs: seq<Condition>, c: Condition, v: V)
    requires c in cs && v in f(c)
    ensures v in Flat(f, cs)
  {
    var before, last := cs[..|cs| - 1], cs[|cs| - 1];
    assert cs == before + [last];
    if c in before { FlatHolds(f, before, c, v); }
  }

  lemma FeedOutcomeTells(c: Condition, market: string, x: Selection)
    requires NamesMarket(c, market) && x in c.selections
    ensures exists v :: v in ToFeedOutcomes(c) && OutcomeKey(v) == "azuro:" + (market + ":" + x.key)
  {
    var j :| 0 <= j < |c.selections| && c.selections[j] == x;
    var v := ToFeedOutcomes(c)[j];
    SelectionTells(c, x, market);
    assert v == ToFeedOutcome(ToOutcomeSnapshots(c)[j]);
    assert v in ToFeedOutcomes(c) && OutcomeKey(v) == Key(PROVIDER, market + ":" + x.key);
    assert PROVIDER + ":" == "azuro:";
  }

  /** What the stored outcome of a selection says. */
  predicate StoredTells(y: Outcome, market: string, x: Selection) {
    y.name == x.title && y.odds == x.odds && SelectionReads(x.state, y.status)
    && y.marketId == Id("azuro", MarketKind, market)
  }

  lemma FeedOutcomeIs(c: Condition, v: Outcome, market: string, x: Selection, cs: seq<Condition>)
    requires c in cs && v in ToFeedOutcomes(c) && OnlySelection(cs, market, x)
    requires OutcomeKey(v) == "azuro:" + (market + ":" + x.key)
    ensures StoredTells(v, market, x)
  {
    var j :| 0 <= j < |c.selections| && ToFeedOutcomes(c)[j] == v;
    var m := MarketOf(c);
    SelectionTells(c, c.selections[j], m);
    assert v == ToFeedOutcome(ToOutcomeSnapshots(c)[j]);
    SameKey(m + ":" + c.selections[j].key, market + ":" + x.key);
    assert c.selections[j] in c.selections && NamesMarket(c, m);
    SelectionTells(c, x, market);
  }

  /** After a sync that asks for a game, the outcome stored for each of its selections has the selection's title, odds
      and state: one that won is stored as won, which is what settling it reads. */
  lemma SelectionIsStored(st: Store, r: Round, conds: string -> seq<Condition>, owners: Owners, game: string,
                          c: Condition, market: string, x: Selection)
    requires Own(st) && Keyed(st.events) && Answering(r, conds, owners)
    requires exists e :: e in r.hierarchy.value.events && AsksFor(st, [], e, game)
    requires c in conds(game) && x in c.selections && NamesMarket(c, market)
    requires OnlySelection(conds(game), market, x)
    ensures var k := "azuro:" + (market + ":" + x.key);
            var stored := Sync(st, PROVIDER, r.hierarchy, r.fetch).0.outcomes;
            k in stored && StoredTells(stored[k], market, x)
  {
    var k := "azuro:" + (market + ":" + x.key);
    AskedByStatus(st, r.hierarchy.value, game);
    TwoRefreshes(st, r, conds, owners);
    var cs := conds(game);
    FeedOutcomeTells(c, market, x);
    var v :| v in ToFeedOutcomes(c) && OutcomeKey(v) == k;
    FlatHolds(ToFeedOutcomes, cs, c, v);
    LastIsThere(OutcomeKey, Flat(ToFeedOutcomes, cs), k);
    var last := Last(OutcomeKey, Flat(ToFeedOutcomes, cs), k).value;
    var d := FlatHas(ToFeedOutcomes, cs, last);
    FeedOutcomeIs(d, last, market, x, cs);
    assert GameOwned(game, conds, OutcomeKey, ToFeedOutcomes, owners.outcome);
    assert OwnedBy(c, OutcomeKey, ToFeedOutcomes, owners.outcome, game);
    assert RefreshedAt(st.outcomes, Sync(st, PROVIDER, r.hierarchy, r.fetch).0.outcomes, OutcomeKey, ToFeedOutcomes,
                       owners.outcome, ChangedIds(Normalize(r.hierarchy.value).value.events,
                                                  Statuses(st.events, PROVIDER)), conds, k);
  }
}
