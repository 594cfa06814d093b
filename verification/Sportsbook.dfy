/**
  The sportsbook service on its two stores. Each call is proved to be a run of the saga machine by one process, so
  what holds of every interleaving holds of these calls.
*/
module Sportsbook {
  import opened Basics
  import opened Bets
  import opened BetOrder
  import opened BetStore
  import opened Saga
  import opened SagaInvariant
  import opened Sweep
  import L = Ledger
  import LedgerInvariant
  import SagaTheorems
  import WalletStore

  // ---- The odds feed's answers ------------------------------------------------------------------------------

  datatype EventReply = EventFailed | NoEvent | Found(id: string)

  datatype Offer = Offer(id: string, odds: Text, status: string)

  /** What the feed answers about one event: the event, its markets' ids, and one market's outcomes. */
  datatype Feed = Feed(event: EventReply, markets: Option<seq<string>>, outcomes: Option<seq<Offer>>)

  datatype Error =
    | MissingField | InvalidStake | StakeNotPositive | StoreFailed
    | EventFailure | EventNotFound | MarketsFailed | MarketNotFound | OutcomesFailed | OutcomeNotFound | InvalidOdds
    | DebitFailed | BetNotFound | NotSettleable(status: Status) | InvalidOutcome | CreditFailed

  /** Offer i has the id, and none before it does. */
  ghost predicate OfferAt(offers: seq<Offer>, id: string, i: nat) {
    i < |offers| && offers[i].id == id && forall j | 0 <= j < i :: offers[j].id != id
  }

  function FirstOffer(offers: seq<Offer>, id: string): (r: Option<Offer>)
    ensures r.None? <==> forall o | o in offers :: o.id != id
    ensures r.Some? ==> r.value in offers && r.value.id == id
  {
    if offers == [] then None
    else if offers[0].id == id then Some(offers[0])
    else
      assert offers == [offers[0]] + offers[1..];
      FirstOffer(offers[1..], id)
  }

  lemma {:induction false} FirstOfferIsAt(offers: seq<Offer>, id: string) returns (i: nat)
    requires FirstOffer(offers, id).Some?
    ensures OfferAt(offers, id, i) && FirstOffer(offers, id) == Some(offers[i])
  {
    if offers[0].id == id {
      i := 0;
    } else {
      var k := FirstOfferIsAt(offers[1..], id);
      i := k + 1;
      forall j | 0 <= j < i ensures offers[j].id != id { assert j > 0 ==> offers[j] == offers[1..][j - 1]; }
    }
  }

  method FindOffer(offers: seq<Offer>, id: string) returns (r: Option<Offer>)
    ensures r == FirstOffer(offers, id)
  {
    r := None;
    var i := 0;
    while i < |offers|
      invariant 0 <= i <= |offers|
      invariant r.None? && FirstOffer(offers, id) == FirstOffer(offers[i..], id)
    {
      if offers[i].id == id {
        r := Some(offers[i]);
        break;
      }
      i := i + 1;
    }
  }

  /** The odds an order is accepted at: the event exists, the market is among its active ones, and the outcome is
      among the market's active ones and carries readable odds. */
  function Vouch(feed: Feed, market: string, outcome: string): Result<real, Error> {
    match feed.event
    case EventFailed => Err(EventFailure)
    case NoEvent => Err(EventNotFound)
    case Found(id) =>
      if id == "" then Err(EventNotFound)
      else if feed.markets.None? then Err(MarketsFailed)
      else if market !in feed.markets.value then Err(MarketNotFound)
      else if feed.outcomes.None? then Err(OutcomesFailed)
      else match FirstOffer(feed.outcomes.value, outcome)
        case None => Err(OutcomeNotFound)
        case Some(offer) => if offer.odds.Malformed? then Err(InvalidOdds) else Ok(offer.odds.value)
  }

  function VerdictOf(status: string): Option<Verdict> {
    if status == "won" then Some(Wins)
    else if status == "lost" then Some(Loses)
    else if status == "cancelled" then Some(Voided)
    else None
  }

  /** How a bet resolves: an error, not yet, or a verdict. An event with an empty id counts here. */
  function Resolve(feed: Feed, market: string, outcome: string): Result<Option<Verdict>, Error> {
    match feed.event
    case EventFailed => Err(EventFailure)
    case NoEvent => Err(EventNotFound)
    case Found(_) =>
      if feed.markets.None? then Err(MarketsFailed)
      else if market !in feed.markets.value then Err(MarketNotFound)
      else if feed.outcomes.None? then Err(OutcomesFailed)
      else match FirstOffer(feed.outcomes.value, outcome)
        case None => Err(OutcomeNotFound)
        case Some(offer) => Ok(VerdictOf(offer.status))
  }

  function Resolvable(feed: Bet -> Feed): Bet -> bool {
    (b: Bet) => var r := Resolve(feed(b), b.market, b.outcome); r.Ok? && r.value.Some?
  }

  // ---- What the feed's answers mean, case by case ---------------------------------------------------------------

  /** The feed has the market, and answers what outcomes it has. */
  predicate HasMarket(feed: Feed, market: string) {
    feed.event.Found? && feed.markets.Some? && market in feed.markets.value && feed.outcomes.Some?
  }

  /** The first offer for the outcome has these odds, as a number. */
  ghost predicate Offers(feed: Feed, market: string, outcome: string, odds: real) {
    HasMarket(feed, market) && feed.event.id != ""
    && exists i: nat :: OfferAt(feed.outcomes.value, outcome, i) && feed.outcomes.value[i].odds == Number(odds)
  }

  /** Why no odds are vouched for: the checks come in this order. */
  ghost predicate Declines(feed: Feed, market: string, outcome: string, error: Error) {
    if feed.event.EventFailed? then error == EventFailure
    else if feed.event.NoEvent? || feed.event.id == "" then error == EventNotFound
    else if feed.markets.None? then error == MarketsFailed
    else if market !in feed.markets.value then error == MarketNotFound
    else if feed.outcomes.None? then error == OutcomesFailed
    else if forall o | o in feed.outcomes.value :: o.id != outcome then error == OutcomeNotFound
    else error == InvalidOdds
         && exists i: nat :: OfferAt(feed.outcomes.value, outcome, i) && feed.outcomes.value[i].odds.Malformed?
  }

  lemma VouchTells(feed: Feed, market: string, outcome: string)
    ensures match Vouch(feed, market, outcome)
            case Ok(odds) => Offers(feed, market, outcome, odds)
            case Err(error) => Declines(feed, market, outcome, error)
  {
    if HasMarket(feed, market) {
      var offers := feed.outcomes.value;
      if FirstOffer(offers, outcome).Some? { var _ := FirstOfferIsAt(offers, outcome); }
    }
  }

  /** The first offer for the outcome has this status. */
  ghost predicate Says(feed: Feed, market: string, outcome: string, status: string) {
    HasMarket(feed, market)
    && exists i: nat :: OfferAt(feed.outcomes.value, outcome, i) && feed.outcomes.value[i].status == status
  }

  /** Why an outcome cannot be looked up: as for odds, but an event with an empty id counts. */
  ghost predicate Unknown(feed: Feed, market: string, outcome: string, error: Error) {
    if feed.event.EventFailed? then error == EventFailure
    else if feed.event.NoEvent? then error == EventNotFound
    else if feed.markets.None? then error == MarketsFailed
    else if market !in feed.markets.value then error == MarketNotFound
    else if feed.outcomes.None? then error == OutcomesFailed
    else error == OutcomeNotFound && forall o | o in feed.outcomes.value :: o.id != outcome
  }

  /** What a status text settles a bet as. */
  predicate Reads(status: string, verdict: Option<Verdict>) {
    && (status == "won" ==> verdict == Some(Wins))
    && (status == "lost" ==> verdict == Some(Loses))
    && (status == "cancelled" ==> verdict == Some(Voided))
    && (status != "won" && status != "lost" && status != "cancelled" ==> verdict.None?)
  }

  ghost predicate Resolves(feed: Feed, market: string, outcome: string, r: Result<Option<Verdict>, Error>) {
    match r
    case Ok(verdict) => exists status :: Says(feed, market, outcome, status) && Reads(status, verdict)
    case Err(error) => Unknown(feed, market, outcome, error)
  }

  lemma ResolveTells(feed: Feed, market: string, outcome: string)
    ensures Resolves(feed, market, outcome, Resolve(feed, market, outcome))
  {
    if HasMarket(feed, market) {
      var offers := feed.outcomes.value;
      if FirstOffer(offers, outcome).Some? {
        var i := FirstOfferIsAt(offers, outcome);
        assert Says(feed, market, outcome, offers[i].status);
        assert Reads(offers[i].status, VerdictOf(offers[i].status));
      }
    }
  }

  /** The feed says one thing about an outcome. */
  lemma SaysOne(feed: Feed, market: string, outcome: string, status: string, other: string)
    requires Says(feed, market, outcome, status) && Says(feed, market, outcome, other)
    ensures status == other
  {
    var offers := feed.outcomes.value;
    var i: nat :| OfferAt(offers, outcome, i) && offers[i].status == status;
    var j: nat :| OfferAt(offers, outcome, j) && offers[j].status == other;
    assert !(i < j) && !(j < i);
  }

  /** The bets a sweep resolves are those whose outcome the feed calls won, lost or cancelled. */
  lemma ResolvableExactly(feed: Bet -> Feed, b: Bet)
    ensures Resolvable(feed)(b)
       <==> || Says(feed(b), b.market, b.outcome, "won") || Says(feed(b), b.market, b.outcome, "lost")
            || Says(feed(b), b.market, b.outcome, "cancelled")
  {
    ResolveTells(feed(b), b.market, b.outcome);
    match Resolve(feed(b), b.market, b.outcome)
    case Err(error) =>
    case Ok(verdict) =>
      var status :| Says(feed(b), b.market, b.outcome, status) && Reads(status, verdict);
      forall other | Says(feed(b), b.market, b.outcome, other) ensures other == status {
        SaysOne(feed(b), b.market, b.outcome, status, other);
      }
  }

  // ---- One process alone ------------------------------------------------------------------------------------

  ghost function Solo(w: World, inputs: seq<Input>): World
    requires 0 in w.procs
    decreases |inputs|
  {
    if inputs == [] then w else Solo(Next(w, 0, inputs[0]), inputs[1..])
  }

  function Advances(inputs: seq<Input>): (actions: seq<Action>)
    ensures |actions| == |inputs|
  {
    if inputs == [] then [] else [Advance(0, inputs[0])] + Advances(inputs[1..])
  }

  /** A process that runs alone is a run of the machine. */
  lemma {:induction false} SoloIsARun(w: World, inputs: seq<Input>)
    requires 0 in w.procs
    ensures Exec(w, Advances(inputs)) == Solo(w, inputs)
    decreases |inputs|
  {
    if inputs != [] {
      var actions := Advances(inputs);
      assert actions[0] == Advance(0, inputs[0]) && actions[1..] == Advances(inputs[1..]);
      SoloIsARun(Next(w, 0, inputs[0]), inputs[1..]);
    }
  }

  lemma {:induction false} FinishedStays(w: World, inputs: seq<Input>)
    requires 0 in w.procs && w.procs[0] == Finished
    ensures Solo(w, inputs) == w
    decreases |inputs|
  {
    if inputs != [] { FinishedStays(w, inputs[1..]); }
  }

  lemma SoloStep(w: World, inputs: seq<Input>)
    requires 0 in w.procs && inputs != []
    ensures Solo(w, inputs) == Solo(Next(w, 0, inputs[0]), inputs[1..])
  {
  }

  /** What the surroundings decide at each call of a placement or a settlement. */
  datatype PlaceCalls = PlaceCalls(check: Input, create: Input, debit: Input, close: Input)

  datatype SettleCalls = SettleCalls(read: Input, mark: Input, credit: Input, record: Input, reread: Input)

  ghost function Placed(bets: map<string, Bet>, wallet: L.Ledger, order: Order, odds: Option<real>, calls: PlaceCalls)
    : World
  {
    Solo(World(bets, wallet, map[0 := Checking(order)]),
         [calls.check, Input(false, odds, "", 0), calls.create, calls.debit, calls.close])
  }

  ghost function Settled(bets: map<string, Bet>, wallet: L.Ledger, id: string, verdict: Verdict, calls: SettleCalls)
    : World
  {
    Solo(World(bets, wallet, map[0 := Reading(id, verdict)]), [calls.read, calls.mark, calls.credit, calls.record])
  }

  /** A lone placement that stops before its bet is created leaves both stores alone. */
  lemma PlacedIdle(bets: map<string, Bet>, wallet: L.Ledger, order: Order, odds: Option<real>, calls: PlaceCalls)
    requires calls.check.fails || Taken(bets, order.user, order.reference) || odds.None? || calls.create.fails
    ensures Placed(bets, wallet, order, odds, calls).bets == bets
    ensures Placed(bets, wallet, order, odds, calls).wallet == wallet
  {
    var ask := Input(false, odds, "", 0);
    var w0 := World(bets, wallet, map[0 := Checking(order)]);
    var inputs := [calls.check, ask, calls.create, calls.debit, calls.close];
    SoloStep(w0, inputs);
    var w1 := Next(w0, 0, calls.check);
    if w1.procs[0] == Finished {
      FinishedStays(w1, inputs[1..]);
    } else {
      SoloStep(w1, inputs[1..]);
      var w2 := Next(w1, 0, ask);
      if w2.procs[0] == Finished {
        FinishedStays(w2, inputs[1..][1..]);
      } else {
        SoloStep(w2, inputs[1..][1..]);
        FinishedStays(Next(w2, 0, calls.create), inputs[1..][1..][1..]);
      }
    }
  }

  lemma SoloTo(w: World, w': World, input: Input, rest: seq<Input>)
    requires 0 in w.procs && Next(w, 0, input) == w'
    ensures 0 in w'.procs && Solo(w, [input] + rest) == Solo(w', rest)
  {
    assert ([input] + rest)[0] == input && ([input] + rest)[1..] == rest;
  }

  lemma CheckPasses(w: World, order: Order, input: Input)
    requires w.procs == map[0 := Checking(order)] && !input.fails && !Taken(w.bets, order.user, order.reference)
    ensures Next(w, 0, input) == w.(procs := map[0 := Validating(order)])
  {
  }

  lemma CreationPasses(w: World, order: Order, odds: real, input: Input)
    requires w.procs == map[0 := Creating(order, odds)] && !input.fails && !Taken(w.bets, order.user, order.reference)
    ensures var bet := NewBet(order, odds, input.id, input.now);
            Next(w, 0, input) == World(w.bets[bet.id := bet], w.wallet, map[0 := Debiting(order, bet.id)])
  {
  }

  /** Otherwise it creates the bet and goes on to take the stake. */
  lemma PlacedRuns(bets: map<string, Bet>, wallet: L.Ledger, order: Order, odds: real, calls: PlaceCalls)
    requires !calls.check.fails && !Taken(bets, order.user, order.reference) && !calls.create.fails
    ensures var bet := NewBet(order, odds, calls.create.id, calls.create.now);
            Placed(bets, wallet, order, Some(odds), calls)
            == Solo(World(bets[bet.id := bet], wallet, map[0 := Debiting(order, bet.id)]), [calls.debit, calls.close])
  {
    var ask := Input(false, Some(odds), "", 0);
    var checking := World(bets, wallet, map[0 := Checking(order)]);
    var validating := World(bets, wallet, map[0 := Validating(order)]);
    var creating := World(bets, wallet, map[0 := Creating(order, odds)]);
    CheckPasses(checking, order, calls.check);
    SoloTo(checking, validating, calls.check, [ask, calls.create, calls.debit, calls.close]);
    assert Next(validating, 0, ask) == creating;
    SoloTo(validating, creating, ask, [calls.create, calls.debit, calls.close]);
    CreationPasses(creating, order, odds, calls.create);
    SoloTo(creating, Next(creating, 0, calls.create), calls.create, [calls.debit, calls.close]);
    Listed(calls.check, ask, calls.create, [calls.debit, calls.close]);
  }

  lemma Listed(a: Input, b: Input, c: Input, rest: seq<Input>)
    requires |rest| == 2
    ensures [a] + [b, c, rest[0], rest[1]] == [a, b, c, rest[0], rest[1]]
    ensures [b] + [c, rest[0], rest[1]] == [b, c, rest[0], rest[1]] && [c] + rest == [c, rest[0], rest[1]]
  {
  }

  /** A lone settlement that cannot read, finds nothing to settle or cannot write leaves both stores alone. */
  lemma SettledIdle(bets: map<string, Bet>, wallet: L.Ledger, id: string, verdict: Verdict, calls: SettleCalls)
    requires calls.read.fails || id !in bets || bets[id].status != Pending || calls.mark.fails
    ensures Settled(bets, wallet, id, verdict, calls).bets == bets
    ensures Settled(bets, wallet, id, verdict, calls).wallet == wallet
  {
    var w0 := World(bets, wallet, map[0 := Reading(id, verdict)]);
    var inputs := [calls.read, calls.mark, calls.credit, calls.record];
    assert inputs[1..] == [calls.mark, calls.credit, calls.record];
    var w1 := Next(w0, 0, calls.read);
    SoloStep(w0, inputs);
    if w1.procs[0] == Finished {
      FinishedStays(w1, inputs[1..]);
    } else {
      SoloStep(w1, inputs[1..]);
      FinishedStays(Next(w1, 0, calls.mark), inputs[1..][1..]);
    }
  }

  /** Otherwise it marks the bet and, unless the bet lost, goes on to pay. */
  lemma SettledRuns(bets: map<string, Bet>, wallet: L.Ledger, id: string, verdict: Verdict, calls: SettleCalls)
    requires !calls.read.fails && id in bets && bets[id].id == id && bets[id].status == Pending && !calls.mark.fails
    ensures var marked := bets[id := bets[id].(status := StatusOf(verdict), settled := Some(calls.mark.now))];
            var w := Settled(bets, wallet, id, verdict, calls);
            if verdict == Loses then w.bets == marked && w.wallet == wallet
            else w == Solo(World(marked, wallet, map[0 := Crediting(bets[id], verdict)]), [calls.credit, calls.record])
  {
    var marked := bets[id := bets[id].(status := StatusOf(verdict), settled := Some(calls.mark.now))];
    var w0 := World(bets, wallet, map[0 := Reading(id, verdict)]);
    var inputs := [calls.read, calls.mark, calls.credit, calls.record];
    assert inputs[1..] == [calls.mark, calls.credit, calls.record];
    assert inputs[1..][1..] == [calls.credit, calls.record];
    var w1 := Next(w0, 0, calls.read);
    var w2 := Next(w1, 0, calls.mark);
    SoloStep(w0, inputs);
    SoloStep(w1, inputs[1..]);
    if verdict == Loses {
      FinishedStays(w2, inputs[1..][1..]);
    } else {
      assert w2 == World(marked, wallet, map[0 := Crediting(bets[id], verdict)]);
    }
  }

  // ---- What a lone settlement pays ------------------------------------------------------------------------------

  predicate SettlingOnly(w: World) {
    w.procs.Keys == {0} && !w.procs[0].Checking? && !w.procs[0].Validating? && !w.procs[0].Creating?
  }

  lemma SettlingOn(w: World, input: Input)
    requires SettlingOnly(w)
    ensures SettlingOnly(Next(w, 0, input))
  {
  }

  lemma {:induction false} SettlingIsAllowed(refs: map<string, string>, w: World, inputs: seq<Input>)
    requires SettlingOnly(w)
    ensures AllowedAll(refs, w, Advances(inputs))
    decreases |inputs|
  {
    if inputs != [] {
      var actions := Advances(inputs);
      assert actions[0] == Advance(0, inputs[0]) && actions[1..] == Advances(inputs[1..]);
      SettlingOn(w, inputs[0]);
      SettlingIsAllowed(refs, Next(w, 0, inputs[0]), inputs[1..]);
    }
  }

  /** From consistent stores a lone settlement that leaves a credit id has paid in full. */
  lemma SettlementPays(refs: map<string, string>, bets: map<string, Bet>, wallet: L.Ledger, id: string,
                       verdict: Verdict, calls: SettleCalls)
    requires Consistent(refs, World(bets, wallet, map[]))
    requires var w := Settled(bets, wallet, id, verdict, calls); id in w.bets && w.bets[id].creditTx.Some?
    ensures var w := Settled(bets, wallet, id, verdict, calls);
            Consistent(refs, w) && SagaTheorems.PaidInFull(w, w.bets[id])
  {
    var w0 := World(bets, wallet, map[0 := Reading(id, verdict)]);
    var inputs := [calls.read, calls.mark, calls.credit, calls.record];
    BeginKeeps(refs, World(bets, wallet, map[]), 0, Reading(id, verdict));
    assert Goto(World(bets, wallet, map[]), 0, Reading(id, verdict)) == w0;
    SettlingIsAllowed(refs, w0, inputs);
    SoloIsARun(w0, inputs);
    RunKeeps(refs, w0, Advances(inputs));
    SagaTheorems.CreditIdPays(refs, Settled(bets, wallet, id, verdict, calls), id);
  }

  /** Coming from consistent stores, the bet is paid in full. */
  ghost predicate PaidIfConsistent(bets: map<string, Bet>, wallet: L.Ledger, bets': map<string, Bet>, wallet': L.Ledger,
                                   id: string)
  {
    forall refs :: Consistent(refs, World(bets, wallet, map[])) ==>
      id in bets' && SagaTheorems.PaidInFull(World(bets', wallet', map[]), bets'[id])
  }

  lemma SettledIsPaid(bets: map<string, Bet>, wallet: L.Ledger, id: string, verdict: Verdict, calls: SettleCalls,
                      bets': map<string, Bet>, wallet': L.Ledger)
    requires var w := Settled(bets, wallet, id, verdict, calls); w.bets == bets' && w.wallet == wallet'
    requires id in bets' && bets'[id].creditTx.Some?
    ensures PaidIfConsistent(bets, wallet, bets', wallet', id)
  {
    forall refs | Consistent(refs, World(bets, wallet, map[]))
      ensures SagaTheorems.PaidInFull(World(bets', wallet', map[]), bets'[id])
    {
      SettlementPays(refs, bets, wallet, id, verdict, calls);
      PaidAlike(Settled(bets, wallet, id, verdict, calls), World(bets', wallet', map[]), bets'[id]);
    }
  }

  lemma PaidAlike(w: World, w': World, bet: Bet)
    requires w.wallet == w'.wallet && SagaTheorems.PaidInFull(w, bet)
    ensures SagaTheorems.PaidInFull(w', bet)
  {
  }

  // ---- What lone calls keep -------------------------------------------------------------------------------------

  /** Both stores stay consistent and every wallet's money is accounted for, if they were and it was. */
  ghost predicate KeepsBooksFor(refs: map<string, string>, key: string, bets: map<string, Bet>, wallet: L.Ledger,
                                bets': map<string, Bet>, wallet': L.Ledger)
  {
    Consistent(refs, World(bets, wallet, map[])) && SagaTheorems.Conserved(refs, World(bets, wallet, map[]), key) ==>
      Consistent(refs, World(bets', wallet', map[]))
      && SagaTheorems.Conserved(refs, World(bets', wallet', map[]), key)
  }

  ghost predicate KeepsBooks(bets: map<string, Bet>, wallet: L.Ledger, bets': map<string, Bet>, wallet': L.Ledger) {
    forall refs: map<string, string>, key: string :: KeepsBooksFor(refs, key, bets, wallet, bets', wallet')
  }

  lemma KeepsBooksTwice(bets: map<string, Bet>, wallet: L.Ledger, bets': map<string, Bet>, wallet': L.Ledger,
                        bets'': map<string, Bet>, wallet'': L.Ledger)
    requires KeepsBooks(bets, wallet, bets', wallet') && KeepsBooks(bets', wallet', bets'', wallet'')
    ensures KeepsBooks(bets, wallet, bets'', wallet'')
  {
    forall refs: map<string, string>, key: string
      ensures KeepsBooksFor(refs, key, bets, wallet, bets'', wallet'')
    {
      assert KeepsBooksFor(refs, key, bets, wallet, bets', wallet');
      assert KeepsBooksFor(refs, key, bets', wallet', bets'', wallet'');
    }
  }

  lemma ProcsMayGo(refs: map<string, string>, w: World, key: string)
    requires Consistent(refs, w) && SagaTheorems.Conserved(refs, w, key)
    ensures Consistent(refs, World(w.bets, w.wallet, map[]))
    ensures SagaTheorems.Conserved(refs, World(w.bets, w.wallet, map[]), key)
  {
    SagaTheorems.QuietConserves(refs, w, World(w.bets, w.wallet, map[]), key);
  }

  /** A lone process that is allowed all its steps. */
  lemma SoloKeepsBooks(refs: map<string, string>, key: string, bets: map<string, Bet>, wallet: L.Ledger, proc: Proc,
                       inputs: seq<Input>)
    requires var w := World(bets, wallet, map[]);
             Consistent(refs, w) && SagaTheorems.Conserved(refs, w, key) && Allowed(refs, w, Begin(0, proc))
    requires AllowedAll(refs, World(bets, wallet, map[0 := proc]), Advances(inputs))
    ensures var w' := Solo(World(bets, wallet, map[0 := proc]), inputs);
            Consistent(refs, World(w'.bets, w'.wallet, map[]))
            && SagaTheorems.Conserved(refs, World(w'.bets, w'.wallet, map[]), key)
  {
    var w, w0 := World(bets, wallet, map[]), World(bets, wallet, map[0 := proc]);
    BeginKeeps(refs, w, 0, proc);
    assert Goto(w, 0, proc) == w0;
    SagaTheorems.QuietConserves(refs, w, w0, key);
    SoloIsARun(w0, inputs);
    RunKeeps(refs, w0, Advances(inputs));
    SagaTheorems.RunConserves(refs, w0, Advances(inputs), key);
    ProcsMayGo(refs, Solo(w0, inputs), key);
  }

  lemma SettledKeepsBooks(bets: map<string, Bet>, wallet: L.Ledger, id: string, verdict: Verdict, calls: SettleCalls,
                          bets': map<string, Bet>, wallet': L.Ledger)
    requires var w := Settled(bets, wallet, id, verdict, calls); w.bets == bets' && w.wallet == wallet'
    ensures KeepsBooks(bets, wallet, bets', wallet')
  {
    var inputs := [calls.read, calls.mark, calls.credit, calls.record];
    forall refs: map<string, string>, key: string ensures KeepsBooksFor(refs, key, bets, wallet, bets', wallet') {
      SettlingKeepsBooksFor(refs, key, bets, wallet, id, verdict, inputs);
    }
  }

  lemma SettlingKeepsBooksFor(refs: map<string, string>, key: string, bets: map<string, Bet>, wallet: L.Ledger,
                              id: string, verdict: Verdict, inputs: seq<Input>)
    ensures var w' := Solo(World(bets, wallet, map[0 := Reading(id, verdict)]), inputs);
            KeepsBooksFor(refs, key, bets, wallet, w'.bets, w'.wallet)
  {
    var w := World(bets, wallet, map[]);
    if Consistent(refs, w) && SagaTheorems.Conserved(refs, w, key) {
      SettlingIsAllowed(refs, World(bets, wallet, map[0 := Reading(id, verdict)]), inputs);
      SoloKeepsBooks(refs, key, bets, wallet, Reading(id, verdict), inputs);
    }
  }

  predicate BeyondCreation(w: World) {
    w.procs.Keys == {0} && !w.procs[0].Checking? && !w.procs[0].Validating? && !w.procs[0].Creating?
    && !w.procs[0].Reading?
  }

  lemma {:induction false} BeyondCreationIsAllowed(refs: map<string, string>, w: World, inputs: seq<Input>)
    requires BeyondCreation(w)
    ensures AllowedAll(refs, w, Advances(inputs))
    decreases |inputs|
  {
    if inputs != [] {
      var actions := Advances(inputs);
      assert actions[0] == Advance(0, inputs[0]) && actions[1..] == Advances(inputs[1..]);
      BeyondCreationIsAllowed(refs, Next(w, 0, inputs[0]), inputs[1..]);
    }
  }

  lemma AllowedFirst(refs: map<string, string>, w: World, input: Input, rest: seq<Input>)
    requires 0 in w.procs && Allowed(refs, w, Advance(0, input))
    requires AllowedAll(refs, Next(w, 0, input), Advances(rest))
    ensures AllowedAll(refs, w, Advances([input] + rest))
  {
    var actions := Advances([input] + rest);
    assert ([input] + rest)[1..] == rest;
    assert actions[0] == Advance(0, input) && actions[1..] == Advances(rest);
  }

  lemma CreatingIsAllowed(refs: map<string, string>, w: World, order: Order, odds: real, create: Input,
                          rest: seq<Input>)
    requires w.procs == map[0 := Creating(order, odds)] && create.id !in w.bets
    ensures AllowedAll(refs, w, Advances([create] + rest))
  {
    BeyondCreationIsAllowed(refs, Next(w, 0, create), rest);
    AllowedFirst(refs, w, create, rest);
  }

  lemma ValidatingIsAllowed(refs: map<string, string>, w: World, order: Order, ask: Input, create: Input,
                            rest: seq<Input>)
    requires w.procs == map[0 := Validating(order)] && create.id !in w.bets
    ensures AllowedAll(refs, w, Advances([ask, create] + rest))
  {
    assert [ask, create] + rest == [ask] + ([create] + rest);
    var w' := Next(w, 0, ask);
    if ask.odds.Some? { CreatingIsAllowed(refs, w', order, ask.odds.value, create, rest); }
    else { BeyondCreationIsAllowed(refs, w', [create] + rest); }
    AllowedFirst(refs, w, ask, [create] + rest);
  }

  lemma CheckingIsAllowed(refs: map<string, string>, w: World, order: Order, check: Input, ask: Input, create: Input,
                          rest: seq<Input>)
    requires w.procs == map[0 := Checking(order)] && create.id !in w.bets
    ensures AllowedAll(refs, w, Advances([check, ask, create] + rest))
  {
    assert [check, ask, create] + rest == [check] + ([ask, create] + rest);
    var w' := Next(w, 0, check);
    if w'.procs[0].Finished? { BeyondCreationIsAllowed(refs, w', [ask, create] + rest); }
    else { ValidatingIsAllowed(refs, w', order, ask, create, rest); }
    AllowedFirst(refs, w, check, [ask, create] + rest);
  }

  /** A placement keeps the books of those who let the user have the reference, if the new id is new. */
  ghost predicate PlacementKeepsBooks(order: Order, id: string, bets: map<string, Bet>, wallet: L.Ledger,
                                      bets': map<string, Bet>, wallet': L.Ledger)
  {
    id !in bets ==>
      forall refs: map<string, string>, key: string | Owned(refs, order) ::
        KeepsBooksFor(refs, key, bets, wallet, bets', wallet')
  }

  lemma PlacedKeepsBooks(bets: map<string, Bet>, wallet: L.Ledger, order: Order, odds: Option<real>,
                         calls: PlaceCalls, bets': map<string, Bet>, wallet': L.Ledger)
    requires var w := Placed(bets, wallet, order, odds, calls); w.bets == bets' && w.wallet == wallet'
    ensures PlacementKeepsBooks(order, calls.create.id, bets, wallet, bets', wallet')
  {
    var ask := Input(false, odds, "", 0);
    var inputs := [calls.check, ask, calls.create, calls.debit, calls.close];
    if calls.create.id !in bets {
      forall refs: map<string, string>, key: string | Owned(refs, order)
        ensures KeepsBooksFor(refs, key, bets, wallet, bets', wallet')
      {
        var w := World(bets, wallet, map[]);
        if Consistent(refs, w) && SagaTheorems.Conserved(refs, w, key) {
          CheckingIsAllowed(refs, World(bets, wallet, map[0 := Checking(order)]), order, calls.check, ask,
                            calls.create, [calls.debit, calls.close]);
          assert [calls.check, ask, calls.create] + [calls.debit, calls.close] == inputs;
          SoloKeepsBooks(refs, key, bets, wallet, Checking(order), inputs);
        }
      }
    }
  }

  // ---- What placing and settling leave behind, case by case -----------------------------------------------------

  predicate Filled(user: string, event: string, market: string, outcome: string, stake: Option<Text>,
                   currency: string, reference: string)
  {
    user != "" && event != "" && market != "" && outcome != "" && stake.Some? && currency != "" && reference != ""
  }

  predicate Placeable(user: string, event: string, market: string, outcome: string, stake: Option<Text>,
                      currency: string, reference: string)
  {
    Filled(user, event, market, outcome, stake, currency, reference) && stake.value.Number? && stake.value.value > 0.0
  }

  /** The wallet pays the stake: from now, or because the reference is on the books already. */
  predicate CanPay(wallet: L.Ledger, user: string, currency: string, stake: real, reference: string) {
    WalletStore.Replays(wallet, reference) || WalletStore.Affords(wallet, user, currency, stake)
  }

  /** One movement under the reference, unless it is on the books already. */
  ghost predicate MovesOnce(wallet: L.Ledger, wallet': L.Ledger, user: string, currency: string, kind: L.Kind,
                            amount: real, change: real, reference: string)
  {
    if WalletStore.Replays(wallet, reference) then wallet' == wallet
    else WalletStore.Moves(wallet, wallet', wallet.rows, user, currency, kind, amount, change, L.Completed, reference)
         && WalletStore.Indexes(wallet, wallet', reference) && wallet'.requests == wallet.requests
  }

  /** The created bet after its stake was asked for: cancelled when the wallet refuses, pending when it pays, and left
      waiting for its debit when the last write fails. */
  ghost predicate AsksStake(bets: map<string, Bet>, wallet: L.Ledger, bets': map<string, Bet>, wallet': L.Ledger,
                            created: Bet, calls: PlaceCalls, r: Result<Bet, Error>)
  {
    if calls.debit.fails || !CanPay(wallet, created.user, created.currency, created.stake, created.reference) then
      && wallet' == wallet && r == Err(DebitFailed)
      && bets' == (if calls.close.fails then bets
                   else bets[created.id := created.(status := Cancelled, settled := Some(calls.close.now))])
    else
      && MovesOnce(wallet, wallet', created.user, created.currency, L.Withdrawal, created.stake, -created.stake,
                   created.reference)
      && if calls.close.fails then bets' == bets && r == Err(StoreFailed)
         else
           && created.reference in wallet'.byRef
           && var placed := created.(status := Pending, debitTx := Some(wallet'.byRef[created.reference]));
              bets' == bets[created.id := placed] && r == Ok(placed)
  }

  /** A bet just created: the order's terms, the odds, and a payout of stake times odds. */
  predicate Created(b: Bet, user: string, event: string, market: string, outcome: string, stake: real,
                    currency: string, reference: string, odds: real, calls: PlaceCalls)
  {
    && b.id == calls.create.id && b.user == user && b.event == event && b.market == market && b.outcome == outcome
    && b.stake == stake && b.currency == currency && b.reference == reference
    && b.odds == odds && b.payout == stake * odds && b.status == DebitPending
    && b.debitTx.None? && b.creditTx.None? && b.created == calls.create.now && b.settled.None?
  }

  /** The bet is created with these terms and its stake asked for, unless the store fails. */
  ghost predicate Opens(bets: map<string, Bet>, wallet: L.Ledger, bets': map<string, Bet>, wallet': L.Ledger,
                        user: string, event: string, market: string, outcome: string, stake: real, currency: string,
                        reference: string, odds: real, calls: PlaceCalls, r: Result<Bet, Error>)
  {
    if calls.create.fails then r == Err(StoreFailed) && bets' == bets && wallet' == wallet
    else exists created | Created(created, user, event, market, outcome, stake, currency, reference, odds, calls) ::
           AsksStake(bets[created.id := created], wallet, bets', wallet', created, calls, r)
  }

  lemma NewBetOpens(bets: map<string, Bet>, wallet: L.Ledger, bets': map<string, Bet>, wallet': L.Ledger,
                    order: Order, odds: real, calls: PlaceCalls, r: Result<Bet, Error>)
    requires !calls.create.fails
    requires var bet := NewBet(order, odds, calls.create.id, calls.create.now);
             AsksStake(bets[bet.id := bet], wallet, bets', wallet', bet, calls, r)
    ensures Opens(bets, wallet, bets', wallet', order.user, order.event, order.market, order.outcome, order.stake,
                  order.currency, order.reference, odds, calls, r)
  {
    var bet := NewBet(order, odds, calls.create.id, calls.create.now);
    assert Created(bet, order.user, order.event, order.market, order.outcome, order.stake, order.currency,
                   order.reference, odds, calls);
  }

  /** An order the feed declines, or one whose bet is opened at the odds the feed offers. */
  ghost predicate PlacesNew(bets: map<string, Bet>, wallet: L.Ledger, bets': map<string, Bet>, wallet': L.Ledger,
                            user: string, event: string, market: string, outcome: string, stake: real,
                            currency: string, reference: string, feed: Feed, calls: PlaceCalls, r: Result<Bet, Error>)
  {
    || (r.Err? && Declines(feed, market, outcome, r.error) && bets' == bets && wallet' == wallet)
    || exists odds | Offers(feed, market, outcome, odds) ::
         Opens(bets, wallet, bets', wallet', user, event, market, outcome, stake, currency, reference, odds, calls, r)
  }

  /** The payout or the refund of a marked bet. */
  ghost predicate GivesBack(bets: map<string, Bet>, wallet: L.Ledger, bets': map<string, Bet>, wallet': L.Ledger,
                            bet: Bet, reference: string, amount: real, calls: SettleCalls, error: Option<Error>)
    requires bet.id in bets
  {
    if calls.credit.fails then wallet' == wallet && bets' == bets && error == Some(CreditFailed)
    else
      && MovesOnce(wallet, wallet', bet.user, bet.currency, L.Deposit, amount, amount, reference)
      && reference in wallet'.byRef
      && if calls.record.fails then bets' == bets && error == Some(StoreFailed)
         else bets' == bets[bet.id := bets[bet.id].(creditTx := Some(wallet'.byRef[reference]))] && error.None?
  }

  /** How a settlement that has marked its bet answers. */
  predicate Reports(bets': map<string, Bet>, id: string, calls: SettleCalls, error: Option<Error>,
                    r: Result<Option<Bet>, Error>)
    requires id in bets'
  {
    r == if error.Some? then Err(error.value) else Ok(if calls.reread.fails then None else Some(bets'[id]))
  }

  /** A pending bet marked and, unless lost, paid. */
  ghost predicate Concludes(bets: map<string, Bet>, wallet: L.Ledger, bets': map<string, Bet>, wallet': L.Ledger,
                            b: Bet, verdict: Verdict, calls: SettleCalls, error: Option<Error>)
  {
    var now := Some(calls.mark.now);
    match verdict
    case Wins =>
      GivesBack(bets[b.id := b.(status := Won, settled := now)], wallet, bets', wallet', b, "settle-" + b.reference,
                b.payout, calls, error)
    case Loses =>
      bets' == bets[b.id := b.(status := Lost, settled := now)] && wallet' == wallet && error.None?
    case Voided =>
      GivesBack(bets[b.id := b.(status := Cancelled, settled := now)], wallet, bets', wallet', b,
                "cancel-" + b.reference, b.stake, calls, error)
  }

  /** A pending bet settled by the text of the outcome. */
  ghost predicate SettlesAs(bets: map<string, Bet>, wallet: L.Ledger, bets': map<string, Bet>, wallet': L.Ledger,
                            id: string, outcome: string, calls: SettleCalls, r: Result<Option<Bet>, Error>)
    requires id in bets
  {
    id in bets' && exists verdict, error | Reads(outcome, Some(verdict)) && Reports(bets', id, calls, error, r) ::
      Concludes(bets, wallet, bets', wallet', bets[id], verdict, calls, error)
  }

  // ---- The service ------------------------------------------------------------------------------------------

  class Service {
    const store: InMemoryStore
    const wallet: WalletStore.MemoryStore

    constructor (store: InMemoryStore, wallet: WalletStore.MemoryStore)
      ensures this.store == store && this.wallet == wallet
    {
      this.store := store;
      this.wallet := wallet;
    }

    ghost predicate Valid()
      reads store, wallet
    {
      store.Valid() && wallet.Valid()
    }

    ghost predicate Same(bets: map<string, Bet>, model: L.Ledger)
      reads store, wallet
    {
      store.bets == bets && wallet.Model() == model
    }

    ghost predicate Holds(w: World)
      reads store, wallet
    {
      store.bets == w.bets && wallet.Model() == w.wallet
    }

    /** Asks the feed for the odds of an order. */
    method Validate(feed: Feed, market: string, outcome: string) returns (r: Result<real, Error>)
      ensures r == Vouch(feed, market, outcome)
      ensures r.Ok? ==> Offers(feed, market, outcome, r.value)
      ensures r.Err? ==> Declines(feed, market, outcome, r.error)
    {
      VouchTells(feed, market, outcome);
      if feed.event.EventFailed? {
        return Err(EventFailure);
      }
      if feed.event.NoEvent? || feed.event.id == "" {
        return Err(EventNotFound);
      }
      if feed.markets.None? {
        return Err(MarketsFailed);
      }
      if market !in feed.markets.value {
        return Err(MarketNotFound);
      }
      if feed.outcomes.None? {
        return Err(OutcomesFailed);
      }
      var offer := FindOffer(feed.outcomes.value, outcome);
      if offer.None? {
        return Err(OutcomeNotFound);
      }
      if offer.value.odds.Malformed? {
        return Err(InvalidOdds);
      }
      r := Ok(offer.value.odds.value);
    }

    /** `None` for the stake is the empty text. */
    method PlaceBet(user: string, event: string, market: string, outcome: string, stake: Option<Text>,
                    currency: string, reference: string, feed: Feed, calls: PlaceCalls)
      returns (r: Result<Bet, Error>)
      requires Valid() && calls.create.id != ""
      modifies store, wallet
      ensures Valid()
      ensures user == "" || event == "" || market == "" || outcome == "" || stake.None? || currency == ""
              || reference == "" ==>
                r == Err(MissingField) && Same(old(store.bets), old(wallet.Model()))
      ensures Filled(user, event, market, outcome, stake, currency, reference) && stake.value.Malformed? ==>
                r == Err(InvalidStake) && Same(old(store.bets), old(wallet.Model()))
      ensures Filled(user, event, market, outcome, stake, currency, reference) && stake.value.Number?
              && stake.value.value <= 0.0 ==>
                r == Err(StakeNotPositive) && Same(old(store.bets), old(wallet.Model()))
      ensures Placeable(user, event, market, outcome, stake, currency, reference) && calls.check.fails ==>
                r == Err(StoreFailed) && Same(old(store.bets), old(wallet.Model()))
      ensures Placeable(user, event, market, outcome, stake, currency, reference) && !calls.check.fails
              && Taken(old(store.bets), user, reference) ==>
                r.Ok? && Same(old(store.bets), old(wallet.Model()))
      ensures Placeable(user, event, market, outcome, stake, currency, reference) && !calls.check.fails
              && !Taken(old(store.bets), user, reference) ==>
                PlacesNew(old(store.bets), old(wallet.Model()), store.bets, wallet.Model(), user, event, market,
                          outcome, stake.value.value, currency, reference, feed, calls, r)
      ensures user != "" && event != "" && market != "" && outcome != "" && stake.Some? && currency != ""
              && reference != "" && stake.value.Number? && stake.value.value > 0.0 ==>
                var odds := Vouch(feed, market, outcome);
                Holds(Placed(old(store.bets), old(wallet.Model()),
                             Order(user, event, market, outcome, stake.value.value, currency, reference),
                             if odds.Ok? then Some(odds.value) else None, calls))
      ensures Placeable(user, event, market, outcome, stake, currency, reference) ==>
                PlacementKeepsBooks(Order(user, event, market, outcome, stake.value.value, currency, reference),
                                    calls.create.id, old(store.bets), old(wallet.Model()), store.bets, wallet.Model())
      ensures r.Ok? ==>
                && r.value.id in store.bets && store.bets[r.value.id] == r.value
                && r.value.user == user && r.value.reference == reference
                && (!Taken(old(store.bets), user, reference) ==> r.value.status == Pending)
                && (Taken(old(store.bets), user, reference) ==> store.bets == old(store.bets))
    {
      if user == "" || event == "" || market == "" || outcome == "" || stake.None? || currency == "" || reference == "" {
        return Err(MissingField);
      }
      if stake.value.Malformed? {
        return Err(InvalidStake);
      }
      if stake.value.value <= 0.0 {
        return Err(StakeNotPositive);
      }
      var order := Order(user, event, market, outcome, stake.value.value, currency, reference);
      r := PlaceOrder(order, feed, calls);
      ghost var odds := Vouch(feed, market, outcome);
      PlacedKeepsBooks(old(store.bets), old(wallet.Model()), order, if odds.Ok? then Some(odds.value) else None, calls,
                       store.bets, wallet.Model());
    }

    /** Returns the bet that already has the reference, or asks the feed and creates the bet. */
    method PlaceOrder(order: Order, feed: Feed, calls: PlaceCalls) returns (r: Result<Bet, Error>)
      requires Valid() && calls.create.id != "" && order.stake > 0.0 && order.reference != ""
      modifies store, wallet
      ensures Valid()
      ensures var odds := Vouch(feed, order.market, order.outcome);
              Holds(Placed(old(store.bets), old(wallet.Model()), order,
                           if odds.Ok? then Some(odds.value) else None, calls))
      ensures r.Ok? ==>
                && r.value.id in store.bets && store.bets[r.value.id] == r.value
                && r.value.user == order.user && r.value.reference == order.reference
                && (!Taken(old(store.bets), order.user, order.reference) ==> r.value.status == Pending)
                && (Taken(old(store.bets), order.user, order.reference) ==> store.bets == old(store.bets))
      ensures calls.check.fails ==> r == Err(StoreFailed) && Same(old(store.bets), old(wallet.Model()))
      ensures !calls.check.fails && Taken(old(store.bets), order.user, order.reference) ==>
                r.Ok? && Same(old(store.bets), old(wallet.Model()))
      ensures !calls.check.fails && !Taken(old(store.bets), order.user, order.reference) ==>
                PlacesNew(old(store.bets), old(wallet.Model()), store.bets, wallet.Model(), order.user, order.event,
                          order.market, order.outcome, order.stake, order.currency, order.reference, feed, calls, r)
    {
      ghost var vouched := Vouch(feed, order.market, order.outcome);
      ghost var offered := if vouched.Ok? then Some(vouched.value) else None;
      if calls.check.fails {
        PlacedIdle(store.bets, wallet.Model(), order, offered, calls);
        return Err(StoreFailed);
      }
      var existing := store.GetBetByReference(order.user, order.reference);
      if existing.Some? {
        PlacedIdle(store.bets, wallet.Model(), order, offered, calls);
        return Ok(existing.value);
      }
      var odds := Validate(feed, order.market, order.outcome);
      if odds.Err? {
        PlacedIdle(store.bets, wallet.Model(), order, offered, calls);
        return Err(odds.error);
      }
      r := OpenBet(order, odds.value, calls);
    }

    /** Creates the bet of an order at the odds vouched for, and takes its stake. */
    method OpenBet(order: Order, odds: real, calls: PlaceCalls) returns (r: Result<Bet, Error>)
      requires Valid() && calls.create.id != "" && order.reference != ""
      requires !calls.check.fails && !Taken(store.bets, order.user, order.reference)
      modifies store, wallet
      ensures Valid()
      ensures Holds(Placed(old(store.bets), old(wallet.Model()), order, Some(odds), calls))
      ensures r.Ok? ==>
                && r.value.id in store.bets && store.bets[r.value.id] == r.value
                && r.value.user == order.user && r.value.reference == order.reference && r.value.status == Pending
      ensures Opens(old(store.bets), old(wallet.Model()), store.bets, wallet.Model(), order.user, order.event,
                    order.market, order.outcome, order.stake, order.currency, order.reference, odds, calls, r)
    {
      if calls.create.fails {
        PlacedIdle(store.bets, wallet.Model(), order, Some(odds), calls);
        return Err(StoreFailed);
      }
      PlacedRuns(store.bets, wallet.Model(), order, odds, calls);
      var bet := NewBet(order, odds, calls.create.id, calls.create.now);
      ghost var bets, model := store.bets, wallet.Model();
      var _ := store.CreateBet(bet, calls.create.id);
      assert store.bets == bets[bet.id := bet];
      r := TakeStake(bet, order, calls);
      NewBetOpens(bets, model, store.bets, wallet.Model(), order, odds, calls, r);
    }

    /** Debits the stake of a bet just created and finalises the bet, or cancels it if the debit fails. */
    method TakeStake(created: Bet, order: Order, calls: PlaceCalls) returns (r: Result<Bet, Error>)
      requires Valid() && created.id in store.bets && store.bets[created.id] == created
      requires created.reference == order.reference && created.user == order.user && created.reference != ""
      requires created.currency == order.currency && created.stake == order.stake && created.settled.None?
      modifies store, wallet
      ensures Valid()
      ensures Holds(Solo(World(old(store.bets), old(wallet.Model()), map[0 := Debiting(order, created.id)]),
                         [calls.debit, calls.close]))
      ensures r.Ok? ==>
                && r.value.id in store.bets && store.bets[r.value.id] == r.value
                && r.value.user == order.user && r.value.reference == order.reference && r.value.status == Pending
      ensures AsksStake(old(store.bets), old(wallet.Model()), store.bets, wallet.Model(), created, calls, r)
    {
      ghost var w3 := World(store.bets, wallet.Model(), map[0 := Debiting(order, created.id)]);
      assert [calls.debit, calls.close][1..] == [calls.close];
      SoloStep(w3, [calls.debit, calls.close]);
      ghost var w4 := Next(w3, 0, calls.debit);
      SoloStep(w4, [calls.close]);
      FinishedStays(Next(w4, 0, calls.close), []);
      var bet := created;
      var reply := L.Refused(L.WalletNotFound);
      if !calls.debit.fails {
        reply := wallet.DebitWallet(order.user, order.currency, Number(order.stake), order.reference);
      }
      if !reply.Txn? {
        if !calls.close.fails {
          var _ := store.UpdateBetStatus(bet.id, Cancelled, Some(calls.close.now));
        }
        return Err(DebitFailed);
      }
      bet := bet.(debitTx := Some(reply.index));
      if calls.close.fails {
        return Err(StoreFailed);
      }
      var _ := store.UpdateBetStatusAndDebitTx(bet.id, Pending, reply.index, None);
      bet := bet.(status := Pending);
      r := Ok(bet);
    }

    /** Credits the payout or the refund of a bet already marked, and records the credit's id. */
    method PayBack(bet: Bet, verdict: Verdict, calls: SettleCalls) returns (error: Option<Error>)
      requires Valid() && bet.id in store.bets
      modifies store, wallet
      ensures Valid()
      ensures Holds(Solo(World(old(store.bets), old(wallet.Model()), map[0 := Crediting(bet, verdict)]),
                         [calls.credit, calls.record]))
      ensures store.bets.Keys == old(store.bets.Keys)
      ensures forall k | k in old(store.bets) && k != bet.id :: store.bets[k] == old(store.bets[k])
      ensures store.bets[bet.id] == old(store.bets[bet.id]).(creditTx := store.bets[bet.id].creditTx)
      ensures error.None? ==>
                && CreditReference(bet, verdict) in wallet.txnByRef
                && store.bets[bet.id].creditTx == Some(wallet.txnByRef[CreditReference(bet, verdict)])
      ensures verdict == Wins ==>
                GivesBack(old(store.bets), old(wallet.Model()), store.bets, wallet.Model(), bet,
                          "settle-" + bet.reference, bet.payout, calls, error)
      ensures verdict == Voided ==>
                GivesBack(old(store.bets), old(wallet.Model()), store.bets, wallet.Model(), bet,
                          "cancel-" + bet.reference, bet.stake, calls, error)
    {
      ghost var w := World(store.bets, wallet.Model(), map[0 := Crediting(bet, verdict)]);
      assert [calls.credit, calls.record][1..] == [calls.record];
      SoloStep(w, [calls.credit, calls.record]);
      ghost var paid := Next(w, 0, calls.credit);
      if calls.credit.fails {
        FinishedStays(paid, [calls.record]);
        return Some(CreditFailed);
      }
      var reply := wallet.CreditWallet(bet.user, bet.currency, Number(CreditAmount(bet, verdict)),
                                       CreditReference(bet, verdict));
      SoloStep(paid, [calls.record]);
      if calls.record.fails {
        return Some(StoreFailed);
      }
      var _ := store.SetCreditTransactionID(bet.id, reply.index);
      error := None;
    }

    /** Marks a pending bet and, unless it lost, pays it. */
    method Conclude(bet: Bet, verdict: Verdict, calls: SettleCalls) returns (error: Option<Error>)
      requires Valid() && bet.id in store.bets && store.bets[bet.id] == bet && bet.status == Pending
      requires !calls.read.fails && !calls.mark.fails
      modifies store, wallet
      ensures Valid()
      ensures Holds(Settled(old(store.bets), old(wallet.Model()), bet.id, verdict, calls))
      ensures Concludes(old(store.bets), old(wallet.Model()), store.bets, wallet.Model(), bet, verdict, calls, error)
      ensures KeepsBooks(old(store.bets), old(wallet.Model()), store.bets, wallet.Model())
      ensures store.bets.Keys == old(store.bets.Keys)
      ensures forall k | k in old(store.bets) && k != bet.id :: store.bets[k] == old(store.bets[k])
      ensures store.bets[bet.id].status == StatusOf(verdict) && SameTerms(bet, store.bets[bet.id])
      ensures error.None? && verdict != Loses ==>
                && store.bets[bet.id].creditTx.Some?
                && PaidIfConsistent(old(store.bets), old(wallet.Model()), store.bets, wallet.Model(), bet.id)
    {
      SettledRuns(store.bets, wallet.Model(), bet.id, verdict, calls);
      var _ := store.UpdateBetStatus(bet.id, StatusOf(verdict), Some(calls.mark.now));
      error := None;
      if verdict != Loses {
        error := PayBack(bet, verdict, calls);
      }
      SettledKeepsBooks(old(store.bets), old(wallet.Model()), bet.id, verdict, calls, store.bets, wallet.Model());
      if error.None? && verdict != Loses {
        SettledIsPaid(old(store.bets), old(wallet.Model()), bet.id, verdict, calls, store.bets, wallet.Model());
      }
    }

    /** `None` in place of the bet is the minimal record returned when the last read fails. */
    method SettleBet(id: string, outcome: string, calls: SettleCalls) returns (r: Result<Option<Bet>, Error>)
      requires Valid()
      modifies store, wallet
      ensures Valid()
      ensures id == "" ==> r == Err(BetNotFound) && Same(old(store.bets), old(wallet.Model()))
      ensures id != "" && outcome != "won" && outcome != "lost" && outcome != "cancelled" ==>
                r == Err(InvalidOutcome) && Same(old(store.bets), old(wallet.Model()))
      ensures id != "" && (outcome == "won" || outcome == "lost" || outcome == "cancelled") ==>
                if calls.read.fails then r == Err(StoreFailed) && Same(old(store.bets), old(wallet.Model()))
                else if id !in old(store.bets) then r == Err(BetNotFound) && Same(old(store.bets), old(wallet.Model()))
                else if old(store.bets[id].status) != Pending then
                  r == Err(NotSettleable(old(store.bets[id].status))) && Same(old(store.bets), old(wallet.Model()))
                else if calls.mark.fails then r == Err(StoreFailed) && Same(old(store.bets), old(wallet.Model()))
                else SettlesAs(old(store.bets), old(wallet.Model()), store.bets, wallet.Model(), id, outcome, calls, r)
      ensures id != "" && VerdictOf(outcome).Some? ==>
                Holds(Settled(old(store.bets), old(wallet.Model()), id, VerdictOf(outcome).value, calls))
      ensures store.bets.Keys == old(store.bets.Keys)
      ensures forall k | k in old(store.bets) && k != id :: store.bets[k] == old(store.bets[k])
      ensures id != "" && VerdictOf(outcome).Some? && id in old(store.bets) && old(store.bets[id].status) == Pending
              && !calls.read.fails && !calls.mark.fails ==>
                store.bets[id].status == StatusOf(VerdictOf(outcome).value)
                && SameTerms(old(store.bets[id]), store.bets[id])
      ensures KeepsBooks(old(store.bets), old(wallet.Model()), store.bets, wallet.Model())
      ensures r.Ok? && r.value.Some? ==> id in store.bets && r.value == Some(store.bets[id])
      ensures r.Ok? ==>
                && VerdictOf(outcome).Some? && id in store.bets
                && store.bets[id].status == StatusOf(VerdictOf(outcome).value)
                && (VerdictOf(outcome) != Some(Loses) ==> store.bets[id].creditTx.Some?)
      ensures r.Ok? && VerdictOf(outcome) != Some(Loses) ==>
                PaidIfConsistent(old(store.bets), old(wallet.Model()), store.bets, wallet.Model(), id)
    {
      if id == "" {
        return Err(BetNotFound);
      }
      var verdict := VerdictOf(outcome);
      if verdict.None? {
        return Err(InvalidOutcome);
      }
      if calls.read.fails {
        SettledIdle(store.bets, wallet.Model(), id, verdict.value, calls);
        return Err(StoreFailed);
      }
      var read := store.GetBet(id);
      if read.None? {
        SettledIdle(store.bets, wallet.Model(), id, verdict.value, calls);
        return Err(BetNotFound);
      }
      var bet := read.value;
      if bet.status != Pending {
        SettledIdle(store.bets, wallet.Model(), id, verdict.value, calls);
        return Err(NotSettleable(bet.status));
      }
      if calls.mark.fails {
        SettledIdle(store.bets, wallet.Model(), id, verdict.value, calls);
        return Err(StoreFailed);
      }
      var error := Conclude(bet, verdict.value, calls);
      assert Reads(outcome, verdict);
      if error.Some? {
        return Err(error.value);
      }
      if calls.reread.fails {
        return Ok(None);
      }
      var final := store.GetBet(bet.id);
      r := Ok(final);
    }
  }
}
