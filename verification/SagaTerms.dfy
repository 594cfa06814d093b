/** What every stored bet says: the terms of an order that was placed, at odds the feed vouched for. */
module SagaTerms {
  import opened Basics
  import opened Bets
  import opened Saga
  import opened SagaInvariant
  import opened SagaTheorems
  import L = Ledger

  // ---- Payouts --------------------------------------------------------------------------------------------------

  ghost predicate PaysByOdds(w: World) {
    forall id | id in w.bets :: w.bets[id].payout == w.bets[id].stake * w.bets[id].odds
  }

  lemma StepPaysByOdds(w: World, a: Action)
    requires PaysByOdds(w)
    ensures PaysByOdds(Step(w, a))
  {
    if a.Advance? && a.pid in w.procs {
      if w.procs[a.pid].Creating? {
        CreatedPaysByOdds(w, a.pid, a.input);
      } else {
        AdvanceKeepsTerms(w, a.pid, a.input);
        TermsPayByOdds(w, Next(w, a.pid, a.input));
      }
    }
  }

  lemma CreatedPaysByOdds(w: World, pid: nat, input: Input)
    requires PaysByOdds(w) && pid in w.procs && w.procs[pid].Creating?
    ensures PaysByOdds(Next(w, pid, input))
  {
  }

  lemma TermsPayByOdds(w: World, w': World)
    requires PaysByOdds(w) && w'.bets.Keys == w.bets.Keys
    requires forall id | id in w.bets :: SameTerms(w.bets[id], w'.bets[id])
    ensures PaysByOdds(w')
  {
    forall id | id in w'.bets ensures w'.bets[id].payout == w'.bets[id].stake * w'.bets[id].odds {
      assert SameTerms(w.bets[id], w'.bets[id]);
    }
  }

  lemma {:induction false} RunPaysByOdds(w: World, actions: seq<Action>)
    requires PaysByOdds(w)
    ensures PaysByOdds(Exec(w, actions))
    decreases |actions|
  {
    if actions != [] {
      StepPaysByOdds(w, actions[0]);
      RunPaysByOdds(Step(w, actions[0]), actions[1..]);
    }
  }

  /** The row under the reference moves this amount in the bettor's wallet. */
  predicate Moved(l: L.Ledger, reference: string, bet: Bet, kind: L.Kind, amount: real) {
    reference in l.byRef && l.byRef[reference] < |l.rows| &&
    var row := l.rows[l.byRef[reference]];
    row.user == bet.user && row.wallet == bet.user + ":" + bet.currency && row.currency == bet.currency
    && row.kind == kind && row.amount == amount && row.reference == reference
  }

  /** Whatever is booked under the bet's references: its stake at its placement, `win` when it is won, its stake when it
      is cancelled. */
  predicate MoneyTold(l: L.Ledger, b: Bet, win: real) {
    && (b.reference in l.byRef ==> Moved(l, b.reference, b, L.Withdrawal, b.stake))
    && ("settle-" + b.reference in l.byRef ==>
          Moved(l, "settle-" + b.reference, b, L.Deposit, win) && b.status == Won)
    && ("cancel-" + b.reference in l.byRef ==>
          Moved(l, "cancel-" + b.reference, b, L.Deposit, b.stake) && b.status == Cancelled)
  }

  lemma MoneyTells(refs: map<string, string>, l: L.Ledger, b: Bet)
    requires BetOk(refs, l, b)
    ensures MoneyTold(l, b, b.payout)
  {
    assert "settle-" + b.reference in l.byRef <==> PaidOut(l, b);
    assert "cancel-" + b.reference in l.byRef <==> Refunded(l, b);
  }

  lemma BooksTell(refs: map<string, string>, w: World, id: string)
    requires Consistent(refs, w) && id in w.bets
    ensures MoneyTold(w.wallet, w.bets[id], w.bets[id].payout)
  {
    assert BetOk(refs, w.wallet, w.bets[id]);
    MoneyTells(refs, w.wallet, w.bets[id]);
  }

  /** After every run each bet pays stake times odds: that is its payout, and the amount of the row booked for a win. */
  lemma WinsPayStakeTimesOdds(refs: map<string, string>, actions: seq<Action>, id: string)
    requires WellChosen(refs) && AllowedAll(refs, START, actions) && id in Exec(START, actions).bets
    ensures PaysStakeTimesOdds(Exec(START, actions), id)
  {
    RunPaysByOdds(START, actions);
    RunKeeps(refs, START, actions);
    var w := Exec(START, actions);
    WinsByOdds(refs, w, id);
    assert PaysStakeTimesOdds(w, id);
  }

  predicate PaysStakeTimesOdds(w: World, id: string)
    requires id in w.bets
  {
    var win := w.bets[id].stake * w.bets[id].odds;
    w.bets[id].payout == win && MoneyTold(w.wallet, w.bets[id], win)
  }

  lemma WinsByOdds(refs: map<string, string>, w: World, id: string)
    requires Consistent(refs, w) && PaysByOdds(w) && id in w.bets
    ensures PaysStakeTimesOdds(w, id)
  {
    BooksTell(refs, w, id);
    var win := w.bets[id].stake * w.bets[id].odds;
    assert w.bets[id].payout == win;
    assert MoneyTold(w.wallet, w.bets[id], win);
  }

  // ---- Where a bet comes from -----------------------------------------------------------------------------------

  lemma {:induction false} OneStepMore(w: World, actions: seq<Action>, n: nat)
    requires n < |actions|
    ensures Exec(w, actions[..n + 1]) == Step(Exec(w, actions[..n]), actions[n])
    decreases n
  {
    if n == 0 {
      assert actions[..1][1..] == [] && actions[..1][0] == actions[0];
    } else {
      OneStepMore(Step(w, actions[0]), actions[1..], n - 1);
      assert actions[..n + 1][1..] == actions[1..][..n] && actions[..n][1..] == actions[1..][..n - 1];
    }
  }

  predicate Opened(actions: seq<Action>, n: nat, pid: nat, order: Order) {
    exists i :: 0 <= i < n <= |actions| && actions[i] == Begin(pid, Checking(order))
  }

  /** A step of the process in which the feed vouched for the odds. */
  predicate Vouched(actions: seq<Action>, n: nat, pid: nat, odds: real) {
    exists i :: 0 <= i < n <= |actions| && actions[i].Advance? && actions[i].pid == pid
                && actions[i].input.odds == Some(odds)
  }

  predicate SameOrder(b: Bet, order: Order) {
    b.user == order.user && b.event == order.event && b.market == order.market && b.outcome == order.outcome
    && b.stake == order.stake && b.currency == order.currency && b.reference == order.reference
  }

  predicate ComesFrom(actions: seq<Action>, n: nat, pid: nat, order: Order, b: Bet) {
    Opened(actions, n, pid, order) && SameOrder(b, order) && Vouched(actions, n, pid, b.odds)
  }

  ghost predicate Origin(actions: seq<Action>, n: nat, b: Bet) {
    exists pid, order :: ComesFrom(actions, n, pid, order, b)
  }

  /** A placement on its way works on an order that was opened, at odds that were vouched for. */
  predicate Honest(actions: seq<Action>, n: nat, pid: nat, proc: Proc) {
    match proc
    case Checking(order) => Opened(actions, n, pid, order)
    case Validating(order) => Opened(actions, n, pid, order)
    case Creating(order, odds) => Opened(actions, n, pid, order) && Vouched(actions, n, pid, odds)
    case _ => true
  }

  ghost predicate Traced(actions: seq<Action>, n: nat, w: World) {
    && (forall p | p in w.procs :: Honest(actions, n, p, w.procs[p]))
    && (forall id | id in w.bets :: Origin(actions, n, w.bets[id]))
  }

  lemma Later(actions: seq<Action>, n: nat, pid: nat, order: Order, odds: real)
    requires n < |actions|
    ensures Opened(actions, n, pid, order) ==> Opened(actions, n + 1, pid, order)
    ensures Vouched(actions, n, pid, odds) ==> Vouched(actions, n + 1, pid, odds)
  {
  }

  lemma HonestLater(actions: seq<Action>, n: nat, pid: nat, proc: Proc)
    requires n < |actions| && Honest(actions, n, pid, proc)
    ensures Honest(actions, n + 1, pid, proc)
  {
  }

  lemma OriginLater(actions: seq<Action>, n: nat, b: Bet, b': Bet)
    requires n < |actions| && Origin(actions, n, b) && SameTerms(b, b')
    ensures Origin(actions, n + 1, b')
  {
    var pid, order :| ComesFrom(actions, n, pid, order, b);
    Later(actions, n, pid, order, b.odds);
    assert ComesFrom(actions, n + 1, pid, order, b');
  }

  /** A process that advances stays honest. */
  lemma AdvancedIsHonest(actions: seq<Action>, n: nat, w: World, pid: nat, input: Input)
    requires n < |actions| && actions[n] == Advance(pid, input) && pid in w.procs
    requires Honest(actions, n, pid, w.procs[pid])
    ensures pid in Next(w, pid, input).procs && Honest(actions, n + 1, pid, Next(w, pid, input).procs[pid])
  {
    HonestLater(actions, n, pid, w.procs[pid]);
  }

  lemma OthersStand(w: World, pid: nat, input: Input)
    requires pid in w.procs
    ensures var w' := Next(w, pid, input);
            w'.procs.Keys == w.procs.Keys && forall p | p in w.procs && p != pid :: w'.procs[p] == w.procs[p]
  {
  }

  lemma CreatedHasOrigin(actions: seq<Action>, n: nat, w: World, pid: nat, input: Input)
    requires n < |actions| && pid in w.procs && w.procs[pid].Creating? && Traced(actions, n, w)
    ensures var bets := Next(w, pid, input).bets; forall id | id in bets :: Origin(actions, n + 1, bets[id])
  {
    var order, odds := w.procs[pid].order, w.procs[pid].odds;
    assert Honest(actions, n, pid, w.procs[pid]);
    Later(actions, n, pid, order, odds);
    var bets := Next(w, pid, input).bets;
    forall id | id in bets ensures Origin(actions, n + 1, bets[id]) {
      if id in w.bets && bets[id] == w.bets[id] {
        OriginLater(actions, n, w.bets[id], bets[id]);
      } else {
        assert ComesFrom(actions, n + 1, pid, order, bets[id]);
      }
    }
  }

  lemma AdvanceTraces(actions: seq<Action>, n: nat, w: World, pid: nat, input: Input)
    requires n < |actions| && actions[n] == Advance(pid, input) && pid in w.procs && Traced(actions, n, w)
    ensures Traced(actions, n + 1, Next(w, pid, input))
  {
    var w' := Next(w, pid, input);
    OthersStand(w, pid, input);
    AdvancedIsHonest(actions, n, w, pid, input);
    forall p | p in w'.procs ensures Honest(actions, n + 1, p, w'.procs[p]) {
      if p != pid { HonestLater(actions, n, p, w.procs[p]); }
    }
    if w.procs[pid].Creating? {
      CreatedHasOrigin(actions, n, w, pid, input);
    } else {
      AdvanceKeepsTerms(w, pid, input);
      forall id | id in w'.bets ensures Origin(actions, n + 1, w'.bets[id]) {
        OriginLater(actions, n, w.bets[id], w'.bets[id]);
      }
    }
  }

  lemma StepTraces(refs: map<string, string>, actions: seq<Action>, n: nat, w: World)
    requires n < |actions| && Traced(actions, n, w) && Allowed(refs, w, actions[n])
    ensures Traced(actions, n + 1, Step(w, actions[n]))
  {
    var w' := Step(w, actions[n]);
    if actions[n].Advance? {
      AdvanceTraces(actions, n, w, actions[n].pid, actions[n].input);
    } else {
      forall p | p in w'.procs ensures Honest(actions, n + 1, p, w'.procs[p]) {
        if p in w.procs && w'.procs[p] == w.procs[p] { HonestLater(actions, n, p, w.procs[p]); }
      }
      forall id | id in w'.bets ensures Origin(actions, n + 1, w'.bets[id]) {
        OriginLater(actions, n, w.bets[id], w'.bets[id]);
      }
    }
  }

  lemma {:induction false} AllowedThere(refs: map<string, string>, w: World, actions: seq<Action>, n: nat)
    requires AllowedAll(refs, w, actions) && n < |actions|
    ensures Allowed(refs, Exec(w, actions[..n]), actions[n])
    decreases n
  {
    if n > 0 {
      AllowedThere(refs, Step(w, actions[0]), actions[1..], n - 1);
      assert actions[..n][1..] == actions[1..][..n - 1] && actions[..n][0] == actions[0];
    }
  }

  lemma {:induction false} RunTraces(refs: map<string, string>, actions: seq<Action>, n: nat)
    requires AllowedAll(refs, START, actions) && n <= |actions|
    ensures Traced(actions, n, Exec(START, actions[..n]))
  {
    if n > 0 {
      var i := n - 1;
      RunTraces(refs, actions, i);
      AllowedThere(refs, START, actions, i);
      StepTraces(refs, actions, i, Exec(START, actions[..i]));
      OneStepMore(START, actions, i);
      assert Traced(actions, i + 1, Exec(START, actions[..i + 1]));
    }
  }

  /** Every stored bet has the terms of an order that was placed, and odds the feed vouched for in that placement. */
  lemma BetsComeFromOrders(refs: map<string, string>, actions: seq<Action>, id: string)
    requires AllowedAll(refs, START, actions) && id in Exec(START, actions).bets
    ensures Origin(actions, |actions|, Exec(START, actions).bets[id])
  {
    RunTraces(refs, actions, |actions|);
    assert actions[..|actions|] == actions;
  }
}
