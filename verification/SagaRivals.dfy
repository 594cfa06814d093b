/** Why settlements of one bet that overlap have to agree, for every two verdicts that do not. */
module SagaRivals {
  import opened Basics
  import opened Bets
  import opened Saga
  import opened SagaInvariant
  import L = Ledger

  /** A call that does not fail. */
  const GO := Input(false, None, "", 0)

  /** Process p is about to mark a pending bet, and q about to read it for another settlement. */
  predicate Rivals(w: World, p: nat, q: nat, first: Verdict, second: Verdict) {
    && p in w.procs && q in w.procs && p != q
    && w.procs[p].Marking? && w.procs[p].verdict == first
    && w.procs[p].bet.id in w.bets && w.bets[w.procs[p].bet.id].status == Pending
    && w.procs[q] == Reading(w.procs[p].bet.id, second)
  }

  lemma NextKeepsProcs(w: World, p: nat, input: Input)
    requires p in w.procs
    ensures p in Next(w, p, input).procs && Next(w, p, input).procs.Keys == w.procs.Keys
  {
  }

  /** The rival reads, then the first settlement writes its status. */
  ghost function Marked(w: World, p: nat, q: nat): (w': World)
    requires p in w.procs && q in w.procs
    ensures w'.procs.Keys == w.procs.Keys
  {
    NextKeepsProcs(w, q, GO);
    NextKeepsProcs(Next(w, q, GO), p, GO);
    Next(Next(w, q, GO), p, GO)
  }

  lemma MarkedWorld(refs: map<string, string>, w: World, p: nat, q: nat, first: Verdict, second: Verdict)
    requires Consistent(refs, w) && Rivals(w, p, q, first, second)
    ensures var bet := w.procs[p].bet;
            var w' := Marked(w, p, q);
            && bet.id in w'.bets && w'.bets[bet.id].status == StatusOf(first) && w'.wallet == w.wallet
            && w'.procs[q] == Marking(w.bets[bet.id], second) && w.bets[bet.id].id == bet.id
            && w'.procs[p] == (if first == Loses then Finished else Crediting(bet, first))
            && SameTerms(bet, w.bets[bet.id])
  {
    assert ProcOk(refs, w, w.procs[p]);
    var read := Next(w, q, GO);
    assert read == Goto(w, q, Marking(w.bets[w.procs[p].bet.id], second));
  }

  /** Whatever two verdicts they have, if they differ the second settlement overwrites the first one's final status. */
  lemma RivalsOverwrite(refs: map<string, string>, w: World, p: nat, q: nat, first: Verdict, second: Verdict)
    requires Consistent(refs, w) && Rivals(w, p, q, first, second)
    ensures var id := w.procs[p].bet.id;
            var marked := Marked(w, p, q);
            var remarked := Next(marked, q, GO);
            && id in marked.bets && id in remarked.bets
            && Terminal(marked.bets[id].status) && marked.bets[id].status == StatusOf(first)
            && remarked.bets[id].status == StatusOf(second)
            && (remarked.bets[id].status != marked.bets[id].status <==> first != second)
  {
    MarkedWorld(refs, w, p, q, first, second);
  }

  // ---- Two credits ----------------------------------------------------------------------------------------------

  /** The credit step of a process, if it has come to one. */
  lemma CreditStep(w: World, p: nat)
    requires p in w.procs && w.procs[p].Crediting?
    ensures var w' := Next(w, p, GO);
            && CreditReference(w.procs[p].bet, w.procs[p].verdict) in w'.wallet.byRef
            && (forall r | r in w.wallet.byRef :: r in w'.wallet.byRef)
            && w'.bets == w.bets && w'.procs.Keys == w.procs.Keys
            && (forall q | q in w.procs && q != p :: w'.procs[q] == w.procs[q])
  {
  }

  lemma MarkStep(w: World, p: nat)
    requires p in w.procs && w.procs[p].Marking? && w.procs[p].verdict != Loses && w.procs[p].bet.id in w.bets
    ensures var w' := Next(w, p, GO);
            p in w'.procs && w'.procs[p] == Crediting(w.procs[p].bet, w.procs[p].verdict) && w'.wallet == w.wallet
  {
  }

  /** The first settlement credits, then the second marks and credits. */
  ghost function BothCredited(w: World, p: nat, q: nat): World
    requires p in w.procs && q in w.procs
  {
    NextKeepsProcs(w, p, GO);
    var paid := Next(w, p, GO);
    NextKeepsProcs(paid, q, GO);
    Next(Next(paid, q, GO), q, GO)
  }

  /** A win and a cancellation, in either order, both credit the bet. */
  lemma RivalsCreditTwice(refs: map<string, string>, w: World, p: nat, q: nat, first: Verdict, second: Verdict)
    requires Consistent(refs, w) && Rivals(w, p, q, first, second)
    requires first != Loses && second != Loses && first != second
    ensures var both := BothCredited(Marked(w, p, q), p, q);
            PaidOut(both.wallet, w.procs[p].bet) && Refunded(both.wallet, w.procs[p].bet)
  {
    MarkedWorld(refs, w, p, q, first, second);
    var marked := Marked(w, p, q);
    CreditStep(marked, p);
    var paid := Next(marked, p, GO);
    assert paid.procs[q] == marked.procs[q];
    MarkStep(paid, q);
    CreditStep(Next(paid, q, GO), q);
  }

  // ---- A run that gets there ------------------------------------------------------------------------------------

  lemma {:induction false} OneMoreAction(refs: map<string, string>, w: World, actions: seq<Action>, a: Action)
    requires AllowedAll(refs, w, actions) && Allowed(refs, Exec(w, actions), a)
    ensures AllowedAll(refs, w, actions + [a]) && Exec(w, actions + [a]) == Step(Exec(w, actions), a)
    decreases |actions|
  {
    if actions == [] {
      assert [] + [a] == [a] && [a][1..] == [];
    } else {
      assert (actions + [a])[0] == actions[0] && (actions + [a])[1..] == actions[1..] + [a];
      OneMoreAction(refs, Step(w, actions[0]), actions[1..], a);
    }
  }

  const REFS := map["r" := "ann"]

  const ORDER := Order("ann", "e", "m", "o", 1.0, "USD", "r")

  /** The stake is deposited and a placement has checked its reference and its odds. */
  lemma ReadyToCreate() returns (actions: seq<Action>)
    ensures AllowedAll(REFS, START, actions)
    ensures var w := Exec(START, actions);
            && w.bets == map[] && w.procs == map[0 := Creating(ORDER, 2.0)] && "r" !in w.wallet.byRef
            && L.WalletKey("ann", "USD") in w.wallet.wallets
            && w.wallet.wallets[L.WalletKey("ann", "USD")].balance == 1.0
  {
    var deposit := External(L.CreditOp("ann", "USD", Number(1.0), "d"));
    actions := [];
    OneMoreAction(REFS, START, actions, deposit);
    actions := actions + [deposit];
    OneMoreAction(REFS, START, actions, Begin(0, Checking(ORDER)));
    actions := actions + [Begin(0, Checking(ORDER))];
    OneMoreAction(REFS, START, actions, Advance(0, GO));
    actions := actions + [Advance(0, GO)];
    assert Exec(START, actions).procs == map[0 := Validating(ORDER)];
    OneMoreAction(REFS, START, actions, Advance(0, Input(false, Some(2.0), "", 0)));
    actions := actions + [Advance(0, Input(false, Some(2.0), "", 0))];
  }

  /** The bet is created and its stake debited. */
  lemma StakeTaken() returns (actions: seq<Action>)
    ensures AllowedAll(REFS, START, actions)
    ensures var w := Exec(START, actions);
            && 0 in w.procs && w.procs == map[0 := w.procs[0]] && w.procs[0].Finalising? && w.procs[0].id == "b"
            && "b" in w.bets && w.bets["b"].id == "b" && w.bets["b"].status == DebitPending
            && Debited(w.wallet, w.bets["b"])
  {
    actions := ReadyToCreate();
    var create := Advance(0, Input(false, None, "b", 0));
    OneMoreAction(REFS, START, actions, create);
    actions := actions + [create];
    var created := Exec(START, actions);
    assert created.procs == map[0 := Debiting(ORDER, "b")] && created.bets["b"].id == "b";
    OneMoreAction(REFS, START, actions, Advance(0, GO));
    actions := actions + [Advance(0, GO)];
  }

  /** The bet is placed. */
  lemma OnePending() returns (actions: seq<Action>)
    ensures AllowedAll(REFS, START, actions)
    ensures var w := Exec(START, actions);
            && w.procs == map[0 := Finished] && "b" in w.bets && w.bets["b"].id == "b" && w.bets["b"].status == Pending
  {
    actions := StakeTaken();
    OneMoreAction(REFS, START, actions, Advance(0, GO));
    actions := actions + [Advance(0, GO)];
  }

  lemma BothReading(first: Verdict, second: Verdict) returns (actions: seq<Action>)
    ensures AllowedAll(REFS, START, actions)
    ensures var w := Exec(START, actions);
            && w.procs == map[0 := Finished, 1 := Reading("b", first), 2 := Reading("b", second)]
            && "b" in w.bets && w.bets["b"].id == "b" && w.bets["b"].status == Pending
  {
    actions := OnePending();
    OneMoreAction(REFS, START, actions, Begin(1, Reading("b", first)));
    actions := actions + [Begin(1, Reading("b", first))];
    OneMoreAction(REFS, START, actions, Begin(2, Reading("b", second)));
    actions := actions + [Begin(2, Reading("b", second))];
  }

  lemma ReadStep(w: World, first: Verdict, second: Verdict)
    requires w.procs == map[0 := Finished, 1 := Reading("b", first), 2 := Reading("b", second)]
    requires "b" in w.bets && w.bets["b"].id == "b" && w.bets["b"].status == Pending
    ensures Allowed(REFS, w, Advance(1, GO)) && Rivals(Step(w, Advance(1, GO)), 1, 2, first, second)
  {
  }

  /** From empty stores, for any two verdicts, a run of allowed steps comes to where the two settlements are rivals. */
  lemma RivalsAreReachable(first: Verdict, second: Verdict) returns (actions: seq<Action>)
    ensures AllowedAll(REFS, START, actions) && Rivals(Exec(START, actions), 1, 2, first, second)
  {
    actions := BothReading(first, second);
    ReadStep(Exec(START, actions), first, second);
    OneMoreAction(REFS, START, actions, Advance(1, GO));
    actions := actions + [Advance(1, GO)];
  }

  /** So for every two verdicts that differ there is a run from empty stores after which an overlapping read lets the
      second settlement change a status that was final. */
  lemma AgreementIsNeeded(first: Verdict, second: Verdict) returns (actions: seq<Action>)
    requires first != second
    ensures AllowedAll(REFS, START, actions) && Rivals(Exec(START, actions), 1, 2, first, second)
    ensures var w := Exec(START, actions);
            var marked := Marked(w, 1, 2);
            var remarked := Next(marked, 2, GO);
            var id := w.procs[1].bet.id;
            && id in marked.bets && id in remarked.bets
            && Terminal(marked.bets[id].status) && remarked.bets[id].status != marked.bets[id].status
  {
    actions := RivalsAreReachable(first, second);
    RunKeeps(REFS, START, actions);
    RivalsOverwrite(REFS, Exec(START, actions), 1, 2, first, second);
  }
}
