/**
  Bets the service loses hold of: a settled bet whose credit failed, and a debited bet whose last write failed.
  For each, exactly when some later run still moves it, and a run from empty stores after which none does.
*/
module SagaStuck {
  import opened Basics
  import opened Bets
  import opened Saga
  import opened SagaInvariant
  import opened SagaTheorems
  import opened SagaRivals
  import L = Ledger

  // ---- A credit that failed is not made good --------------------------------------------------------------------

  predicate Settles(proc: Proc, id: string) {
    (proc.Marking? || proc.Crediting?) && proc.bet.id == id
  }

  ghost predicate NobodySettles(w: World, id: string) {
    forall p | p in w.procs :: !Settles(w.procs[p], id)
  }

  /** The bet has its final status, nothing is credited for it, and no settlement of it is under way. */
  ghost predicate Unpaid(w: World, id: string) {
    && id in w.bets && Terminal(w.bets[id].status) && NobodySettles(w, id)
    && !PaidOut(w.wallet, w.bets[id]) && !Refunded(w.wallet, w.bets[id])
  }

  lemma NobodyStartsToSettle(refs: map<string, string>, w: World, a: Action, id: string)
    requires Consistent(refs, w) && Allowed(refs, w, a)
    requires id in w.bets && Terminal(w.bets[id].status) && NobodySettles(w, id)
    ensures NobodySettles(Step(w, a), id)
  {
    if a.Advance? {
      assert !Settles(w.procs[a.pid], id);
      AdvancedSettles(w, a.pid, a.input, id);
      var proc := w.procs[a.pid];
      assert proc.Reading? && proc.id in w.bets ==> w.bets[proc.id].id == proc.id;
    }
  }

  /** Only reading the pending bet starts a settlement of it. */
  lemma AdvancedSettles(w: World, pid: nat, input: Input, id: string)
    requires pid in w.procs && !Settles(w.procs[pid], id)
    ensures var w' := Next(w, pid, input);
            && w'.procs.Keys == w.procs.Keys && (forall p | p in w.procs && p != pid :: w'.procs[p] == w.procs[p])
            && (Settles(w'.procs[pid], id) ==>
                  w.procs[pid].Reading? && w.procs[pid].id in w.bets && w.bets[w.procs[pid].id].status == Pending
                  && w.bets[w.procs[pid].id].id == id)
  {
    OthersGoNowhere(w, pid, input);
  }

  lemma OthersGoNowhere(w: World, pid: nat, input: Input)
    requires pid in w.procs
    ensures var w' := Next(w, pid, input);
            w'.procs.Keys == w.procs.Keys && forall p | p in w.procs && p != pid :: w'.procs[p] == w.procs[p]
  {
  }

  /** A reference that can only be recorded by settling the bet stays unrecorded. */
  lemma CreditsStayUnrecorded(refs: map<string, string>, w: World, w': World, r: string, id: string)
    requires Grows(w.wallet, w'.wallet, r) && id in w.bets && id in w'.bets
    requires w'.bets[id].reference == w.bets[id].reference
    requires r != WinReference(w.bets[id].reference) && r != RefundReference(w.bets[id].reference)
    requires !PaidOut(w.wallet, w.bets[id]) && !Refunded(w.wallet, w.bets[id])
    ensures !PaidOut(w'.wallet, w'.bets[id]) && !Refunded(w'.wallet, w'.bets[id])
  {
  }

  /** The wallet reference a process writes next belongs to the bet it works on, as its stake or as its credit. */
  lemma PaymentOfOthers(refs: map<string, string>, w: World, pid: nat, id: string)
    requires WellChosen(refs) && BetsOk(refs, w) && OneBetPerReference(w) && pid in w.procs
    requires ProcOk(refs, w, w.procs[pid]) && id in w.bets && !Settles(w.procs[pid], id)
    requires w.procs[pid].Debiting? || w.procs[pid].Crediting?
    ensures var r := ReferenceOf(PaymentOf(w.procs[pid]));
            r != WinReference(w.bets[id].reference) && r != RefundReference(w.bets[id].reference)
  {
    var proc := w.procs[pid];
    var mine := if proc.Debiting? then proc.id else proc.bet.id;
    assert BetOk(refs, w.wallet, w.bets[id]) && BetOk(refs, w.wallet, w.bets[mine]);
    ReferencesDiffer(refs, w.bets[mine].reference, w.bets[id].reference);
    ReferencesDiffer(refs, w.bets[id].reference, w.bets[mine].reference);
  }

  lemma UnpaidStaysStep(refs: map<string, string>, w: World, a: Action, id: string)
    requires Consistent(refs, w) && Allowed(refs, w, a) && Unpaid(w, id)
    ensures Unpaid(Step(w, a), id)
  {
    NobodyStartsToSettle(refs, w, a, id);
    TerminalStaysStep(refs, w, a, id);
    match a
    case Begin(_, _) =>
    case External(op) =>
      ApplyGrows(w.wallet, op);
      ForeignToBet(refs, w, ReferenceOf(op), id);
      CreditsStayUnrecorded(refs, w, Step(w, a), ReferenceOf(op), id);
    case Advance(pid, input) => UnpaidStaysNext(refs, w, pid, input, id);
  }

  lemma UnpaidStaysNext(refs: map<string, string>, w: World, pid: nat, input: Input, id: string)
    requires Consistent(refs, w) && pid in w.procs && Unpaid(w, id) && KeepsStatus(w, Next(w, pid, input), id)
    ensures var w' := Next(w, pid, input); !PaidOut(w'.wallet, w'.bets[id]) && !Refunded(w'.wallet, w'.bets[id])
  {
    var w' := Next(w, pid, input);
    if w'.wallet != w.wallet {
      assert ProcOk(refs, w, w.procs[pid]) && !Settles(w.procs[pid], id);
      WhoMovesMoney(refs, w, pid, input);
      PaymentOfOthers(refs, w, pid, id);
      ApplyGrows(w.wallet, PaymentOf(w.procs[pid]));
      CreditsStayUnrecorded(refs, w, w', ReferenceOf(PaymentOf(w.procs[pid])), id);
    }
  }

  /** A settlement reads pending bets only, so such a bet is never credited, whatever is tried later. */
  lemma {:induction false} UnpaidStaysUnpaid(refs: map<string, string>, w: World, actions: seq<Action>, id: string)
    requires Consistent(refs, w) && AllowedAll(refs, w, actions) && Unpaid(w, id)
    ensures Unpaid(Exec(w, actions), id)
    decreases |actions|
  {
    if actions != [] {
      UnpaidStaysStep(refs, w, actions[0], id);
      StepKeeps(refs, w, actions[0]);
      UnpaidStaysUnpaid(refs, Step(w, actions[0]), actions[1..], id);
    }
  }

  /** When the credit of a bet marked won or cancelled fails and no other settlement of the bet is under way, no later
      run pays it: no retry comes through the service. */
  lemma FailedCreditIsNeverPaid(refs: map<string, string>, w: World, pid: nat, input: Input, later: seq<Action>)
    requires Consistent(refs, w) && pid in w.procs && w.procs[pid].Crediting? && input.fails
    requires var bet := w.procs[pid].bet;
             && !PaidOut(w.wallet, bet) && !Refunded(w.wallet, bet)
             && forall p | p in w.procs && p != pid :: !Settles(w.procs[p], bet.id)
    requires AllowedAll(refs, Step(w, Advance(pid, input)), later)
    ensures Unpaid(Exec(Step(w, Advance(pid, input)), later), w.procs[pid].bet.id)
  {
    var id := w.procs[pid].bet.id;
    assert ProcOk(refs, w, w.procs[pid]);
    var failed := Step(w, Advance(pid, input));
    assert failed == Goto(w, pid, Finished) && Terminal(w.bets[id].status);
    assert SameTerms(w.procs[pid].bet, w.bets[id]);
    StepKeeps(refs, w, Advance(pid, input));
    UnpaidStaysUnpaid(refs, failed, later, id);
  }

  // ---- Exactly when a settled bet is still paid -----------------------------------------------------------------

  /** A settlement that has read the bet and will pay it. */
  predicate Pays(proc: Proc, id: string) {
    Settles(proc, id) && proc.verdict != Loses
  }

  ghost predicate Paid(w: World, id: string) {
    id in w.bets && (PaidOut(w.wallet, w.bets[id]) || Refunded(w.wallet, w.bets[id]))
  }

  /** Some run of the service and its surroundings ends with the bet paid. */
  ghost predicate CanBePaid(refs: map<string, string>, w: World, id: string) {
    exists later: seq<Action> :: AllowedAll(refs, w, later) && Paid(Exec(w, later), id)
  }

  lemma {:induction false} RunKeepsTerms(refs: map<string, string>, w: World, actions: seq<Action>, id: string)
    requires Consistent(refs, w) && AllowedAll(refs, w, actions) && id in w.bets && Terminal(w.bets[id].status)
    ensures Consistent(refs, Exec(w, actions)) && KeepsStatus(w, Exec(w, actions), id)
    decreases |actions|
  {
    if actions != [] {
      TerminalStaysStep(refs, w, actions[0], id);
      StepKeeps(refs, w, actions[0]);
      RunKeepsTerms(refs, Step(w, actions[0]), actions[1..], id);
    }
  }

  /** A process about to credit pays its bet with its next call, if that works. */
  lemma CreditingPays(refs: map<string, string>, w: World, p: nat)
    requires Consistent(refs, w) && p in w.procs && w.procs[p].Crediting?
    ensures CanBePaid(refs, w, w.procs[p].bet.id)
  {
    OneStep(refs, w, Advance(p, GO));
    CreditPays(refs, w, p);
    assert Paid(Exec(w, [Advance(p, GO)]), w.procs[p].bet.id);
  }

  lemma CreditPays(refs: map<string, string>, w: World, p: nat)
    requires p in w.procs && ProcOk(refs, w, w.procs[p]) && w.procs[p].Crediting?
    ensures Paid(Next(w, p, GO), w.procs[p].bet.id)
  {
    CreditStep(w, p);
    assert SameTerms(w.procs[p].bet, w.bets[w.procs[p].bet.id]);
  }

  lemma OneStep(refs: map<string, string>, w: World, a: Action)
    requires Allowed(refs, w, a)
    ensures AllowedAll(refs, w, [a]) && Exec(w, [a]) == Step(w, a)
  {
    OneActionFirst(refs, w, a, []);
    assert [a] + [] == [a];
  }

  lemma MarkingPays(refs: map<string, string>, w: World, p: nat)
    requires Consistent(refs, w) && p in w.procs && w.procs[p].Marking? && w.procs[p].verdict != Loses
    ensures CanBePaid(refs, w, w.procs[p].bet.id)
  {
    assert ProcOk(refs, w, w.procs[p]);
    MarkStep(w, p);
    StepKeeps(refs, w, Advance(p, GO));
    CreditingPays(refs, Next(w, p, GO), p);
    PaidOneStepLater(refs, w, Advance(p, GO), w.procs[p].bet.id);
  }

  lemma PaidOneStepLater(refs: map<string, string>, w: World, a: Action, id: string)
    requires Allowed(refs, w, a) && CanBePaid(refs, Step(w, a), id)
    ensures CanBePaid(refs, w, id)
  {
    var later: seq<Action> :| AllowedAll(refs, Step(w, a), later) && Paid(Exec(Step(w, a), later), id);
    OneActionFirst(refs, w, a, later);
  }

  lemma OneActionFirst(refs: map<string, string>, w: World, a: Action, later: seq<Action>)
    requires Allowed(refs, w, a) && AllowedAll(refs, Step(w, a), later)
    ensures AllowedAll(refs, w, [a] + later) && Exec(w, [a] + later) == Exec(Step(w, a), later)
  {
    assert ([a] + later)[1..] == later;
  }

  /** A bet with its final status that nothing is credited for can still be paid if and only if a settlement that
      found it won or cancelled is already past its read. Starting another one does not help. */
  lemma PaidLaterExactly(refs: map<string, string>, w: World, id: string)
    requires Consistent(refs, w) && id in w.bets && Terminal(w.bets[id].status) && !Paid(w, id)
    ensures CanBePaid(refs, w, id) <==> exists p :: p in w.procs && Pays(w.procs[p], id)
  {
    if p :| p in w.procs && Pays(w.procs[p], id) {
      if w.procs[p].Crediting? { CreditingPays(refs, w, p); } else { MarkingPays(refs, w, p); }
    } else {
      forall later: seq<Action> | AllowedAll(refs, w, later) ensures !Paid(Exec(w, later), id) {
        NeverPaid(refs, w, later, id);
      }
    }
  }

  lemma NeverPaid(refs: map<string, string>, w: World, later: seq<Action>, id: string)
    requires Consistent(refs, w) && id in w.bets && Terminal(w.bets[id].status) && !Paid(w, id)
    requires AllowedAll(refs, w, later) && forall p | p in w.procs :: !Pays(w.procs[p], id)
    ensures !Paid(Exec(w, later), id)
  {
    if w.bets[id].status == Lost {
      RunKeepsTerms(refs, w, later, id);
      assert BetOk(refs, Exec(w, later).wallet, Exec(w, later).bets[id]);
    } else {
      forall p | p in w.procs ensures !Settles(w.procs[p], id) { SettlingPays(refs, w, w.procs[p], id); }
      UnpaidStaysUnpaid(refs, w, later, id);
    }
  }

  /** So after a failed credit the bet can be paid if and only if another settlement of it is past its read. */
  lemma FailedCreditPaidExactly(refs: map<string, string>, w: World, pid: nat, input: Input)
    requires Consistent(refs, w) && pid in w.procs && w.procs[pid].Crediting? && input.fails
    requires !Paid(w, w.procs[pid].bet.id)
    ensures CanBePaid(refs, Step(w, Advance(pid, input)), w.procs[pid].bet.id)
            <==> exists p :: p in w.procs && p != pid && Settles(w.procs[p], w.procs[pid].bet.id)
  {
    var id := w.procs[pid].bet.id;
    CreditFails(refs, w, pid, input);
    StepKeeps(refs, w, Advance(pid, input));
    PaidLaterExactly(refs, Goto(w, pid, Finished), id);
    OthersSettle(refs, w, pid, id);
  }

  lemma OthersSettle(refs: map<string, string>, w: World, pid: nat, id: string)
    requires ProcsOk(refs, w) && id in w.bets && (w.bets[id].status == Won || w.bets[id].status == Cancelled)
    ensures var procs := Goto(w, pid, Finished).procs;
            (exists p :: p in procs && Pays(procs[p], id))
            <==> exists p :: p in w.procs && p != pid && Settles(w.procs[p], id)
  {
    var procs := Goto(w, pid, Finished).procs;
    forall p | p in w.procs && p != pid ensures Settles(w.procs[p], id) <==> Pays(procs[p], id) {
      assert ProcOk(refs, w, w.procs[p]);
      SettlingPays(refs, w, w.procs[p], id);
    }
    if p :| p in w.procs && p != pid && Settles(w.procs[p], id) { assert p in procs && Pays(procs[p], id); }
    if p :| p in procs && Pays(procs[p], id) { assert p in w.procs && p != pid && Settles(w.procs[p], id); }
  }

  lemma CreditFails(refs: map<string, string>, w: World, pid: nat, input: Input)
    requires pid in w.procs && ProcOk(refs, w, w.procs[pid]) && w.procs[pid].Crediting? && input.fails
    ensures Step(w, Advance(pid, input)) == Goto(w, pid, Finished)
    ensures w.procs[pid].bet.id in w.bets
    ensures w.bets[w.procs[pid].bet.id].status == Won || w.bets[w.procs[pid].bet.id].status == Cancelled
  {
  }

  /** Settlements of a bet found won or cancelled pay it. */
  lemma SettlingPays(refs: map<string, string>, w: World, proc: Proc, id: string)
    requires ProcOk(refs, w, proc) && id in w.bets && (w.bets[id].status == Won || w.bets[id].status == Cancelled)
    ensures Settles(proc, id) <==> Pays(proc, id)
  {
  }

  // ---- A run after which a bet is never paid --------------------------------------------------------------------

  const DOWN := Input(true, None, "", 0)

  lemma OneReading(verdict: Verdict) returns (actions: seq<Action>)
    ensures AllowedAll(REFS, START, actions)
    ensures var w := Exec(START, actions);
            && w.procs == map[0 := Finished, 1 := Reading("b", verdict)]
            && "b" in w.bets && w.bets["b"].id == "b" && w.bets["b"].status == Pending
  {
    actions := OnePending();
    OneMoreAction(REFS, START, actions, Begin(1, Reading("b", verdict)));
    actions := actions + [Begin(1, Reading("b", verdict))];
  }

  lemma OneCrediting(verdict: Verdict) returns (actions: seq<Action>)
    requires verdict != Loses
    ensures AllowedAll(REFS, START, actions) && CreditingOnly(Exec(START, actions), verdict)
  {
    actions := OneReading(verdict);
    RunKeeps(REFS, START, actions);
    var w := Exec(START, actions);
    PendingIsUnpaid(REFS, w, "b");
    ReadIt(w, verdict);
    OneMoreAction(REFS, START, actions, Advance(1, GO));
    MarkIt(Next(w, 1, GO), verdict);
    OneMoreAction(REFS, START, actions + [Advance(1, GO)], Advance(1, GO));
    actions := actions + [Advance(1, GO)] + [Advance(1, GO)];
  }

  /** One settlement is about to credit the bet, and no other process is left. */
  ghost predicate CreditingOnly(w: World, verdict: Verdict) {
    && w.procs.Keys == {0, 1} && w.procs[0] == Finished && w.procs[1].Crediting? && w.procs[1].bet.id == "b"
    && "b" in w.bets && w.bets["b"].status == StatusOf(verdict) && !Paid(w, "b")
  }

  lemma PendingIsUnpaid(refs: map<string, string>, w: World, id: string)
    requires Consistent(refs, w) && id in w.bets && w.bets[id].status == Pending
    ensures !Paid(w, id)
  {
    assert BetOk(refs, w.wallet, w.bets[id]);
  }

  lemma ReadIt(w: World, verdict: Verdict)
    requires w.procs == map[0 := Finished, 1 := Reading("b", verdict)]
    requires "b" in w.bets && w.bets["b"].status == Pending
    ensures Allowed(REFS, w, Advance(1, GO))
    ensures Next(w, 1, GO) == w.(procs := map[0 := Finished, 1 := Marking(w.bets["b"], verdict)])
  {
  }

  lemma MarkIt(w: World, verdict: Verdict)
    requires verdict != Loses && "b" in w.bets && w.bets["b"].id == "b" && !Paid(w, "b")
    requires w.procs == map[0 := Finished, 1 := Marking(w.bets["b"], verdict)]
    ensures Allowed(REFS, w, Advance(1, GO)) && CreditingOnly(Next(w, 1, GO), verdict)
  {
  }

  /** From empty stores, a win or a cancellation whose credit fails leaves a bet that no later run pays. */
  lemma CreditsCanBeLost(verdict: Verdict) returns (actions: seq<Action>)
    requires verdict != Loses
    ensures AllowedAll(REFS, START, actions)
    ensures var w := Exec(START, actions);
            && Unpaid(w, "b") && w.bets["b"].status == StatusOf(verdict) && Debited(w.wallet, w.bets["b"])
            && !CanBePaid(REFS, w, "b")
  {
    actions := OneCrediting(verdict);
    RunKeeps(REFS, START, actions);
    var w := Exec(START, actions);
    CreditDown(REFS, w, verdict);
    OneMoreAction(REFS, START, actions, Advance(1, DOWN));
    actions := actions + [Advance(1, DOWN)];
  }

  lemma CreditDown(refs: map<string, string>, w: World, verdict: Verdict)
    requires Consistent(refs, w) && CreditingOnly(w, verdict)
    ensures var w' := Step(w, Advance(1, DOWN));
            && Unpaid(w', "b") && w'.bets["b"].status == StatusOf(verdict) && Debited(w'.wallet, w'.bets["b"])
            && !CanBePaid(refs, w', "b")
  {
    assert ProcOk(refs, w, w.procs[1]);
    CreditFails(refs, w, 1, DOWN);
    FailedCreditPaidExactly(refs, w, 1, DOWN);
  }

  // ---- A stake taken for a bet that is never placed -------------------------------------------------------------

  ghost predicate NobodyPlaces(w: World, id: string) {
    forall p | p in w.procs :: Places(w.procs[p]) != Some(id)
  }

  /** The bet waits for its debit, and the placement that would write the outcome is gone. */
  ghost predicate Abandoned(w: World, id: string) {
    id in w.bets && w.bets[id].status == DebitPending && NobodyPlaces(w, id)
  }

  /** Only its own placement writes a bet that waits for its debit, and no other process becomes that placement. */
  lemma OthersLeaveIt(refs: map<string, string>, w: World, pid: nat, input: Input, id: string)
    requires pid in w.procs && ProcOk(refs, w, w.procs[pid]) && BetsOk(refs, w)
    requires id in w.bets && w.bets[id].status == DebitPending && Places(w.procs[pid]) != Some(id)
    requires w.procs[pid].Creating? ==> input.id !in w.bets
    ensures var w' := Next(w, pid, input);
            && id in w'.bets && w'.bets[id] == w.bets[id] && w'.procs.Keys == w.procs.Keys
            && Places(w'.procs[pid]) != Some(id) && forall p | p in w.procs && p != pid :: w'.procs[p] == w.procs[p]
  {
    OtherPlacementsStay(w, pid, input, id);
    OtherWrites(refs, w, pid, input, id);
  }

  lemma OtherPlacementsStay(w: World, pid: nat, input: Input, id: string)
    requires pid in w.procs && Places(w.procs[pid]) != Some(id)
    requires w.procs[pid].Creating? ==> input.id != id
    ensures var w' := Next(w, pid, input);
            && w'.procs.Keys == w.procs.Keys && Places(w'.procs[pid]) != Some(id)
            && forall p | p in w.procs && p != pid :: w'.procs[p] == w.procs[p]
  {
  }

  lemma OtherWrites(refs: map<string, string>, w: World, pid: nat, input: Input, id: string)
    requires pid in w.procs && ProcOk(refs, w, w.procs[pid]) && BetsOk(refs, w)
    requires id in w.bets && w.bets[id].status == DebitPending && Places(w.procs[pid]) != Some(id)
    requires w.procs[pid].Creating? ==> input.id !in w.bets
    ensures var w' := Next(w, pid, input); id in w'.bets && w'.bets[id] == w.bets[id]
  {
    var proc := w.procs[pid];
    if proc.Marking? || proc.Recording? {
      assert (if proc.Marking? then proc.bet.id else proc.id) != id;
      SettlementWrites(w, pid, input, id);
    } else {
      PlacementWrites(w, pid, input, id);
    }
  }

  lemma SettlementWrites(w: World, pid: nat, input: Input, id: string)
    requires pid in w.procs && id in w.bets
    requires (w.procs[pid].Marking? && w.procs[pid].bet.id != id) || (w.procs[pid].Recording? && w.procs[pid].id != id)
    ensures var w' := Next(w, pid, input); id in w'.bets && w'.bets[id] == w.bets[id]
  {
  }

  lemma PlacementWrites(w: World, pid: nat, input: Input, id: string)
    requires pid in w.procs && id in w.bets && Places(w.procs[pid]) != Some(id)
    requires !w.procs[pid].Marking? && !w.procs[pid].Recording? && (w.procs[pid].Creating? ==> input.id !in w.bets)
    ensures var w' := Next(w, pid, input); id in w'.bets && w'.bets[id] == w.bets[id]
  {
  }

  lemma AbandonedStaysStep(refs: map<string, string>, w: World, a: Action, id: string)
    requires Consistent(refs, w) && Allowed(refs, w, a) && Abandoned(w, id)
    ensures Abandoned(Step(w, a), id) && Step(w, a).bets[id] == w.bets[id]
  {
    if a.Advance? {
      assert ProcOk(refs, w, w.procs[a.pid]);
      OthersLeaveIt(refs, w, a.pid, a.input, id);
    }
  }

  lemma {:induction false} AbandonedStays(refs: map<string, string>, w: World, actions: seq<Action>, id: string)
    requires Consistent(refs, w) && AllowedAll(refs, w, actions) && Abandoned(w, id)
    ensures Abandoned(Exec(w, actions), id) && Exec(w, actions).bets[id] == w.bets[id]
    decreases |actions|
  {
    if actions != [] {
      AbandonedStaysStep(refs, w, actions[0], id);
      StepKeeps(refs, w, actions[0]);
      AbandonedStays(refs, Step(w, actions[0]), actions[1..], id);
    }
  }

  /** Some run takes the bet out of waiting for its debit. */
  ghost predicate CanMoveOn(refs: map<string, string>, w: World, id: string) {
    exists later: seq<Action> ::
      AllowedAll(refs, w, later) && id in Exec(w, later).bets && Exec(w, later).bets[id].status != DebitPending
  }

  lemma PlacementEnds(refs: map<string, string>, w: World, p: nat)
    requires Consistent(refs, w) && p in w.procs && (w.procs[p].Cancelling? || w.procs[p].Finalising?)
    ensures CanMoveOn(refs, w, w.procs[p].id)
  {
    assert ProcOk(refs, w, w.procs[p]);
    OneStep(refs, w, Advance(p, GO));
    PlacementWrite(w, p);
    var later := [Advance(p, GO)];
    assert AllowedAll(refs, w, later);
  }

  lemma PlacementWrite(w: World, p: nat)
    requires p in w.procs && (w.procs[p].Cancelling? || w.procs[p].Finalising?) && w.procs[p].id in w.bets
    ensures w.procs[p].id in Next(w, p, GO).bets
    ensures Next(w, p, GO).bets[w.procs[p].id].status != DebitPending
  {
  }

  lemma PlacementMovesOn(refs: map<string, string>, w: World, p: nat, id: string)
    requires Consistent(refs, w) && p in w.procs && Places(w.procs[p]) == Some(id)
    ensures CanMoveOn(refs, w, id)
  {
    if w.procs[p].Debiting? {
      var failed := Goto(w, p, Cancelling(id));
      StepKeeps(refs, w, Advance(p, DOWN));
      PlacementEnds(refs, failed, p);
      var later: seq<Action> :| AllowedAll(refs, failed, later) && id in Exec(failed, later).bets
                                && Exec(failed, later).bets[id].status != DebitPending;
      OneActionFirst(refs, w, Advance(p, DOWN), later);
    } else {
      PlacementEnds(refs, w, p);
    }
  }

  /** A bet that waits for its debit ever gets another status if and only if its placement is still under way. */
  lemma MovesOnExactly(refs: map<string, string>, w: World, id: string)
    requires Consistent(refs, w) && id in w.bets && w.bets[id].status == DebitPending
    ensures CanMoveOn(refs, w, id) <==> exists p :: p in w.procs && Places(w.procs[p]) == Some(id)
  {
    if p :| p in w.procs && Places(w.procs[p]) == Some(id) {
      PlacementMovesOn(refs, w, p, id);
    } else {
      forall later: seq<Action> | AllowedAll(refs, w, later)
        ensures id in Exec(w, later).bets && Exec(w, later).bets[id].status == DebitPending
      {
        AbandonedStays(refs, w, later, id);
      }
    }
  }

  /** From empty stores, a placement whose last write fails leaves a bet that has lost its stake for good: whatever
      runs later, it waits for a debit that is booked, and nothing is credited for it. */
  lemma StakesCanBeLost() returns (actions: seq<Action>)
    ensures AllowedAll(REFS, START, actions) && Abandoned(Exec(START, actions), "b")
    ensures forall later: seq<Action> | AllowedAll(REFS, Exec(START, actions), later) ::
              LostItsStake(Exec(Exec(START, actions), later), "b")
  {
    actions := StakeTaken();
    OneMoreAction(REFS, START, actions, Advance(0, DOWN));
    actions := actions + [Advance(0, DOWN)];
    RunKeeps(REFS, START, actions);
    StakeIsLostForGood(REFS, Exec(START, actions), "b");
  }

  lemma StakeIsLostForGood(refs: map<string, string>, w: World, id: string)
    requires Consistent(refs, w) && Abandoned(w, id) && Debited(w.wallet, w.bets[id])
    ensures forall later: seq<Action> | AllowedAll(refs, w, later) :: LostItsStake(Exec(w, later), id)
  {
    forall later: seq<Action> | AllowedAll(refs, w, later) ensures LostItsStake(Exec(w, later), id) {
      StakeStaysLost(refs, w, later, id);
    }
  }

  ghost predicate LostItsStake(w: World, id: string) {
    && id in w.bets && w.bets[id].status == DebitPending
    && Debited(w.wallet, w.bets[id]) && !PaidOut(w.wallet, w.bets[id]) && !Refunded(w.wallet, w.bets[id])
  }

  /** An abandoned bet whose stake was debited stays debited, waiting and unpaid. */
  lemma {:induction false} StakeStaysLost(refs: map<string, string>, w: World, actions: seq<Action>, id: string)
    requires Consistent(refs, w) && AllowedAll(refs, w, actions) && Abandoned(w, id) && Debited(w.wallet, w.bets[id])
    ensures LostItsStake(Exec(w, actions), id)
    decreases |actions|
  {
    if actions == [] {
      assert BetOk(refs, w.wallet, w.bets[id]);
    } else {
      AbandonedStaysStep(refs, w, actions[0], id);
      StepKeepsReferences(refs, w, actions[0], w.bets[id].reference);
      StepKeeps(refs, w, actions[0]);
      StakeStaysLost(refs, Step(w, actions[0]), actions[1..], id);
    }
  }

  lemma StepKeepsReferences(refs: map<string, string>, w: World, a: Action, r: string)
    requires Consistent(refs, w) && Allowed(refs, w, a) && r in w.wallet.byRef
    ensures r in Step(w, a).wallet.byRef
  {
    match a
    case Begin(_, _) =>
    case External(op) => ApplyGrows(w.wallet, op);
    case Advance(pid, input) =>
      assert ProcOk(refs, w, w.procs[pid]);
      if Next(w, pid, input).wallet != w.wallet {
        WhoMovesMoney(refs, w, pid, input);
        ApplyGrows(w.wallet, PaymentOf(w.procs[pid]));
      }
  }
}
