/** What every interleaving of placements, settlements and other wallet traffic keeps. */
module SagaInvariant {
  import opened Basics
  import opened Bets
  import opened Saga
  import L = Ledger
  import opened LedgerInvariant

  // ---- Bets against the ledger ------------------------------------------------------------------------------

  /** The ledger row booked under a reference is this movement of this bet's money. */
  predicate BookedFor(l: L.Ledger, reference: string, bet: Bet, kind: L.Kind, amount: real) {
    reference in l.byRef && l.byRef[reference] < |l.rows| &&
    var row := l.rows[l.byRef[reference]];
    row.user == bet.user && row.wallet == L.WalletKey(bet.user, bet.currency) && row.currency == bet.currency
    && row.kind == kind && row.amount == amount && row.reference == reference
  }

  predicate Debited(l: L.Ledger, bet: Bet) { bet.reference in l.byRef }

  predicate PaidOut(l: L.Ledger, bet: Bet) { WinReference(bet.reference) in l.byRef }

  predicate Refunded(l: L.Ledger, bet: Bet) { RefundReference(bet.reference) in l.byRef }

  /** Whatever is booked under a bet's references is its stake, its payout and its refund. */
  predicate MoneyMatches(l: L.Ledger, bet: Bet) {
    && (Debited(l, bet) ==> BookedFor(l, bet.reference, bet, L.Withdrawal, bet.stake))
    && (PaidOut(l, bet) ==> BookedFor(l, WinReference(bet.reference), bet, L.Deposit, bet.payout))
    && (Refunded(l, bet) ==> BookedFor(l, RefundReference(bet.reference), bet, L.Deposit, bet.stake))
  }

  /** The movements a status permits. */
  predicate StatusPermits(l: L.Ledger, bet: Bet) {
    match bet.status
    case DebitPending => !PaidOut(l, bet) && !Refunded(l, bet)
    case Pending => Debited(l, bet) && !PaidOut(l, bet) && !Refunded(l, bet)
    case Won => Debited(l, bet) && !Refunded(l, bet)
    case Lost => Debited(l, bet) && !PaidOut(l, bet) && !Refunded(l, bet)
    case Cancelled => !PaidOut(l, bet) && (Refunded(l, bet) ==> Debited(l, bet))
  }

  /** Stored transaction ids name the movements they stand for. */
  predicate IdsMatch(l: L.Ledger, bet: Bet) {
    && (bet.debitTx.Some? ==> Debited(l, bet) && bet.debitTx.value == l.byRef[bet.reference])
    && (bet.status == Pending || bet.status == Won || bet.status == Lost ==> bet.debitTx.Some?)
    && (bet.creditTx.Some? ==>
          || (bet.status == Won && PaidOut(l, bet) && bet.creditTx.value == l.byRef[WinReference(bet.reference)])
          || (bet.status == Cancelled && Refunded(l, bet)
              && bet.creditTx.value == l.byRef[RefundReference(bet.reference)]))
  }

  ghost predicate BetOk(refs: map<string, string>, l: L.Ledger, bet: Bet) {
    && bet.reference in refs && refs[bet.reference] == bet.user && bet.stake > 0.0
    && MoneyMatches(l, bet) && StatusPermits(l, bet) && IdsMatch(l, bet)
  }

  ghost predicate BetsSound(refs: map<string, string>, bets: map<string, Bet>, l: L.Ledger) {
    forall id | id in bets :: bets[id].id == id && BetOk(refs, l, bets[id])
  }

  ghost predicate BetsOk(refs: map<string, string>, w: World) {
    BetsSound(refs, w.bets, w.wallet)
  }

  ghost predicate Unshared(bets: map<string, Bet>) {
    forall a, b | a in bets && b in bets && bets[a].reference == bets[b].reference :: a == b
  }

  ghost predicate OneBetPerReference(w: World) {
    Unshared(w.bets)
  }

  /** If anything is booked under the reference, a bet has it. */
  ghost predicate Covered(bets: map<string, Bet>, l: L.Ledger, r: string) {
    r in l.byRef || WinReference(r) in l.byRef || RefundReference(r) in l.byRef ==>
      exists id :: id in bets && bets[id].reference == r
  }

  ghost predicate AllCovered(refs: map<string, string>, bets: map<string, Bet>, l: L.Ledger) {
    forall r | r in refs :: Covered(bets, l, r)
  }

  /** Nothing is booked under a bet reference before the bet exists. */
  ghost predicate NoBetNoMoney(refs: map<string, string>, w: World) {
    AllCovered(refs, w.bets, w.wallet)
  }

  // ---- Processes --------------------------------------------------------------------------------------------

  /** The bet a placement has created and not yet finished with. */
  function Places(proc: Proc): Option<string> {
    match proc
    case Debiting(_, id) => Some(id)
    case Cancelling(id) => Some(id)
    case Finalising(id, _) => Some(id)
    case _ => None
  }

  predicate Matches(order: Order, bet: Bet) {
    bet.user == order.user && bet.currency == order.currency && bet.stake == order.stake
    && bet.reference == order.reference
  }

  ghost predicate ProcSound(refs: map<string, string>, bets: map<string, Bet>, l: L.Ledger, proc: Proc) {
    match proc
    case Checking(order) => Owned(refs, order)
    case Validating(order) => Owned(refs, order)
    case Creating(order, odds) => Owned(refs, order)
    case Conflicted(order) => Owned(refs, order)
    case Debiting(order, id) =>
      id in bets && Matches(order, bets[id]) && bets[id].status == DebitPending && !Debited(l, bets[id])
    case Cancelling(id) =>
      id in bets && bets[id].status == DebitPending && !Debited(l, bets[id])
    case Finalising(id, tx) =>
      id in bets && bets[id].status == DebitPending
      && Debited(l, bets[id]) && tx == l.byRef[bets[id].reference]
    case Reading(id, verdict) => true
    case Marking(bet, verdict) =>
      bet.id in bets && SameTerms(bet, bets[bet.id]) && Debited(l, bet)
      && (bets[bet.id].status == Pending || bets[bet.id].status == StatusOf(verdict))
    case Crediting(bet, verdict) =>
      verdict != Loses && bet.id in bets && SameTerms(bet, bets[bet.id]) && Debited(l, bet)
      && bets[bet.id].status == StatusOf(verdict)
    case Recording(id, tx) =>
      id in bets &&
      (|| (bets[id].status == Won && PaidOut(l, bets[id])
           && tx == l.byRef[WinReference(bets[id].reference)])
       || (bets[id].status == Cancelled && Refunded(l, bets[id])
           && tx == l.byRef[RefundReference(bets[id].reference)]))
    case Finished => true
  }

  ghost predicate ProcOk(refs: map<string, string>, w: World, proc: Proc) {
    ProcSound(refs, w.bets, w.wallet, proc)
  }

  ghost predicate ProcsOk(refs: map<string, string>, w: World) {
    forall p | p in w.procs :: ProcOk(refs, w, w.procs[p])
  }

  predicate Clash(a: Proc, b: Proc) {
    || (Places(a).Some? && Places(a) == Places(b))
    || (a.Marking? && b.Marking? && a.bet.id == b.bet.id && a.verdict != b.verdict)
  }

  /** At most one placement works on a bet, and settlements about to write agree. */
  ghost predicate NoClashes(w: World) {
    forall p, q | p in w.procs && q in w.procs && p != q :: !Clash(w.procs[p], w.procs[q])
  }

  ghost predicate Consistent(refs: map<string, string>, w: World) {
    && WellChosen(refs) && Good(w.wallet)
    && BetsOk(refs, w) && OneBetPerReference(w) && NoBetNoMoney(refs, w)
    && ProcsOk(refs, w) && NoClashes(w)
  }

  // ---- How the ledger may grow ------------------------------------------------------------------------------

  predicate SameRow(a: L.Row, b: L.Row) {
    b == a.(status := b.status)
  }

  /** Rows stay, up to their status; recorded references stay; at most `r` becomes recorded. */
  ghost predicate Grows(l: L.Ledger, l': L.Ledger, r: string) {
    && |l.rows| <= |l'.rows| && (forall i | 0 <= i < |l.rows| :: SameRow(l.rows[i], l'.rows[i]))
    && (forall x | x in l.byRef :: x in l'.byRef && l'.byRef[x] == l.byRef[x])
    && (forall x | x in l'.byRef && x !in l.byRef :: x == r)
  }

  function ReferenceOf(op: L.Op): string {
    match op
    case CreditOp(_, _, _, reference) => reference
    case DebitOp(_, _, _, reference) => reference
    case WithdrawOp(_, _, _, id) => id
    case _ => ""
  }

  lemma ApplyGrows(l: L.Ledger, op: L.Op)
    requires L.Admits(l, op)
    ensures Grows(l, L.Apply(l, op), ReferenceOf(op))
  {
    match op
    case OpenOp(user, currency) =>
    case CreditOp(user, currency, amount, reference) =>
    case DebitOp(user, currency, amount, reference) =>
    case WithdrawOp(user, currency, amount, id) =>
    case ApproveOp(id) =>
    case RejectOp(id) =>
  }

  // ---- Frames -----------------------------------------------------------------------------------------------

  lemma ReferencesDiffer(refs: map<string, string>, a: string, b: string)
    requires WellChosen(refs) && a in refs && b in refs
    ensures a != WinReference(b) && a != RefundReference(b) && WinReference(a) != RefundReference(b)
    ensures WinReference(a) == WinReference(b) ==> a == b
    ensures RefundReference(a) == RefundReference(b) ==> a == b
  {
    assert "settle-" <= WinReference(b) && "cancel-" <= RefundReference(b);
    assert WinReference(a)[0] == 's' && RefundReference(b)[0] == 'c';
    assert WinReference(a)[7..] == a && WinReference(b)[7..] == b;
    assert RefundReference(a)[7..] == a && RefundReference(b)[7..] == b;
  }

  /** Growth under a reference that is none of the bet's own leaves every fact about the bet. */
  lemma BetFrame(refs: map<string, string>, l: L.Ledger, l': L.Ledger, r: string, bet: Bet)
    requires Grows(l, l', r) && BetOk(refs, l, bet)
    requires r != bet.reference && r != WinReference(bet.reference) && r != RefundReference(bet.reference)
    ensures BetOk(refs, l', bet)
    ensures Debited(l', bet) == Debited(l, bet) && PaidOut(l', bet) == PaidOut(l, bet)
    ensures Refunded(l', bet) == Refunded(l, bet)
  {
    if Debited(l, bet) { assert SameRow(l.rows[l.byRef[bet.reference]], l'.rows[l.byRef[bet.reference]]); }
    if PaidOut(l, bet) {
      assert SameRow(l.rows[l.byRef[WinReference(bet.reference)]], l'.rows[l.byRef[WinReference(bet.reference)]]);
    }
    if Refunded(l, bet) {
      assert SameRow(l.rows[l.byRef[RefundReference(bet.reference)]], l'.rows[l.byRef[RefundReference(bet.reference)]]);
    }
  }

  /** Replacing one process keeps the world consistent when the new one is sound and clashes with no other. */
  lemma GotoKeeps(refs: map<string, string>, w: World, pid: nat, proc: Proc)
    requires Consistent(refs, w) && ProcOk(refs, w, proc)
    requires forall p | p in w.procs && p != pid :: !Clash(w.procs[p], proc) && !Clash(proc, w.procs[p])
    ensures Consistent(refs, Goto(w, pid, proc))
  {
    var w' := Goto(w, pid, proc);
    forall p | p in w'.procs ensures ProcOk(refs, w', w'.procs[p]) {
      if p != pid { assert ProcOk(refs, w, w.procs[p]); }
    }
  }

  /** Ending a process is always fine. */
  lemma FinishKeeps(refs: map<string, string>, w: World, pid: nat)
    requires Consistent(refs, w)
    ensures Consistent(refs, Goto(w, pid, Finished))
  {
    GotoKeeps(refs, w, pid, Finished);
  }

  // ---- Steps that touch no store ----------------------------------------------------------------------------

  lemma BeginKeeps(refs: map<string, string>, w: World, pid: nat, proc: Proc)
    requires Consistent(refs, w) && Allowed(refs, w, Begin(pid, proc))
    ensures Consistent(refs, Goto(w, pid, proc))
  {
    GotoKeeps(refs, w, pid, proc);
  }

  lemma ReadyToMark(refs: map<string, string>, w: World, id: string, verdict: Verdict)
    requires BetsOk(refs, w) && id in w.bets && w.bets[id].status == Pending && NoRival(w, id, verdict)
    ensures ProcOk(refs, w, Marking(w.bets[id], verdict))
    ensures forall p | p in w.procs :: !Clash(w.procs[p], Marking(w.bets[id], verdict))
                                       && !Clash(Marking(w.bets[id], verdict), w.procs[p])
  {
    assert BetOk(refs, w.wallet, w.bets[id]);
  }

  lemma ReadKeeps(refs: map<string, string>, w: World, pid: nat, input: Input)
    requires Consistent(refs, w) && Allowed(refs, w, Advance(pid, input)) && w.procs[pid].Reading?
    ensures Consistent(refs, Next(w, pid, input))
  {
    var id, verdict := w.procs[pid].id, w.procs[pid].verdict;
    if input.fails || id !in w.bets || w.bets[id].status != Pending {
      FinishKeeps(refs, w, pid);
    } else {
      ReadyToMark(refs, w, id, verdict);
      GotoKeeps(refs, w, pid, Marking(w.bets[id], verdict));
    }
  }

  // ---- Steps on the bet store -------------------------------------------------------------------------------

  /** A reference without a bet has no money booked under it. */
  lemma UntouchedReference(refs: map<string, string>, w: World, r: string)
    requires NoBetNoMoney(refs, w) && r in refs && forall id | id in w.bets :: w.bets[id].reference != r
    ensures r !in w.wallet.byRef && WinReference(r) !in w.wallet.byRef && RefundReference(r) !in w.wallet.byRef
  {
  }

  /** A bet that stays under its id keeps covering its reference. */
  lemma StaysCovered(w: World, w': World, r: string)
    requires Covered(w.bets, w.wallet, r)
    requires forall id | id in w.bets :: id in w'.bets && SameTerms(w.bets[id], w'.bets[id])
    requires r in w'.wallet.byRef || WinReference(r) in w'.wallet.byRef || RefundReference(r) in w'.wallet.byRef ==>
               r in w.wallet.byRef || WinReference(r) in w.wallet.byRef || RefundReference(r) in w.wallet.byRef
               || exists id :: id in w.bets && w.bets[id].reference == r
    ensures Covered(w'.bets, w'.wallet, r)
  {
    if id :| id in w.bets && w.bets[id].reference == r {
      assert SameTerms(w.bets[id], w'.bets[id]);
      assert w'.bets[id].reference == r;
    }
  }

  lemma CreateKeeps(refs: map<string, string>, w: World, pid: nat, order: Order, odds: real, id: string, now: int)
    requires Consistent(refs, w) && pid in w.procs && w.procs[pid] == Creating(order, odds)
    requires !Taken(w.bets, order.user, order.reference) && id !in w.bets
    ensures Consistent(refs, Goto(w.(bets := w.bets[id := NewBet(order, odds, id, now)]), pid, Debiting(order, id)))
  {
    assert ProcOk(refs, w, w.procs[pid]);
    var bet := NewBet(order, odds, id, now);
    NewReference(refs, w, order);
    UntouchedReference(refs, w, order.reference);
    NewBetKeepsWorld(refs, w, bet);
    GotoKeeps(refs, w.(bets := w.bets[id := bet]), pid, Debiting(order, id));
  }

  lemma NewReference(refs: map<string, string>, w: World, order: Order)
    requires BetsOk(refs, w) && Owned(refs, order) && !Taken(w.bets, order.user, order.reference)
    ensures forall other | other in w.bets :: w.bets[other].reference != order.reference
  {
    forall other | other in w.bets ensures w.bets[other].reference != order.reference {
      assert BetOk(refs, w.wallet, w.bets[other]);
    }
  }

  lemma NewBetKeepsWorld(refs: map<string, string>, w: World, bet: Bet)
    requires Consistent(refs, w) && bet.id !in w.bets && BetOk(refs, w.wallet, bet)
    requires forall id | id in w.bets :: w.bets[id].reference != bet.reference
    ensures Consistent(refs, w.(bets := w.bets[bet.id := bet]))
    ensures forall p | p in w.procs :: Places(w.procs[p]) != Some(bet.id)
  {
    var w1 := w.(bets := w.bets[bet.id := bet]);
    NewBetKeepsBets(refs, w, w1, bet);
    forall p | p in w1.procs ensures ProcOk(refs, w1, w1.procs[p]) && Places(w1.procs[p]) != Some(bet.id) {
      assert ProcOk(refs, w, w.procs[p]);
      NewBetProcFrame(refs, w, w1, bet, w.procs[p]);
    }
  }

  lemma NewBetKeepsBets(refs: map<string, string>, w: World, w1: World, bet: Bet)
    requires WellChosen(refs) && BetsOk(refs, w) && OneBetPerReference(w) && NoBetNoMoney(refs, w)
    requires bet.id !in w.bets && w1 == w.(bets := w.bets[bet.id := bet]) && BetOk(refs, w.wallet, bet)
    requires forall id | id in w.bets :: w.bets[id].reference != bet.reference
    ensures BetsOk(refs, w1) && OneBetPerReference(w1) && NoBetNoMoney(refs, w1)
  {
    forall x | x in refs ensures Covered(w1.bets, w1.wallet, x) { StaysCovered(w, w1, x); }
  }

  lemma NewBetProcFrame(refs: map<string, string>, w: World, w1: World, bet: Bet, proc: Proc)
    requires ProcOk(refs, w, proc) && bet.id !in w.bets && w1 == w.(bets := w.bets[bet.id := bet])
    ensures ProcOk(refs, w1, proc) && Places(proc) != Some(bet.id)
  {
  }

  /** Rewriting a bet's status columns keeps the world consistent when the bet stays sound and no process minds. */
  lemma PutKeeps(refs: map<string, string>, w: World, pid: nat, bet: Bet, proc: Proc)
    requires Consistent(refs, w) && pid in w.procs && bet.id in w.bets && SameTerms(w.bets[bet.id], bet)
    requires BetOk(refs, w.wallet, bet)
    requires ProcOk(refs, Put(w, bet, bet.id), proc)
    requires forall p | p in w.procs && p != pid :: ProcOk(refs, Put(w, bet, bet.id), w.procs[p])
    requires forall p | p in w.procs && p != pid :: !Clash(w.procs[p], proc) && !Clash(proc, w.procs[p])
    ensures Consistent(refs, Goto(Put(w, bet, bet.id), pid, proc))
  {
    var w1 := Put(w, bet, bet.id);
    forall id | id in w1.bets ensures w1.bets[id].id == id && BetOk(refs, w1.wallet, w1.bets[id]) {
      if id != bet.id { assert BetOk(refs, w.wallet, w.bets[id]); }
    }
    forall r | r in refs ensures Covered(w1.bets, w1.wallet, r) { StaysCovered(w, w1, r); }
    ReplaceProc(refs, w1, pid, proc);
  }

  /** No process but its placement works on a bet that waits for its debit. */
  lemma PlacementProcFrame(refs: map<string, string>, w: World, bet: Bet, other: Proc)
    requires ProcOk(refs, w, other) && bet.id in w.bets && SameTerms(w.bets[bet.id], bet)
    requires w.bets[bet.id].status == DebitPending && Places(other) != Some(bet.id)
    ensures ProcOk(refs, Put(w, bet, bet.id), other)
  {
  }

  lemma PlacedBetOk(refs: map<string, string>, l: L.Ledger, before: Bet, bet: Bet, proc: Proc)
    requires BetOk(refs, l, before) && before.status == DebitPending
    requires || (proc.Cancelling? && bet == before.(status := Cancelled, settled := bet.settled))
             || (proc.Finalising? && bet == before.(status := Pending, debitTx := Some(proc.tx))
                 && Debited(l, before) && proc.tx == l.byRef[before.reference])
    ensures BetOk(refs, l, bet)
  {
  }

  /** A placement that writes its outcome disturbs no other process. */
  lemma PlacementWriteKeeps(refs: map<string, string>, w: World, pid: nat, input: Input)
    requires Consistent(refs, w) && pid in w.procs && (w.procs[pid].Cancelling? || w.procs[pid].Finalising?)
    ensures Consistent(refs, Next(w, pid, input))
  {
    var proc := w.procs[pid];
    assert ProcOk(refs, w, proc);
    if input.fails {
      FinishKeeps(refs, w, pid);
    } else {
      var before := w.bets[proc.id];
      assert BetOk(refs, w.wallet, before);
      var bet := if proc.Cancelling? then before.(status := Cancelled, settled := Some(input.now))
                 else before.(status := Pending, debitTx := Some(proc.tx));
      forall p | p in w.procs && p != pid ensures ProcOk(refs, Put(w, bet, bet.id), w.procs[p]) {
        assert ProcOk(refs, w, w.procs[p]) && !Clash(w.procs[p], proc);
        PlacementProcFrame(refs, w, bet, w.procs[p]);
      }
      PlacedBetOk(refs, w.wallet, before, bet, proc);
      PutKeeps(refs, w, pid, bet, Finished);
      assert Next(w, pid, input) == Goto(Put(w, bet, bet.id), pid, Finished);
    }
  }

  /** Rewriting a bet leaves a process sound when the status stays, or is the one the process is about to write. */
  lemma PutProcFrame(refs: map<string, string>, w: World, bet: Bet, proc: Proc)
    requires ProcOk(refs, w, proc) && bet.id in w.bets && SameTerms(w.bets[bet.id], bet)
    requires bet.status == w.bets[bet.id].status
             || (w.bets[bet.id].status == Pending
                 && (proc.Marking? && proc.bet.id == bet.id ==> StatusOf(proc.verdict) == bet.status))
    ensures ProcOk(refs, Put(w, bet, bet.id), proc)
  {
  }

  lemma MarkedBetOk(refs: map<string, string>, l: L.Ledger, before: Bet, bet: Bet, verdict: Verdict)
    requires BetOk(refs, l, before) && Debited(l, before)
    requires before.status == Pending || before.status == StatusOf(verdict)
    requires bet == before.(status := StatusOf(verdict), settled := bet.settled)
    ensures BetOk(refs, l, bet)
  {
  }

  lemma MarkKeeps(refs: map<string, string>, w: World, pid: nat, input: Input)
    requires Consistent(refs, w) && pid in w.procs && w.procs[pid].Marking?
    ensures Consistent(refs, Next(w, pid, input))
  {
    var proc := w.procs[pid];
    assert ProcOk(refs, w, proc);
    if input.fails {
      FinishKeeps(refs, w, pid);
    } else {
      var before := w.bets[proc.bet.id];
      assert BetOk(refs, w.wallet, before);
      var bet := before.(status := StatusOf(proc.verdict), settled := Some(input.now));
      MarkedBetOk(refs, w.wallet, before, bet, proc.verdict);
      forall p | p in w.procs && p != pid ensures ProcOk(refs, Put(w, bet, bet.id), w.procs[p]) {
        assert ProcOk(refs, w, w.procs[p]) && !Clash(w.procs[p], proc);
        PutProcFrame(refs, w, bet, w.procs[p]);
      }
      PutKeeps(refs, w, pid, bet, if proc.verdict == Loses then Finished else Crediting(proc.bet, proc.verdict));
    }
  }

  lemma RecordedBetOk(refs: map<string, string>, l: L.Ledger, before: Bet, bet: Bet)
    requires BetOk(refs, l, before) && bet == before.(creditTx := bet.creditTx) && bet.creditTx.Some?
    requires || (bet.status == Won && PaidOut(l, bet) && bet.creditTx.value == l.byRef[WinReference(bet.reference)])
             || (bet.status == Cancelled && Refunded(l, bet)
                 && bet.creditTx.value == l.byRef[RefundReference(bet.reference)])
    ensures BetOk(refs, l, bet)
  {
  }

  lemma RecordKeeps(refs: map<string, string>, w: World, pid: nat, input: Input)
    requires Consistent(refs, w) && pid in w.procs && w.procs[pid].Recording?
    ensures Consistent(refs, Next(w, pid, input))
  {
    var proc := w.procs[pid];
    assert ProcOk(refs, w, proc);
    if input.fails {
      FinishKeeps(refs, w, pid);
    } else {
      var bet := w.bets[proc.id].(creditTx := Some(proc.tx));
      assert BetOk(refs, w.wallet, w.bets[proc.id]);
      forall p | p in w.procs && p != pid ensures ProcOk(refs, Put(w, bet, bet.id), w.procs[p]) {
        assert ProcOk(refs, w, w.procs[p]);
        PutProcFrame(refs, w, bet, w.procs[p]);
      }
      RecordedBetOk(refs, w.wallet, w.bets[proc.id], bet);
      PutKeeps(refs, w, pid, bet, Finished);
      assert Next(w, pid, input) == Goto(Put(w, bet, bet.id), pid, Finished);
    }
  }

  // ---- Steps on the wallet ----------------------------------------------------------------------------------

  /** Wallet traffic under references no bet uses. */
  lemma ExternalKeeps(refs: map<string, string>, w: World, op: L.Op)
    requires Consistent(refs, w) && Allowed(refs, w, External(op))
    ensures Consistent(refs, Step(w, External(op)))
  {
    var w' := Step(w, External(op));
    var r := ReferenceOf(op);
    ApplyGrows(w.wallet, op);
    StepKeepsGood(w.wallet, op);
    assert Foreign(refs, r) by { assert WellChosen(refs); }
    forall b | b in refs ensures r != b && r != WinReference(b) && r != RefundReference(b) {
      assert Reserved(WinReference(b)) && Reserved(RefundReference(b));
    }
    forall id | id in w'.bets ensures w'.bets[id].id == id && BetOk(refs, w'.wallet, w'.bets[id]) {
      BetFrame(refs, w.wallet, w'.wallet, r, w.bets[id]);
    }
    forall p | p in w'.procs ensures ProcOk(refs, w', w'.procs[p]) {
      WalletProcFrame(refs, w, w', r, w.procs[p]);
    }
    NoBetNoMoneyFrame(refs, w, w', r);
  }

  lemma NoBetNoMoneyFrame(refs: map<string, string>, w: World, w': World, r: string)
    requires NoBetNoMoney(refs, w) && w'.bets == w.bets && Grows(w.wallet, w'.wallet, r)
    requires forall b | b in refs && (r == b || r == WinReference(b) || r == RefundReference(b)) ::
               exists id :: id in w.bets && w.bets[id].reference == b
    ensures NoBetNoMoney(refs, w')
  {
    forall x | x in refs ensures Covered(w'.bets, w'.wallet, x) { StaysCovered(w, w', x); }
  }

  /** A process keeps its footing while the ledger grows under a reference that is not its own bet's stake. */
  lemma WalletProcFrame(refs: map<string, string>, w: World, w': World, r: string, proc: Proc)
    requires ProcOk(refs, w, proc) && w'.bets == w.bets && Grows(w.wallet, w'.wallet, r)
    requires Places(proc).Some? && Places(proc).value in w.bets ==> w.bets[Places(proc).value].reference != r
    ensures ProcOk(refs, w', proc)
  {
  }

  lemma DebitKeeps(refs: map<string, string>, w: World, pid: nat, input: Input)
    requires Consistent(refs, w) && pid in w.procs && w.procs[pid].Debiting?
    ensures Consistent(refs, Next(w, pid, input))
  {
    var proc := w.procs[pid];
    var order, id := proc.order, proc.id;
    assert ProcOk(refs, w, proc);
    var w' := Next(w, pid, input);
    if w'.wallet == w.wallet {
      assert !L.Debit(w.wallet, order.user, order.currency, Number(order.stake), order.reference).reply.Txn?
             || input.fails;
      forall p | p in w.procs && p != pid
        ensures !Clash(w.procs[p], Cancelling(id)) && !Clash(Cancelling(id), w.procs[p])
      {
        assert !Clash(w.procs[p], proc);
      }
      GotoKeeps(refs, w, pid, Cancelling(id));
    } else {
      var op := L.DebitOp(order.user, order.currency, Number(order.stake), order.reference);
      var w1 := w.(wallet := w'.wallet);
      MoneyMoves(refs, w, w1, op, id, pid);
    }
  }

  lemma CreditKeeps(refs: map<string, string>, w: World, pid: nat, input: Input)
    requires Consistent(refs, w) && pid in w.procs && w.procs[pid].Crediting?
    ensures Consistent(refs, Next(w, pid, input))
  {
    var proc := w.procs[pid];
    assert ProcOk(refs, w, proc);
    if input.fails {
      FinishKeeps(refs, w, pid);
    } else {
      var bet := proc.bet;
      var op := L.CreditOp(bet.user, bet.currency, Number(CreditAmount(bet, proc.verdict)),
                           CreditReference(bet, proc.verdict));
      var w1 := w.(wallet := L.Apply(w.wallet, op));
      assert SameTerms(bet, w.bets[bet.id]);
      MoneyMoves(refs, w, w1, op, bet.id, pid);
      CreditRecorded(w, pid, input);
    }
  }

  lemma CreditRecorded(w: World, pid: nat, input: Input)
    requires pid in w.procs && w.procs[pid].Crediting? && !input.fails
    ensures var bet, verdict := w.procs[pid].bet, w.procs[pid].verdict;
            var r := CreditReference(bet, verdict);
            var l' := L.Apply(w.wallet, L.CreditOp(bet.user, bet.currency, Number(CreditAmount(bet, verdict)), r));
            r != "" ==> r in l'.byRef
                        && Next(w, pid, input) == Goto(w.(wallet := l'), pid, Recording(bet.id, l'.byRef[r]))
  {
  }

  /** The one wallet movement a process makes for its bet. */
  ghost predicate Moves(w: World, op: L.Op, id: string, proc: Proc) {
    id in w.bets &&
    var bet := w.bets[id];
    || (proc.Debiting? && proc.id == id && op == L.DebitOp(bet.user, bet.currency, Number(bet.stake), bet.reference)
        && L.Debit(w.wallet, bet.user, bet.currency, Number(bet.stake), bet.reference).reply.Txn?)
    || (proc.Crediting? && proc.bet.id == id
        && op == L.CreditOp(bet.user, bet.currency, Number(CreditAmount(bet, proc.verdict)),
                            CreditReference(bet, proc.verdict)))
  }

  lemma MoneyMoves(refs: map<string, string>, w: World, w1: World, op: L.Op, id: string, pid: nat)
    requires Consistent(refs, w) && pid in w.procs
    requires Moves(w, op, id, w.procs[pid]) && w1 == w.(wallet := L.Apply(w.wallet, op))
    ensures ReferenceOf(op) in w1.wallet.byRef
    ensures var tx := w1.wallet.byRef[ReferenceOf(op)];
            Consistent(refs, Goto(w1, pid, if w.procs[pid].Debiting? then Finalising(id, tx) else Recording(id, tx)))
  {
    var proc := w.procs[pid];
    assert ProcOk(refs, w, proc);
    StepKeepsGood(w.wallet, op);
    MovedBets(refs, w, w1, op, id, proc);
    var tx := w1.wallet.byRef[ReferenceOf(op)];
    var proc' := if proc.Debiting? then Finalising(id, tx) else Recording(id, tx);
    OthersStandBy(refs, w, w1, op, id, pid, proc');
    ReplaceProc(refs, w1, pid, proc');
  }

  lemma OthersStandBy(refs: map<string, string>, w: World, w1: World, op: L.Op, id: string, pid: nat, next: Proc)
    requires Consistent(refs, w) && pid in w.procs && Moves(w, op, id, w.procs[pid])
    requires w1 == w.(wallet := L.Apply(w.wallet, op)) && !next.Marking?
    requires Places(next).Some? ==> Places(next) == Places(w.procs[pid])
    ensures forall p | p in w.procs && p != pid ::
              ProcOk(refs, w1, w.procs[p]) && !Clash(w.procs[p], next) && !Clash(next, w.procs[p])
  {
    forall p | p in w.procs && p != pid
      ensures ProcOk(refs, w1, w.procs[p]) && !Clash(w.procs[p], next) && !Clash(next, w.procs[p])
    {
      assert ProcOk(refs, w, w.procs[pid]) && ProcOk(refs, w, w.procs[p]) && !Clash(w.procs[p], w.procs[pid]);
      MovedProcFrame(refs, w, w1, op, id, w.procs[pid], w.procs[p]);
    }
  }

  /** As GotoKeeps, for a process whose old phase no longer fits the stores. */
  lemma ReplaceProc(refs: map<string, string>, w: World, pid: nat, proc: Proc)
    requires WellChosen(refs) && Good(w.wallet) && BetsOk(refs, w) && OneBetPerReference(w) && NoBetNoMoney(refs, w)
    requires ProcOk(refs, w, proc) && NoClashes(w)
    requires forall p | p in w.procs && p != pid ::
               ProcOk(refs, w, w.procs[p]) && !Clash(w.procs[p], proc) && !Clash(proc, w.procs[p])
    ensures Consistent(refs, Goto(w, pid, proc))
  {
    var w' := Goto(w, pid, proc);
    forall p | p in w'.procs ensures ProcOk(refs, w', w'.procs[p]) {
      if p != pid { assert ProcOk(refs, w, w.procs[p]); }
    }
    forall p, q | p in w'.procs && q in w'.procs && p != q ensures !Clash(w'.procs[p], w'.procs[q]) {
      if p != pid && q != pid { assert !Clash(w.procs[p], w.procs[q]); }
    }
  }

  lemma MovedBets(refs: map<string, string>, w: World, w1: World, op: L.Op, id: string, proc: Proc)
    requires Consistent(refs, w) && ProcOk(refs, w, proc)
    requires Moves(w, op, id, proc) && w1 == w.(wallet := L.Apply(w.wallet, op))
    ensures BetsOk(refs, w1) && OneBetPerReference(w1) && NoBetNoMoney(refs, w1)
    ensures ReferenceOf(op) in w1.wallet.byRef
    ensures ReferenceOf(op)
            == if proc.Debiting? then w.bets[id].reference else CreditReference(w.bets[id], proc.verdict)
  {
    var bet := w.bets[id];
    var r := ReferenceOf(op);
    assert BetOk(refs, w.wallet, bet);
    ApplyGrows(w.wallet, op);
    MovedBetOk(refs, w, w1, op, id, proc);
    forall other | other in w.bets && other != id ensures BetOk(refs, w1.wallet, w.bets[other]) {
      assert BetOk(refs, w.wallet, w.bets[other]);
      ReferencesDiffer(refs, bet.reference, w.bets[other].reference);
      ReferencesDiffer(refs, w.bets[other].reference, bet.reference);
      BetFrame(refs, w.wallet, w1.wallet, r, w.bets[other]);
    }
    forall b | b in refs && (r == b || r == WinReference(b) || r == RefundReference(b)) ensures b == bet.reference {
      ReferencesDiffer(refs, bet.reference, b);
      ReferencesDiffer(refs, b, bet.reference);
    }
    NoBetNoMoneyFrame(refs, w, w1, r);
  }

  lemma MovedProcFrame(refs: map<string, string>, w: World, w1: World, op: L.Op, id: string, proc: Proc, other: Proc)
    requires Consistent(refs, w) && ProcOk(refs, w, proc) && ProcOk(refs, w, other) && !Clash(other, proc)
    requires Moves(w, op, id, proc) && w1 == w.(wallet := L.Apply(w.wallet, op))
    ensures ProcOk(refs, w1, other)
  {
    ApplyGrows(w.wallet, op);
    if Places(other).Some? { OtherPlacement(refs, w, op, id, proc, other); }
    WalletProcFrame(refs, w, w1, ReferenceOf(op), other);
  }

  /** Another placement's bet does not use the reference. */
  lemma OtherPlacement(refs: map<string, string>, w: World, op: L.Op, id: string, proc: Proc, other: Proc)
    requires WellChosen(refs) && BetsOk(refs, w) && OneBetPerReference(w)
    requires ProcOk(refs, w, proc) && ProcOk(refs, w, other) && !Clash(other, proc)
    requires Moves(w, op, id, proc) && Places(other).Some?
    ensures w.bets[Places(other).value].reference != ReferenceOf(op)
  {
    var bet, mine := w.bets[Places(other).value], w.bets[id];
    assert BetOk(refs, w.wallet, bet) && BetOk(refs, w.wallet, mine);
    ReferencesDiffer(refs, bet.reference, mine.reference);
  }

  lemma BookedFrame(l: L.Ledger, l': L.Ledger, r: string, reference: string, bet: Bet, kind: L.Kind, amount: real)
    requires Grows(l, l', r) && BookedFor(l, reference, bet, kind, amount)
    ensures BookedFor(l', reference, bet, kind, amount)
  {
    assert SameRow(l.rows[l.byRef[reference]], l'.rows[l.byRef[reference]]);
  }

  /** After its own movement a bet is sound, and the movement is on the books. */
  lemma MovedBetOk(refs: map<string, string>, w: World, w1: World, op: L.Op, id: string, proc: Proc)
    requires Consistent(refs, w) && ProcOk(refs, w, proc)
    requires Moves(w, op, id, proc) && w1 == w.(wallet := L.Apply(w.wallet, op))
    ensures BetOk(refs, w1.wallet, w.bets[id]) && ReferenceOf(op) in w1.wallet.byRef
    ensures ReferenceOf(op)
            == if proc.Debiting? then w.bets[id].reference else CreditReference(w.bets[id], proc.verdict)
  {
    var bet := w.bets[id];
    assert BetOk(refs, w.wallet, bet);
    ReferencesDiffer(refs, bet.reference, bet.reference);
    if proc.Debiting? {
      DebitedBetOk(refs, w.wallet, w1.wallet, bet);
    } else {
      CreditedBetOk(refs, w.wallet, w1.wallet, bet, proc.verdict);
    }
  }

  lemma DebitedBetOk(refs: map<string, string>, l: L.Ledger, l': L.Ledger, bet: Bet)
    requires WellChosen(refs) && BetOk(refs, l, bet) && !Debited(l, bet) && bet.status == DebitPending
    requires var debited := L.Debit(l, bet.user, bet.currency, Number(bet.stake), bet.reference);
             debited.reply.Txn? && l' == debited.ledger
    ensures BetOk(refs, l', bet) && Debited(l', bet)
  {
    ReferencesDiffer(refs, bet.reference, bet.reference);
  }

  lemma CreditedBetOk(refs: map<string, string>, l: L.Ledger, l': L.Ledger, bet: Bet, verdict: Verdict)
    requires WellChosen(refs) && BetOk(refs, l, bet) && Debited(l, bet)
    requires verdict != Loses && bet.status == StatusOf(verdict)
    requires l' == L.Credit(l, bet.user, bet.currency, Number(CreditAmount(bet, verdict)),
                            CreditReference(bet, verdict)).ledger
    ensures BetOk(refs, l', bet) && CreditReference(bet, verdict) in l'.byRef
  {
    var r := CreditReference(bet, verdict);
    ReferencesDiffer(refs, bet.reference, bet.reference);
    ApplyGrows(l, L.CreditOp(bet.user, bet.currency, Number(CreditAmount(bet, verdict)), r));
    BookedFrame(l, l', r, bet.reference, bet, L.Withdrawal, bet.stake);
    if r in l.byRef {
      BookedFrame(l, l', r, r, bet, L.Deposit, CreditAmount(bet, verdict));
    } else {
      assert BookedFor(l', r, bet, L.Deposit, CreditAmount(bet, verdict));
    }
  }

  // ---- Every step and every run -----------------------------------------------------------------------------

  lemma StepKeeps(refs: map<string, string>, w: World, a: Action)
    requires Consistent(refs, w) && Allowed(refs, w, a)
    ensures Consistent(refs, Step(w, a))
  {
    match a
    case Begin(pid, proc) => BeginKeeps(refs, w, pid, proc);
    case External(op) => ExternalKeeps(refs, w, op);
    case Advance(pid, input) =>
      var proc := w.procs[pid];
      assert ProcOk(refs, w, proc);
      match proc {
        case Checking(order) => GotoKeeps(refs, w, pid, Next(w, pid, input).procs[pid]);
        case Validating(order) => GotoKeeps(refs, w, pid, Next(w, pid, input).procs[pid]);
        case Creating(order, odds) =>
          if !input.fails && !Taken(w.bets, order.user, order.reference) {
            CreateKeeps(refs, w, pid, order, odds, input.id, input.now);
          } else {
            GotoKeeps(refs, w, pid, Next(w, pid, input).procs[pid]);
          }
        case Conflicted(order) => FinishKeeps(refs, w, pid);
        case Debiting(order, id) => DebitKeeps(refs, w, pid, input);
        case Cancelling(id) => PlacementWriteKeeps(refs, w, pid, input);
        case Finalising(id, tx) => PlacementWriteKeeps(refs, w, pid, input);
        case Reading(id, verdict) => ReadKeeps(refs, w, pid, input);
        case Marking(bet, verdict) => MarkKeeps(refs, w, pid, input);
        case Crediting(bet, verdict) => CreditKeeps(refs, w, pid, input);
        case Recording(id, tx) => RecordKeeps(refs, w, pid, input);
        case Finished =>
      }
  }

  lemma {:induction false} RunKeeps(refs: map<string, string>, w: World, actions: seq<Action>)
    requires Consistent(refs, w) && AllowedAll(refs, w, actions)
    ensures Consistent(refs, Exec(w, actions))
    decreases |actions|
  {
    if actions != [] {
      StepKeeps(refs, w, actions[0]);
      RunKeeps(refs, Step(w, actions[0]), actions[1..]);
    }
  }
}
