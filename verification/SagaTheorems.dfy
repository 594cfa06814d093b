/** The promises of the bet saga, for every interleaving. */
module SagaTheorems {
  import opened Basics
  import opened Sums
  import opened Bets
  import opened Saga
  import opened SagaInvariant
  import opened LedgerInvariant
  import opened LedgerTheorems
  import L = Ledger
  import Limits

  lemma StartIsConsistent(refs: map<string, string>)
    requires WellChosen(refs)
    ensures Consistent(refs, START)
  {
  }

  // ---- One debit, one credit --------------------------------------------------------------------------------

  /** Row i takes the stake of a bet. */
  predicate TakesStake(w: World, i: nat, bet: Bet) {
    i < |w.wallet.rows| && w.wallet.rows[i].kind == L.Withdrawal && w.wallet.rows[i].reference == bet.reference
  }

  /** Row i pays a bet out or refunds it. */
  predicate PaysBack(w: World, i: nat, bet: Bet) {
    i < |w.wallet.rows| && w.wallet.rows[i].kind == L.Deposit
    && (w.wallet.rows[i].reference == WinReference(bet.reference)
        || w.wallet.rows[i].reference == RefundReference(bet.reference))
  }

  /** In every reachable state each bet has at most one debit and at most one credit; the debit is its stake and the
      credit is the payout of a won bet or the stake of a cancelled one that was debited. */
  lemma OneDebitOneCredit(refs: map<string, string>, actions: seq<Action>, id: string)
    requires WellChosen(refs) && AllowedAll(refs, START, actions) && id in Exec(START, actions).bets
    ensures var w := Exec(START, actions);
            var bet := w.bets[id];
            && (forall i: nat, j: nat :: TakesStake(w, i, bet) && TakesStake(w, j, bet) ==> i == j)
            && (forall i: nat, j: nat :: PaysBack(w, i, bet) && PaysBack(w, j, bet) ==> i == j)
            && (forall i: nat :: TakesStake(w, i, bet) ==> w.wallet.rows[i].amount == bet.stake)
            && (forall i: nat :: PaysBack(w, i, bet) ==>
                  && (exists d: nat :: TakesStake(w, d, bet))
                  && ((bet.status == Won && w.wallet.rows[i].amount == bet.payout)
                      || (bet.status == Cancelled && w.wallet.rows[i].amount == bet.stake)))
  {
    RunKeeps(refs, START, actions);
    var w := Exec(START, actions);
    var bet := w.bets[id];
    assert BetOk(refs, w.wallet, bet);
    forall i: nat | TakesStake(w, i, bet) ensures Debited(w.wallet, bet) && w.wallet.byRef[bet.reference] == i {
      assert RowIndexed(w.wallet, i);
    }
    forall i: nat | PaysBack(w, i, bet)
      ensures || (PaidOut(w.wallet, bet) && w.wallet.byRef[WinReference(bet.reference)] == i)
              || (Refunded(w.wallet, bet) && w.wallet.byRef[RefundReference(bet.reference)] == i)
      ensures exists d: nat :: TakesStake(w, d, bet)
    {
      assert RowIndexed(w.wallet, i);
      assert TakesStake(w, w.wallet.byRef[bet.reference], bet);
    }
  }

  /** The debit and credit a bet may have in each status. */
  lemma StatusTellsTheMoney(refs: map<string, string>, actions: seq<Action>, id: string)
    requires WellChosen(refs) && AllowedAll(refs, START, actions) && id in Exec(START, actions).bets
    ensures var w := Exec(START, actions);
            MoneyMatches(w.wallet, w.bets[id]) && StatusPermits(w.wallet, w.bets[id])
  {
    RunKeeps(refs, START, actions);
    assert BetOk(refs, Exec(START, actions).wallet, Exec(START, actions).bets[id]);
  }

  /** The stored credit id of a bet names the row that pays it back in full. */
  predicate PaidInFull(w: World, bet: Bet) {
    bet.creditTx.Some? &&
    PaysBack(w, bet.creditTx.value, bet)
    && w.wallet.rows[bet.creditTx.value].amount == if bet.status == Won then bet.payout else bet.stake
  }

  lemma CreditIdPays(refs: map<string, string>, w: World, id: string)
    requires Consistent(refs, w) && id in w.bets && w.bets[id].creditTx.Some?
    ensures PaidInFull(w, w.bets[id])
  {
    assert BetOk(refs, w.wallet, w.bets[id]);
  }

  /** A stored credit id names the one row that pays the bet back. */
  lemma CreditIdNamesTheCredit(refs: map<string, string>, actions: seq<Action>, id: string)
    requires WellChosen(refs) && AllowedAll(refs, START, actions) && id in Exec(START, actions).bets
    requires Exec(START, actions).bets[id].creditTx.Some?
    ensures PaidInFull(Exec(START, actions), Exec(START, actions).bets[id])
  {
    RunKeeps(refs, START, actions);
    CreditIdPays(refs, Exec(START, actions), id);
  }

  // ---- Terminal statuses ------------------------------------------------------------------------------------

  lemma TerminalStaysStep(refs: map<string, string>, w: World, a: Action, id: string)
    requires Consistent(refs, w) && Allowed(refs, w, a) && id in w.bets && Terminal(w.bets[id].status)
    ensures id in Step(w, a).bets && Step(w, a).bets[id].status == w.bets[id].status
    ensures SameTerms(w.bets[id], Step(w, a).bets[id])
  {
    if a.Advance? { TerminalStaysNext(refs, w, a.pid, a.input, id); }
  }

  /** What one step may write of bet `id`. */
  predicate KeepsStatus(w: World, w': World, id: string) {
    id in w.bets ==> id in w'.bets && w'.bets[id].status == w.bets[id].status && SameTerms(w.bets[id], w'.bets[id])
  }

  lemma QuietNext(w: World, pid: nat, input: Input, id: string)
    requires pid in w.procs && !w.procs[pid].Creating? && !w.procs[pid].Cancelling? && !w.procs[pid].Finalising?
    requires !w.procs[pid].Marking? && !w.procs[pid].Recording?
    ensures KeepsStatus(w, Next(w, pid, input), id)
  {
  }

  lemma CreatingNext(w: World, pid: nat, input: Input, id: string)
    requires pid in w.procs && w.procs[pid].Creating? && input.id !in w.bets
    ensures KeepsStatus(w, Next(w, pid, input), id)
  {
  }

  lemma PlacementNext(refs: map<string, string>, w: World, pid: nat, input: Input, id: string)
    requires pid in w.procs && ProcOk(refs, w, w.procs[pid]) && (w.procs[pid].Cancelling? || w.procs[pid].Finalising?)
    requires id in w.bets && Terminal(w.bets[id].status)
    ensures KeepsStatus(w, Next(w, pid, input), id)
  {
  }

  lemma MarkingNext(refs: map<string, string>, w: World, pid: nat, input: Input, id: string)
    requires pid in w.procs && ProcOk(refs, w, w.procs[pid]) && (w.procs[pid].Marking? || w.procs[pid].Recording?)
    requires id in w.bets && Terminal(w.bets[id].status) && BetsOk(refs, w)
    ensures KeepsStatus(w, Next(w, pid, input), id)
  {
    assert w.bets[id].id == id;
  }

  lemma TerminalStaysNext(refs: map<string, string>, w: World, pid: nat, input: Input, id: string)
    requires pid in w.procs && ProcOk(refs, w, w.procs[pid]) && BetsOk(refs, w)
    requires id in w.bets && Terminal(w.bets[id].status) && (w.procs[pid].Creating? ==> input.id !in w.bets)
    ensures KeepsStatus(w, Next(w, pid, input), id)
  {
    var proc := w.procs[pid];
    if proc.Creating? { CreatingNext(w, pid, input, id); }
    else if proc.Cancelling? || proc.Finalising? { PlacementNext(refs, w, pid, input, id); }
    else if proc.Marking? || proc.Recording? { MarkingNext(refs, w, pid, input, id); }
    else { QuietNext(w, pid, input, id); }
  }

  /** A settled or cancelled bet keeps its status for ever: no late placement write overwrites it. */
  lemma {:induction false} TerminalStays(refs: map<string, string>, w: World, actions: seq<Action>, id: string)
    requires Consistent(refs, w) && AllowedAll(refs, w, actions) && id in w.bets && Terminal(w.bets[id].status)
    ensures id in Exec(w, actions).bets && Exec(w, actions).bets[id].status == w.bets[id].status
    decreases |actions|
  {
    if actions != [] {
      TerminalStaysStep(refs, w, actions[0], id);
      StepKeeps(refs, w, actions[0]);
      TerminalStays(refs, Step(w, actions[0]), actions[1..], id);
    }
  }

  // ---- Conservation -----------------------------------------------------------------------------------------

  /** Deposits that are not bet credits. */
  function Deposited(rows: seq<L.Row>, n: nat, key: string): real
    requires n <= |rows|
  {
    if n == 0 then 0.0
    else Deposited(rows, n - 1, key)
         + if rows[n - 1].wallet == key && rows[n - 1].kind == L.Deposit && !Reserved(rows[n - 1].reference)
           then rows[n - 1].amount else 0.0
  }

  /** Debits that are neither withdrawal requests nor stakes: those whose reference is not among the known ones. */
  function Drawn(known: set<string>, rows: seq<L.Row>, n: nat, key: string): real
    requires n <= |rows|
  {
    if n == 0 then 0.0
    else Drawn(known, rows, n - 1, key)
         + if rows[n - 1].wallet == key && rows[n - 1].kind == L.Withdrawal && rows[n - 1].reference !in known
           then rows[n - 1].amount else 0.0
  }

  ghost function Known(refs: map<string, string>, l: L.Ledger): set<string> {
    refs.Keys + l.requests.Keys
  }

  ghost function Owed(l: L.Ledger, key: string): string -> real {
    (id: string) =>
      if id in l.requests && l.requests[id].wallet == key && l.requests[id].status != L.Rejected
      then l.requests[id].amount else 0.0
  }

  /** Withdrawals that were not rejected. */
  ghost function Withdrawn(l: L.Ledger, key: string): real {
    SumOver(l.requests.Keys, Owed(l, key))
  }

  /** What a bet has moved so far: its stake out, its payout or refund in. */
  function Flow(l: L.Ledger, bet: Bet, key: string): real {
    if L.WalletKey(bet.user, bet.currency) != key then 0.0
    else (if PaidOut(l, bet) then bet.payout else 0.0) + (if Refunded(l, bet) then bet.stake else 0.0)
         - (if Debited(l, bet) then bet.stake else 0.0)
  }

  ghost function Flows(w: World, key: string): string -> real {
    (id: string) => if id in w.bets then Flow(w.wallet, w.bets[id], key) else 0.0
  }

  ghost function BetFlow(w: World, key: string): real {
    SumOver(w.bets.Keys, Flows(w, key))
  }

  ghost predicate Conserved(refs: map<string, string>, w: World, key: string) {
    Balance(w.wallet, key)
    == Deposited(w.wallet.rows, |w.wallet.rows|, key) - Withdrawn(w.wallet, key)
       - Drawn(Known(refs, w.wallet), w.wallet.rows, |w.wallet.rows|, key) + BetFlow(w, key)
  }

  lemma {:induction false} DrawnFrame(known: set<string>, a: seq<L.Row>, b: seq<L.Row>, n: nat, key: string)
    requires n <= |a| && n <= |b| && forall i | 0 <= i < n :: SameRow(a[i], b[i])
    ensures Drawn(known, a, n, key) == Drawn(known, b, n, key)
  {
    if n > 0 {
      assert SameRow(a[n - 1], b[n - 1]);
      DrawnFrame(known, a, b, n - 1, key);
    }
  }

  /** A reference no debit row carries may become known. */
  lemma {:induction false} DrawnWider(known: set<string>, id: string, rows: seq<L.Row>, n: nat, key: string)
    requires n <= |rows| && forall i | 0 <= i < n :: rows[i].kind == L.Withdrawal ==> rows[i].reference != id
    ensures Drawn(known + {id}, rows, n, key) == Drawn(known, rows, n, key)
  {
    if n > 0 { DrawnWider(known, id, rows, n - 1, key); }
  }

  lemma {:induction false} DepositedFrame(a: seq<L.Row>, b: seq<L.Row>, n: nat, key: string)
    requires n <= |a| && n <= |b| && forall i | 0 <= i < n :: SameRow(a[i], b[i])
    ensures Deposited(a, n, key) == Deposited(b, n, key)
  {
    if n > 0 {
      assert SameRow(a[n - 1], b[n - 1]);
      DepositedFrame(a, b, n - 1, key);
    }
  }

  lemma PostFlow(known: set<string>, l: L.Ledger, user: string, currency: string, kind: L.Kind, amount: real,
                 status: L.RowStatus, reference: string, indexed: bool, key: string)
    requires L.WalletKey(user, currency) in l.wallets
    ensures var l' := L.Post(l, user, currency, kind, amount, status, reference, indexed);
            var mine := key == L.WalletKey(user, currency);
            && Balance(l', key) == Balance(l, key) + (if mine then L.Signed(kind, amount) else 0.0)
            && Deposited(l'.rows, |l'.rows|, key) == Deposited(l.rows, |l.rows|, key)
                 + (if mine && kind == L.Deposit && !Reserved(reference) then amount else 0.0)
            && Drawn(known, l'.rows, |l'.rows|, key) == Drawn(known, l.rows, |l.rows|, key)
                 + (if mine && kind == L.Withdrawal && reference !in known then amount else 0.0)
  {
    var l' := L.Post(l, user, currency, kind, amount, status, reference, indexed);
    DepositedFrame(l.rows, l'.rows, |l.rows|, key);
    DrawnFrame(known, l.rows, l'.rows, |l.rows|, key);
  }

  /** Balance, less deposits, plus withdrawals and other debits: what is left is the bets' business. */
  ghost function Rest(refs: map<string, string>, l: L.Ledger, key: string): real {
    Balance(l, key) - Deposited(l.rows, |l.rows|, key) + Withdrawn(l, key)
    + Drawn(Known(refs, l), l.rows, |l.rows|, key)
  }

  lemma OpenFlow(refs: map<string, string>, l: L.Ledger, user: string, currency: string, key: string)
    ensures var l' := L.OpenWallet(l, user, currency);
            Balance(l', key) == Balance(l, key) && Rest(refs, l', key) == Rest(refs, l, key)
  {
    SumSame(l.requests.Keys, Owed(l, key), Owed(L.OpenWallet(l, user, currency), key));
  }

  lemma CreditFlow(refs: map<string, string>, l: L.Ledger, user: string, currency: string, amount: Text,
                   reference: string, key: string)
    ensures var l' := L.Credit(l, user, currency, amount, reference).ledger;
            Rest(refs, l', key) == Rest(refs, l, key)
              + if L.Recorded(l, reference) || amount.Malformed? || !Reserved(reference)
                   || key != L.WalletKey(user, currency)
                then 0.0 else amount.value
  {
    OpenFlow(refs, l, user, currency, key);
    if !L.Recorded(l, reference) && amount.Number? {
      var ready := L.OpenWallet(l, user, currency);
      PostFlow(Known(refs, l), ready, user, currency, L.Deposit, amount.value, L.Completed, reference,
               reference != "", key);
      SumSame(l.requests.Keys, Owed(ready, key), Owed(L.Credit(l, user, currency, amount, reference).ledger, key));
    }
  }

  /** Only a stake leaves something to account for; another debit is drawn. */
  lemma DebitFlow(refs: map<string, string>, l: L.Ledger, user: string, currency: string, amount: Text,
                  reference: string, key: string)
    requires Good(l)
    ensures var debited := L.Debit(l, user, currency, amount, reference);
            Rest(refs, debited.ledger, key) == Rest(refs, l, key)
              - if L.Recorded(l, reference) || debited.reply.Refused? || key != L.WalletKey(user, currency)
                   || reference !in refs
                then 0.0 else amount.value
  {
    var debited := L.Debit(l, user, currency, amount, reference);
    if !L.Recorded(l, reference) && !debited.reply.Refused? {
      RequestsAreRecorded(l);
      assert reference in l.requests ==> RefIndexed(l, reference);
      PostFlow(Known(refs, l), l, user, currency, L.Withdrawal, amount.value, L.Completed, reference,
               reference != "", key);
      SumSame(l.requests.Keys, Owed(l, key), Owed(debited.ledger, key));
    }
  }

  lemma NobodyCarries(l: L.Ledger, id: string)
    requires Good(l) && id != "" && id !in l.byRef
    ensures id !in l.requests
    ensures forall i | 0 <= i < |l.rows| :: l.rows[i].kind == L.Withdrawal ==> l.rows[i].reference != id
  {
    RequestsAreRecorded(l);
    forall i | 0 <= i < |l.rows| ensures l.rows[i].kind == L.Withdrawal ==> l.rows[i].reference != id {
      assert RowIndexed(l, i);
    }
  }

  lemma WithdrawFlow(refs: map<string, string>, l: L.Ledger, user: string, currency: string, amount: Text, id: string,
                     key: string)
    requires Good(l) && id != "" && id !in l.byRef
    ensures Rest(refs, L.Withdraw(l, user, currency, amount, id).ledger, key) == Rest(refs, l, key)
  {
    NobodyCarries(l, id);
    if L.WalletKey(user, currency) in l.wallets && amount.Number?
       && l.wallets[L.WalletKey(user, currency)].balance >= amount.value {
      DrawnWider(Known(refs, l), id, l.rows, |l.rows|, key);
      PostFlow(Known(refs, l) + {id}, l, user, currency, L.Withdrawal, amount.value, L.Pending, id, true, key);
      RequestFlow(refs, l, L.Withdraw(l, user, currency, amount, id).ledger, user, currency, amount.value, id, key);
    }
  }

  lemma RequestFlow(refs: map<string, string>, l: L.Ledger, l': L.Ledger, user: string, currency: string, amount: real,
                    id: string, key: string)
    requires id !in l.requests
    requires l'.requests
             == l.requests[id := L.Request(user, L.WalletKey(user, currency), currency, amount, L.Awaiting)]
    ensures Known(refs, l') == Known(refs, l) + {id}
    ensures Withdrawn(l', key)
            == Withdrawn(l, key) + if key == L.WalletKey(user, currency) then amount else 0.0
  {
    assert l'.requests.Keys == l.requests.Keys + {id};
    SumInsert(l.requests.Keys, Owed(l, key), Owed(l', key), id);
  }

  lemma MarkFlow(known: set<string>, l: L.Ledger, id: string, status: L.RowStatus, key: string)
    ensures var l' := L.Mark(l, id, status);
            Balance(l', key) == Balance(l, key)
            && Deposited(l'.rows, |l'.rows|, key) == Deposited(l.rows, |l.rows|, key)
            && Drawn(known, l'.rows, |l'.rows|, key) == Drawn(known, l.rows, |l.rows|, key)
  {
    DepositedFrame(l.rows, L.Mark(l, id, status).rows, |l.rows|, key);
    DrawnFrame(known, l.rows, L.Mark(l, id, status).rows, |l.rows|, key);
  }

  lemma ApprovalFlow(refs: map<string, string>, l: L.Ledger, id: string, key: string)
    requires Good(l)
    ensures Rest(refs, L.Approve(l, id).ledger, key) == Rest(refs, l, key)
  {
    var l' := L.Approve(l, id).ledger;
    if l' != l {
      assert RequestMatched(l, id);
      assert l'.requests.Keys == l.requests.Keys;
      SumChange(l.requests.Keys, Owed(l, key), Owed(l', key), id);
      MarkFlow(Known(refs, l), l.(requests := l'.requests), id, L.Completed, key);
    }
  }

  lemma RejectionFlow(refs: map<string, string>, l: L.Ledger, id: string, key: string)
    requires Good(l)
    ensures Rest(refs, L.Reject(l, id).ledger, key) == Rest(refs, l, key)
  {
    var l' := L.Reject(l, id).ledger;
    if l' != l {
      assert RequestMatched(l, id);
      assert l'.requests.Keys == l.requests.Keys;
      SumChange(l.requests.Keys, Owed(l, key), Owed(l', key), id);
      ReversalFlow(Known(refs, l), l, id, l.requests[id], l'.requests, key);
    }
  }

  lemma ReversalFlow(known: set<string>, l: L.Ledger, id: string, req: L.Request, requests: map<string, L.Request>,
                     key: string)
    requires L.WalletKey(req.user, req.currency) in l.wallets
    ensures var noted := L.Mark(l.(requests := requests), id, L.Reversed);
            var l' := L.Post(noted, req.user, req.currency, L.Adjustment, req.amount, L.Completed, id + L.REVERSAL,
                             false);
            && Balance(l', key)
               == Balance(l, key) + (if key == L.WalletKey(req.user, req.currency) then req.amount else 0.0)
            && Deposited(l'.rows, |l'.rows|, key) == Deposited(l.rows, |l.rows|, key)
            && Drawn(known, l'.rows, |l'.rows|, key) == Drawn(known, l.rows, |l.rows|, key)
  {
    var noted := l.(requests := requests);
    MarkFlow(known, noted, id, L.Reversed, key);
    PostFlow(known, L.Mark(noted, id, L.Reversed), req.user, req.currency, L.Adjustment, req.amount, L.Completed,
             id + L.REVERSAL, false, key);
  }

  /** Foreign wallet traffic moves a balance exactly by what it deposits, withdraws and draws. */
  lemma ExternalFlow(refs: map<string, string>, l: L.Ledger, op: L.Op, key: string)
    requires Good(l) && L.Admits(l, op) && (op.CreditOp? || op.DebitOp? ==> Foreign(refs, op.reference))
    ensures Rest(refs, L.Apply(l, op), key) == Rest(refs, l, key)
  {
    match op
    case OpenOp(user, currency) => OpenFlow(refs, l, user, currency, key);
    case CreditOp(user, currency, amount, reference) => CreditFlow(refs, l, user, currency, amount, reference, key);
    case DebitOp(user, currency, amount, reference) => DebitFlow(refs, l, user, currency, amount, reference, key);
    case WithdrawOp(user, currency, amount, id) => WithdrawFlow(refs, l, user, currency, amount, id, key);
    case ApproveOp(id) => ApprovalFlow(refs, l, id, key);
    case RejectOp(id) => RejectionFlow(refs, l, id, key);
  }

  /** The bet sums agree when every bet has moved the same. */
  lemma FlowFrame(w: World, w': World, key: string)
    requires w'.bets.Keys == w.bets.Keys
    requires forall id | id in w.bets :: Flow(w'.wallet, w'.bets[id], key) == Flow(w.wallet, w.bets[id], key)
    ensures BetFlow(w', key) == BetFlow(w, key)
  {
    SumSame(w.bets.Keys, Flows(w, key), Flows(w', key));
  }

  lemma ExternalConserves(refs: map<string, string>, w: World, op: L.Op, key: string)
    requires Consistent(refs, w) && Allowed(refs, w, External(op)) && Conserved(refs, w, key)
    ensures Conserved(refs, Step(w, External(op)), key)
  {
    var w' := Step(w, External(op));
    ExternalFlow(refs, w.wallet, op, key);
    ApplyGrows(w.wallet, op);
    forall id | id in w.bets ensures Flow(w'.wallet, w'.bets[id], key) == Flow(w.wallet, w.bets[id], key) {
      ForeignFlow(refs, w, w'.wallet, ReferenceOf(op), id, key);
    }
    FlowFrame(w, w', key);
  }

  lemma ForeignFlow(refs: map<string, string>, w: World, l': L.Ledger, r: string, id: string, key: string)
    requires WellChosen(refs) && BetsOk(refs, w) && id in w.bets && (r == "" || Foreign(refs, r))
    requires Grows(w.wallet, l', r)
    ensures Flow(l', w.bets[id], key) == Flow(w.wallet, w.bets[id], key)
  {
    ForeignToBet(refs, w, r, id);
    BetFrame(refs, w.wallet, l', r, w.bets[id]);
  }

  lemma ForeignToBet(refs: map<string, string>, w: World, r: string, id: string)
    requires WellChosen(refs) && BetsOk(refs, w) && id in w.bets && (r == "" || Foreign(refs, r))
    ensures var own := w.bets[id].reference; r != own && r != WinReference(own) && r != RefundReference(own)
    ensures BetOk(refs, w.wallet, w.bets[id])
  {
    var own := w.bets[id].reference;
    assert BetOk(refs, w.wallet, w.bets[id]);
    assert Reserved(WinReference(own)) && Reserved(RefundReference(own));
  }

  /** What a bet's first movement of a kind changes beside deposits and withdrawals. */
  function Movement(bet: Bet, proc: Proc, key: string): real
    requires proc.Debiting? || proc.Crediting?
  {
    if key != L.WalletKey(bet.user, bet.currency) then 0.0
    else if proc.Debiting? then -bet.stake else CreditAmount(bet, proc.verdict)
  }

  lemma MovementRest(refs: map<string, string>, w: World, op: L.Op, id: string, proc: Proc, key: string)
    requires Good(w.wallet) && Moves(w, op, id, proc) && ReferenceOf(op) !in w.wallet.byRef
    requires w.bets[id].reference in refs
    ensures Rest(refs, L.Apply(w.wallet, op), key) == Rest(refs, w.wallet, key) + Movement(w.bets[id], proc, key)
  {
    var bet := w.bets[id];
    if proc.Debiting? {
      DebitFlow(refs, w.wallet, bet.user, bet.currency, Number(bet.stake), bet.reference, key);
    } else {
      assert Reserved(ReferenceOf(op));
      CreditFlow(refs, w.wallet, bet.user, bet.currency, op.amount, ReferenceOf(op), key);
    }
  }

  lemma RecordedMovement(w: World, op: L.Op, id: string, proc: Proc)
    requires Moves(w, op, id, proc) && ReferenceOf(op) in w.wallet.byRef && ReferenceOf(op) != ""
    ensures L.Apply(w.wallet, op) == w.wallet
  {
  }

  lemma MovementFlow(refs: map<string, string>, w: World, w': World, op: L.Op, id: string, proc: Proc, key: string)
    requires Consistent(refs, w) && ProcOk(refs, w, proc) && Moves(w, op, id, proc)
    requires w' == w.(wallet := L.Apply(w.wallet, op)) && ReferenceOf(op) !in w.wallet.byRef
    ensures BetFlow(w', key) == BetFlow(w, key) + Movement(w.bets[id], proc, key)
  {
    OthersUnmoved(refs, w, w', op, id, key);
    OwnMovement(refs, w, w', op, id, proc, key);
    SumChange(w.bets.Keys, Flows(w, key), Flows(w', key), id);
  }

  lemma ConservedAlong(refs: map<string, string>, w: World, w': World, moved: real, key: string)
    requires Conserved(refs, w, key)
    requires Rest(refs, w'.wallet, key) == Rest(refs, w.wallet, key) + moved
    requires BetFlow(w', key) == BetFlow(w, key) + moved
    ensures Conserved(refs, w', key)
  {
  }

  lemma MovementConserves(refs: map<string, string>, w: World, pid: nat, op: L.Op, id: string, key: string)
    requires Consistent(refs, w) && pid in w.procs && Moves(w, op, id, w.procs[pid]) && Conserved(refs, w, key)
    ensures Conserved(refs, w.(wallet := L.Apply(w.wallet, op)), key)
  {
    var proc := w.procs[pid];
    var w' := w.(wallet := L.Apply(w.wallet, op));
    assert ProcOk(refs, w, proc);
    assert BetOk(refs, w.wallet, w.bets[id]);
    if ReferenceOf(op) in w.wallet.byRef {
      RecordedMovement(w, op, id, proc);
    } else {
      MovementRest(refs, w, op, id, proc, key);
      MovementFlow(refs, w, w', op, id, proc, key);
      ConservedAlong(refs, w, w', Movement(w.bets[id], proc, key), key);
    }
  }

  lemma OthersUnmoved(refs: map<string, string>, w: World, w': World, op: L.Op, id: string, key: string)
    requires Consistent(refs, w) && id in w.bets && L.Admits(w.wallet, op) && w' == w.(wallet := L.Apply(w.wallet, op))
    requires var own := w.bets[id].reference;
             ReferenceOf(op) == own || ReferenceOf(op) == WinReference(own) || ReferenceOf(op) == RefundReference(own)
    ensures forall other | other in w.bets && other != id ::
              Flow(w'.wallet, w.bets[other], key) == Flow(w.wallet, w.bets[other], key)
  {
    ApplyGrows(w.wallet, op);
    assert BetOk(refs, w.wallet, w.bets[id]);
    forall other | other in w.bets && other != id
      ensures Flow(w'.wallet, w.bets[other], key) == Flow(w.wallet, w.bets[other], key)
    {
      assert BetOk(refs, w.wallet, w.bets[other]);
      ReferencesDiffer(refs, w.bets[id].reference, w.bets[other].reference);
      ReferencesDiffer(refs, w.bets[other].reference, w.bets[id].reference);
      BetFrame(refs, w.wallet, w'.wallet, ReferenceOf(op), w.bets[other]);
    }
  }

  lemma OwnMovement(refs: map<string, string>, w: World, w': World, op: L.Op, id: string, proc: Proc, key: string)
    requires Consistent(refs, w) && ProcOk(refs, w, proc) && Moves(w, op, id, proc)
    requires w' == w.(wallet := L.Apply(w.wallet, op)) && ReferenceOf(op) !in w.wallet.byRef
    ensures var bet := w.bets[id];
            Flow(w'.wallet, bet, key) == Flow(w.wallet, bet, key) + Movement(bet, proc, key)
  {
    var bet := w.bets[id];
    assert BetOk(refs, w.wallet, bet);
    ReferencesDiffer(refs, bet.reference, bet.reference);
    ApplyGrows(w.wallet, op);
    MovedBets(refs, w, w', op, id, proc);
  }

  lemma CreateConserves(refs: map<string, string>, w: World, bet: Bet, key: string)
    requires NoBetNoMoney(refs, w) && Conserved(refs, w, key) && bet.id !in w.bets && bet.reference in refs
    requires forall id | id in w.bets :: w.bets[id].reference != bet.reference
    ensures Conserved(refs, w.(bets := w.bets[bet.id := bet]), key)
  {
    var w' := w.(bets := w.bets[bet.id := bet]);
    UntouchedReference(refs, w, bet.reference);
    assert Flow(w.wallet, bet, key) == 0.0;
    assert w'.bets.Keys == w.bets.Keys + {bet.id};
    assert Flows(w', key)(bet.id) == 0.0;
    forall id | id in w.bets.Keys ensures Flows(w, key)(id) == Flows(w', key)(id) {}
    SumInsert(w.bets.Keys, Flows(w, key), Flows(w', key), bet.id);
  }

  /** Neither the processes nor the status columns enter the books. */
  lemma QuietConserves(refs: map<string, string>, w: World, w': World, key: string)
    requires Conserved(refs, w, key) && w'.wallet == w.wallet && w'.bets.Keys == w.bets.Keys
    requires forall id | id in w.bets :: SameTerms(w.bets[id], w'.bets[id])
    ensures Conserved(refs, w', key)
  {
    forall id | id in w.bets ensures Flow(w'.wallet, w'.bets[id], key) == Flow(w.wallet, w.bets[id], key) {
      assert SameTerms(w.bets[id], w'.bets[id]);
    }
    FlowFrame(w, w', key);
  }

  lemma AdvanceKeepsTerms(w: World, pid: nat, input: Input)
    requires pid in w.procs && !w.procs[pid].Creating?
    ensures var w' := Next(w, pid, input);
            w'.bets.Keys == w.bets.Keys && forall id | id in w.bets :: SameTerms(w.bets[id], w'.bets[id])
  {
    var proc := w.procs[pid];
    if proc.Cancelling? || proc.Finalising? { PlacementKeepsTerms(w, pid, input); }
    else if proc.Marking? || proc.Recording? { SettlementKeepsTerms(w, pid, input); }
    else { QuietKeepsBets(w, pid, input); }
  }

  lemma QuietKeepsBets(w: World, pid: nat, input: Input)
    requires pid in w.procs && !w.procs[pid].Creating? && !w.procs[pid].Cancelling? && !w.procs[pid].Finalising?
    requires !w.procs[pid].Marking? && !w.procs[pid].Recording?
    ensures Next(w, pid, input).bets == w.bets
  {
  }

  lemma PlacementKeepsTerms(w: World, pid: nat, input: Input)
    requires pid in w.procs && (w.procs[pid].Cancelling? || w.procs[pid].Finalising?)
    ensures var w' := Next(w, pid, input);
            w'.bets.Keys == w.bets.Keys && forall id | id in w.bets :: SameTerms(w.bets[id], w'.bets[id])
  {
  }

  lemma SettlementKeepsTerms(w: World, pid: nat, input: Input)
    requires pid in w.procs && (w.procs[pid].Marking? || w.procs[pid].Recording?)
    ensures var w' := Next(w, pid, input);
            w'.bets.Keys == w.bets.Keys && forall id | id in w.bets :: SameTerms(w.bets[id], w'.bets[id])
  {
  }

  lemma CreatingConserves(refs: map<string, string>, w: World, pid: nat, input: Input, key: string)
    requires Consistent(refs, w) && Allowed(refs, w, Advance(pid, input)) && Conserved(refs, w, key)
    requires w.procs[pid].Creating?
    ensures Conserved(refs, Next(w, pid, input), key)
  {
    var w' := Next(w, pid, input);
    var order := w.procs[pid].order;
    assert ProcOk(refs, w, w.procs[pid]);
    if w'.bets == w.bets {
      QuietConserves(refs, w, w', key);
    } else {
      forall other | other in w.bets ensures w.bets[other].reference != order.reference {
        assert BetOk(refs, w.wallet, w.bets[other]);
      }
      CreateConserves(refs, w, NewBet(order, w.procs[pid].odds, input.id, input.now), key);
      QuietConserves(refs, w.(bets := w'.bets), w', key);
    }
  }

  function PaymentOf(proc: Proc): L.Op
    requires proc.Debiting? || proc.Crediting?
  {
    if proc.Debiting?
    then L.DebitOp(proc.order.user, proc.order.currency, Number(proc.order.stake), proc.order.reference)
    else L.CreditOp(proc.bet.user, proc.bet.currency, Number(CreditAmount(proc.bet, proc.verdict)),
                    CreditReference(proc.bet, proc.verdict))
  }

  /** Only a debit or a credit of a bet touches the wallet. */
  lemma WhoMovesMoney(refs: map<string, string>, w: World, pid: nat, input: Input)
    requires pid in w.procs && ProcOk(refs, w, w.procs[pid]) && Next(w, pid, input).wallet != w.wallet
    ensures w.procs[pid].Debiting? || w.procs[pid].Crediting?
    ensures Next(w, pid, input).wallet == L.Apply(w.wallet, PaymentOf(w.procs[pid]))
    ensures Next(w, pid, input).bets == w.bets
    ensures Moves(w, PaymentOf(w.procs[pid]),
                  if w.procs[pid].Debiting? then w.procs[pid].id else w.procs[pid].bet.id, w.procs[pid])
  {
  }

  lemma AdvanceConserves(refs: map<string, string>, w: World, pid: nat, input: Input, key: string)
    requires Consistent(refs, w) && Allowed(refs, w, Advance(pid, input)) && Conserved(refs, w, key)
    ensures Conserved(refs, Next(w, pid, input), key)
  {
    var proc := w.procs[pid];
    var w' := Next(w, pid, input);
    if proc.Creating? {
      CreatingConserves(refs, w, pid, input, key);
    } else if w'.wallet != w.wallet {
      assert ProcOk(refs, w, proc);
      WhoMovesMoney(refs, w, pid, input);
      MovementConserves(refs, w, pid, PaymentOf(proc), if proc.Debiting? then proc.id else proc.bet.id, key);
      QuietConserves(refs, w.(wallet := w'.wallet), w', key);
    } else {
      AdvanceKeepsTerms(w, pid, input);
      QuietConserves(refs, w, w', key);
    }
  }

  lemma StepConserves(refs: map<string, string>, w: World, a: Action, key: string)
    requires Consistent(refs, w) && Allowed(refs, w, a) && Conserved(refs, w, key)
    ensures Conserved(refs, Step(w, a), key)
  {
    match a
    case Begin(pid, proc) => QuietConserves(refs, w, Step(w, a), key);
    case External(op) => ExternalConserves(refs, w, op, key);
    case Advance(pid, input) => AdvanceConserves(refs, w, pid, input, key);
  }

  lemma {:induction false} RunConserves(refs: map<string, string>, w: World, actions: seq<Action>, key: string)
    requires Consistent(refs, w) && AllowedAll(refs, w, actions) && Conserved(refs, w, key)
    ensures Conserved(refs, Exec(w, actions), key)
    decreases |actions|
  {
    if actions != [] {
      StepKeeps(refs, w, actions[0]);
      StepConserves(refs, w, actions[0], key);
      RunConserves(refs, Step(w, actions[0]), actions[1..], key);
    }
  }

  /** After any run each balance is the deposits, less the withdrawals that were not rejected, less the other debits
      and the stakes taken, plus the payouts and refunds made. */
  lemma EveryRunConserves(refs: map<string, string>, actions: seq<Action>, key: string)
    requires WellChosen(refs) && AllowedAll(refs, START, actions)
    ensures Conserved(refs, Exec(START, actions), key)
  {
    RunConserves(refs, START, actions, key);
  }

  // ---- No balance below zero --------------------------------------------------------------------------------

  /** The gateway let the wallet traffic through, and the feed's odds are not negative. */
  ghost predicate Decent(a: Action) {
    match a
    case External(op) => Limits.Gated(op)
    case Advance(_, input) => input.odds.Some? ==> input.odds.value >= 0.0
    case Begin(_, _) => true
  }

  ghost predicate Solvent(w: World) {
    && NonNegative(w.wallet)
    && (forall id | id in w.bets :: w.bets[id].payout >= 0.0)
    && (forall p | p in w.procs && w.procs[p].Creating? :: w.procs[p].odds >= 0.0)
  }

  lemma ProductNonNegative(a: real, b: real)
    requires a >= 0.0 && b >= 0.0
    ensures a * b >= 0.0
  {
  }

  lemma StepKeepsWalletNonNegative(refs: map<string, string>, w: World, a: Action)
    requires Consistent(refs, w) && Allowed(refs, w, a) && Solvent(w) && Decent(a)
    ensures NonNegative(Step(w, a).wallet)
  {
    match a
    case Begin(pid, proc) =>
    case External(op) =>
      assert Sound(op);
      StepKeepsNonNegative(w.wallet, op);
    case Advance(pid, input) =>
      assert ProcOk(refs, w, w.procs[pid]);
      if Next(w, pid, input).wallet != w.wallet {
        WhoMovesMoney(refs, w, pid, input);
        PaymentKeepsNonNegative(refs, w, w.procs[pid]);
      }
  }

  lemma PaymentKeepsNonNegative(refs: map<string, string>, w: World, proc: Proc)
    requires ProcOk(refs, w, proc) && BetsOk(refs, w) && Good(w.wallet) && Solvent(w)
    requires proc.Debiting? || proc.Crediting?
    ensures NonNegative(L.Apply(w.wallet, PaymentOf(proc)))
  {
    if proc.Crediting? { assert w.bets[proc.bet.id].payout >= 0.0 && BetOk(refs, w.wallet, w.bets[proc.bet.id]); }
    StepKeepsNonNegative(w.wallet, PaymentOf(proc));
  }

  lemma CreatingKeepsPayouts(w: World, pid: nat, input: Input)
    requires Solvent(w) && pid in w.procs && w.procs[pid].Creating? && w.procs[pid].order.stake > 0.0
    ensures forall id | id in Next(w, pid, input).bets :: Next(w, pid, input).bets[id].payout >= 0.0
  {
    ProductNonNegative(w.procs[pid].order.stake, w.procs[pid].odds);
  }

  lemma StepKeepsPayouts(refs: map<string, string>, w: World, a: Action)
    requires Consistent(refs, w) && Allowed(refs, w, a) && Solvent(w) && Decent(a)
    ensures forall id | id in Step(w, a).bets :: Step(w, a).bets[id].payout >= 0.0
  {
    if a.Advance? {
      var proc := w.procs[a.pid];
      assert ProcOk(refs, w, proc);
      if proc.Creating? {
        CreatingKeepsPayouts(w, a.pid, a.input);
      } else {
        AdvanceKeepsTerms(w, a.pid, a.input);
        forall id | id in w.bets ensures Step(w, a).bets[id].payout >= 0.0 {
          assert SameTerms(w.bets[id], Next(w, a.pid, a.input).bets[id]);
        }
      }
    }
  }

  lemma StepKeepsOdds(w: World, a: Action)
    requires Solvent(w) && Decent(a) && (a.Begin? ==> !a.proc.Creating?)
    ensures forall p | p in Step(w, a).procs && Step(w, a).procs[p].Creating? :: Step(w, a).procs[p].odds >= 0.0
  {
  }

  lemma StepStaysSolvent(refs: map<string, string>, w: World, a: Action)
    requires Consistent(refs, w) && Allowed(refs, w, a) && Solvent(w) && Decent(a)
    ensures Solvent(Step(w, a))
  {
    StepKeepsWalletNonNegative(refs, w, a);
    StepKeepsPayouts(refs, w, a);
    StepKeepsOdds(w, a);
  }

  lemma {:induction false} NoBalanceBelowZero(refs: map<string, string>, w: World, actions: seq<Action>)
    requires Consistent(refs, w) && AllowedAll(refs, w, actions) && Solvent(w)
    requires forall a | a in actions :: Decent(a)
    ensures NonNegative(Exec(w, actions).wallet)
    decreases |actions|
  {
    if actions != [] {
      StepKeeps(refs, w, actions[0]);
      StepStaysSolvent(refs, w, actions[0]);
      NoBalanceBelowZero(refs, Step(w, actions[0]), actions[1..]);
    }
  }

  /** No run from empty stores takes a balance below zero. */
  lemma NoRunGoesBelowZero(refs: map<string, string>, actions: seq<Action>)
    requires WellChosen(refs) && AllowedAll(refs, START, actions) && forall a | a in actions :: Decent(a)
    ensures forall key | key in Exec(START, actions).wallet.wallets ::
              Exec(START, actions).wallet.wallets[key].balance >= 0.0
  {
    StartIsConsistent(refs);
    NoBalanceBelowZero(refs, START, actions);
  }
}
