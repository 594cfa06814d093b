/** What the ledger invariant means to an accountant, and what repeated delivery does. */
module LedgerTheorems {
  import opened Basics
  import opened Sums
  import opened Ledger
  import opened LedgerInvariant

  function Balance(l: Ledger, key: string): real {
    if key in l.wallets then l.wallets[key].balance else 0.0
  }

  /** Wallets are kept apart by user and currency as long as no currency code has a colon. */
  lemma WalletKeysDiffer(user: string, currency: string, user': string, currency': string)
    requires ':' !in currency && ':' !in currency'
    ensures WalletKey(user, currency) == WalletKey(user', currency') <==> user == user' && currency == currency'
  {
    if WalletKey(user, currency) == WalletKey(user', currency') { KeySplits(user, currency, user', currency'); }
  }

  // ---- Balances ---------------------------------------------------------------------------------------------

  lemma {:induction false} LastAfterIsSignedSum(l: Ledger, n: nat, key: string)
    requires Booked(l) && n <= |l.rows|
    ensures LastAfter(l.rows, n, key) == SignedSum(l.rows, n, key)
  {
    if n > 0 {
      assert RowBooked(l, n - 1);
      LastAfterIsSignedSum(l, n - 1, key);
    }
  }

  /** After any run from an empty store, each balance is the signed sum of that wallet's rows, and also its deposits
      less its pending and completed withdrawals; the version counts the rows. */
  lemma EveryBalanceIsExplained(ops: seq<Op>, key: string)
    requires AdmitsAll(EMPTY, ops) && key in Run(EMPTY, ops).wallets
    ensures var l := Run(EMPTY, ops);
            && l.wallets[key].balance == SignedSum(l.rows, |l.rows|, key)
            && l.wallets[key].balance == NetSum(l.rows, |l.rows|, key)
            && l.wallets[key].version == RowCount(l.rows, |l.rows|, key)
  {
    RunKeepsGood(EMPTY, ops);
    var l := Run(EMPTY, ops);
    assert WalletBooked(l, key) && WalletNetted(l, key);
    LastAfterIsSignedSum(l, |l.rows|, key);
  }

  /** Row j directly follows row i among the rows of one wallet. */
  predicate Adjacent(rows: seq<Row>, i: nat, j: nat) {
    i < j < |rows| && rows[i].wallet == rows[j].wallet
    && forall m | i < m < j :: rows[m].wallet != rows[j].wallet
  }

  lemma {:induction false} LastAfterSkips(rows: seq<Row>, i: nat, n: nat, key: string)
    requires i <= n <= |rows| && forall m | i <= m < n :: rows[m].wallet != key
    ensures LastAfter(rows, n, key) == LastAfter(rows, i, key)
  {
    if i < n { LastAfterSkips(rows, i, n - 1, key); }
  }

  /** Rows of a wallet chain: each starts where the one before it ended, the first at zero, the last ends at the
      balance. */
  lemma RowsChain(l: Ledger, i: nat, j: nat)
    requires Good(l) && j < |l.rows|
    ensures Adjacent(l.rows, i, j) ==> l.rows[j].before == l.rows[i].after
    ensures (forall m | 0 <= m < j :: l.rows[m].wallet != l.rows[j].wallet) ==> l.rows[j].before == 0.0
    ensures (forall m | j < m < |l.rows| :: l.rows[m].wallet != l.rows[j].wallet) ==>
              l.rows[j].after == Balance(l, l.rows[j].wallet)
  {
    var key := l.rows[j].wallet;
    assert RowBooked(l, j) && WalletBooked(l, key);
    if Adjacent(l.rows, i, j) { LastAfterSkips(l.rows, i + 1, j, key); }
    if forall m | 0 <= m < j :: l.rows[m].wallet != key { LastAfterSkips(l.rows, 0, j, key); }
    if forall m | j < m < |l.rows| :: l.rows[m].wallet != key { LastAfterSkips(l.rows, j + 1, |l.rows|, key); }
  }

  // ---- Reviews ----------------------------------------------------------------------------------------------

  lemma ReviewIsFinalStep(l: Ledger, op: Op, id: string)
    requires Good(l) && Admits(l, op) && id in l.requests && l.requests[id].status != Awaiting
    ensures id in Apply(l, op).requests && Apply(l, op).requests[id] == l.requests[id]
  {
    assert RequestMatched(l, id);
  }

  /** A request leaves the pending state at most once. */
  lemma {:induction false} ReviewIsFinal(l: Ledger, ops: seq<Op>, id: string)
    requires Good(l) && AdmitsAll(l, ops) && id in l.requests && l.requests[id].status != Awaiting
    ensures id in Run(l, ops).requests && Run(l, ops).requests[id] == l.requests[id]
    decreases |ops|
  {
    if ops != [] {
      ReviewIsFinalStep(l, ops[0], id);
      StepKeepsGood(l, ops[0]);
      ReviewIsFinal(Apply(l, ops[0]), ops[1..], id);
    }
  }

  /** The reversed withdrawal at position w and the adjustment at position a belong together. */
  predicate Reversal(l: Ledger, w: nat, a: nat) {
    && w < |l.rows| && a < |l.rows|
    && l.rows[w].kind == Withdrawal && l.rows[w].status == Reversed
    && Reverses(l.rows[a], l.rows[w].reference)
    && l.rows[a].amount == l.rows[w].amount && l.rows[a].wallet == l.rows[w].wallet
  }

  lemma ReversedHasAdjustment(l: Ledger, w: nat) returns (a: nat)
    requires Good(l) && w < |l.rows| && l.rows[w].status == Reversed
    ensures Reversal(l, w, a)
  {
    var id := l.rows[w].reference;
    assert OpenRowMatched(l, w) && RequestMatched(l, id) && RejectionPaired(l, id);
    a :| 0 <= a < |l.rows| && Reverses(l.rows[a], id);
    assert AdjustmentPaired(l, a) && Origin(l.rows[a].reference) == id;
  }

  lemma AdjustmentHasReversed(l: Ledger, a: nat) returns (w: nat)
    requires Good(l) && a < |l.rows| && l.rows[a].kind == Adjustment
    ensures Reversal(l, w, a)
  {
    var id := Origin(l.rows[a].reference);
    assert AdjustmentPaired(l, a) && RequestMatched(l, id) && RefIndexed(l, id);
    w := l.byRef[id];
  }

  lemma ReversalIsOneToOne(l: Ledger, w: nat, a: nat, w2: nat, a2: nat)
    requires Good(l) && Reversal(l, w, a) && Reversal(l, w2, a2)
    ensures w == w2 <==> a == a2
  {
    assert OpenRowMatched(l, w) && OpenRowMatched(l, w2);
    if a != a2 {
      assert DifferentReversals(l, if a < a2 then a else a2, if a < a2 then a2 else a);
    } else {
      assert Origin(l.rows[a].reference) == l.rows[w].reference == l.rows[w2].reference;
    }
  }

  // ---- No balance goes below zero ---------------------------------------------------------------------------

  ghost predicate NonNegative(l: Ledger) {
    && (forall k | k in l.wallets :: l.wallets[k].balance >= 0.0)
    && (forall id | id in l.requests :: l.requests[id].amount >= 0.0)
  }

  /** Credits and withdrawals of amounts that are not negative; a debit may ask for anything. */
  predicate Sound(op: Op) {
    && (op.CreditOp? && op.amount.Number? ==> op.amount.value >= 0.0)
    && (op.WithdrawOp? && op.amount.Number? ==> op.amount.value >= 0.0)
  }

  lemma StepKeepsNonNegative(l: Ledger, op: Op)
    requires NonNegative(l) && Sound(op)
    ensures NonNegative(Apply(l, op))
  {
    match op
    case OpenOp(user, currency) =>
    case CreditOp(user, currency, amount, reference) =>
    case DebitOp(user, currency, amount, reference) =>
    case WithdrawOp(user, currency, amount, id) =>
    case ApproveOp(id) =>
    case RejectOp(id) =>
  }

  lemma {:induction false} NoBalanceGoesBelowZero(l: Ledger, ops: seq<Op>)
    requires NonNegative(l) && forall op | op in ops :: Sound(op)
    ensures NonNegative(Run(l, ops))
    decreases |ops|
  {
    if ops != [] {
      StepKeepsNonNegative(l, ops[0]);
      NoBalanceGoesBelowZero(Apply(l, ops[0]), ops[1..]);
    }
  }

  // ---- At-least-once delivery -------------------------------------------------------------------------------

  /** A credit or debit whose reference is already on the books. */
  predicate Replayed(l: Ledger, op: Op) {
    (op.CreditOp? || op.DebitOp?) && Recorded(l, op.reference)
  }

  function Novel(l: Ledger, ops: seq<Op>): seq<Op>
    decreases |ops|
  {
    if ops == [] then []
    else if Replayed(l, ops[0]) then Novel(l, ops[1..])
    else [ops[0]] + Novel(Apply(l, ops[0]), ops[1..])
  }

  /** Leaving out the replayed operations changes nothing in the store. */
  lemma {:induction false} ReplaysCanBeDropped(l: Ledger, ops: seq<Op>)
    ensures Run(l, Novel(l, ops)) == Run(l, ops)
    decreases |ops|
  {
    if ops != [] {
      if Replayed(l, ops[0]) {
        ReplaysCanBeDropped(l, ops[1..]);
      } else {
        ReplaysCanBeDropped(Apply(l, ops[0]), ops[1..]);
        var kept := Novel(l, ops);
        assert kept[0] == ops[0] && kept[1..] == Novel(Apply(l, ops[0]), ops[1..]);
      }
    }
  }

  /** A validated deposit webhook. */
  datatype Webhook = Webhook(
    user: string, currency: string, chain: string, amount: Text, number: string, confirmed: bool)

  datatype Receipt = Acknowledged | UnsupportedPair | NotCredited(error: Error)

  function ProcessDeposit(l: Ledger, pairs: set<string>, hook: Webhook): (Ledger, Receipt) {
    if !hook.confirmed then (l, Acknowledged)
    else if hook.currency + ":" + hook.chain !in pairs then (l, UnsupportedPair)
    else
      var credited := Credit(l, hook.user, hook.currency, hook.amount, hook.number);
      (credited.ledger, if credited.reply.Refused? then NotCredited(credited.reply.error) else Acknowledged)
  }

  function Deliver(l: Ledger, pairs: set<string>, hooks: seq<Webhook>): Ledger
    decreases |hooks|
  {
    if hooks == [] then l else Deliver(ProcessDeposit(l, pairs, hooks[0]).0, pairs, hooks[1..])
  }

  /** Deposits that can be credited at all. */
  predicate Creditable(pairs: set<string>, hook: Webhook) {
    hook.confirmed && hook.currency + ":" + hook.chain in pairs && hook.amount.Number?
  }

  /** The distinct deposit numbers delivered that were not on the books before. */
  ghost function NewNumbers(l: Ledger, pairs: set<string>, hooks: seq<Webhook>): set<string> {
    set hook | hook in hooks && Creditable(pairs, hook) && !Recorded(l, hook.number) :: hook.number
  }

  ghost function Worth(book: map<string, Webhook>, key: string): string -> real {
    (number: string) =>
      if number in book && WalletKey(book[number].user, book[number].currency) == key && book[number].amount.Number?
      then book[number].amount.value else 0.0
  }

  /** Non-empty numbers, and one payload per number. */
  predicate OnePayload(book: map<string, Webhook>, hooks: seq<Webhook>) {
    forall hook | hook in hooks :: hook.number != "" && hook.number in book && book[hook.number] == hook
  }

  lemma DepositMovesBalance(l: Ledger, pairs: set<string>, hook: Webhook, key: string)
    ensures var moved := Creditable(pairs, hook) && !Recorded(l, hook.number)
                         && key == WalletKey(hook.user, hook.currency);
            Balance(ProcessDeposit(l, pairs, hook).0, key)
            == Balance(l, key) + if moved then hook.amount.value else 0.0
  {
  }

  lemma DepositRecords(l: Ledger, pairs: set<string>, hook: Webhook, number: string)
    requires hook.number != ""
    ensures Recorded(ProcessDeposit(l, pairs, hook).0, number)
       <==> Recorded(l, number) || (Creditable(pairs, hook) && number == hook.number)
  {
  }

  /** Taking the first delivery takes its number, and only its number, off the ones still to count. */
  lemma NewNumbersStep(l: Ledger, pairs: set<string>, hooks: seq<Webhook>, book: map<string, Webhook>)
    requires hooks != [] && OnePayload(book, hooks)
    ensures var hook := hooks[0];
            var after := NewNumbers(ProcessDeposit(l, pairs, hook).0, pairs, hooks[1..]);
            if Creditable(pairs, hook) && !Recorded(l, hook.number)
            then hook.number !in after && NewNumbers(l, pairs, hooks) == after + {hook.number}
            else NewNumbers(l, pairs, hooks) == after
  {
    var hook := hooks[0];
    var l' := ProcessDeposit(l, pairs, hook).0;
    var before, after := NewNumbers(l, pairs, hooks), NewNumbers(l', pairs, hooks[1..]);
    assert hook in hooks;
    forall number ensures number in before <==>
        number in after || (number == hook.number && Creditable(pairs, hook) && !Recorded(l, hook.number))
    {
      DepositRecords(l, pairs, hook, number);
      if number in before {
        var h :| h in hooks && Creditable(pairs, h) && !Recorded(l, h.number) && h.number == number;
        assert h == hook || h in hooks[1..];
      }
      if number in after {
        var h :| h in hooks[1..] && Creditable(pairs, h) && !Recorded(l', h.number) && h.number == number;
        assert h in hooks;
      }
    }
    DepositRecords(l, pairs, hook, hook.number);
  }

  /** Each distinct number counts exactly once, however often and in whatever order it is delivered. */
  lemma {:induction false} DeliveredExactlyOnce(
      l: Ledger, pairs: set<string>, hooks: seq<Webhook>, book: map<string, Webhook>, key: string)
    requires OnePayload(book, hooks)
    ensures Balance(Deliver(l, pairs, hooks), key)
         == Balance(l, key) + SumOver(NewNumbers(l, pairs, hooks), Worth(book, key))
    decreases |hooks|
  {
    if hooks == [] {
      assert NewNumbers(l, pairs, hooks) == {};
    } else {
      var hook := hooks[0];
      var l' := ProcessDeposit(l, pairs, hook).0;
      DeliveredExactlyOnce(l', pairs, hooks[1..], book, key);
      DepositMovesBalance(l, pairs, hook, key);
      NewNumbersStep(l, pairs, hooks, book);
      if Creditable(pairs, hook) && !Recorded(l, hook.number) {
        assert book[hook.number] == hook;
        SumInsert(NewNumbers(l', pairs, hooks[1..]), Worth(book, key), Worth(book, key), hook.number);
      }
    }
  }

  /** Deliveries of the same webhooks agree on every balance. */
  lemma OrderAndRepetitionDoNotMatter(
      l: Ledger, pairs: set<string>, a: seq<Webhook>, b: seq<Webhook>, book: map<string, Webhook>, key: string)
    requires OnePayload(book, a) && OnePayload(book, b)
    requires forall hook :: hook in a <==> hook in b
    ensures Balance(Deliver(l, pairs, a), key) == Balance(Deliver(l, pairs, b), key)
  {
    DeliveredExactlyOnce(l, pairs, a, book, key);
    DeliveredExactlyOnce(l, pairs, b, book, key);
    assert NewNumbers(l, pairs, a) == NewNumbers(l, pairs, b);
  }
}
