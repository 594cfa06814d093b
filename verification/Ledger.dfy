/**
  The wallet ledger as a value, and one function per operation on it.
  Transaction ids are positions in `rows`, so a row reached through the reference index is the row itself.
  Generated ids are parameters.
*/
module Ledger {
  import opened Basics

  datatype Kind = Deposit | Withdrawal | Adjustment

  datatype RowStatus = Pending | Completed | Reversed

  datatype Row = Row(
    user: string, wallet: string, currency: string, kind: Kind,
    amount: real, before: real, after: real, status: RowStatus, reference: string)

  datatype Wallet = Wallet(user: string, currency: string, balance: real, version: nat)

  datatype Review = Awaiting | Approved | Rejected

  datatype Request = Request(user: string, wallet: string, currency: string, amount: real, status: Review)

  datatype Ledger = Ledger(
    wallets: map<string, Wallet>, rows: seq<Row>, byRef: map<string, nat>, requests: map<string, Request>)

  datatype Error = WalletNotFound | BadAmount | InsufficientBalance | RequestNotFound | NotPending

  /** A transaction (by position), a withdrawal request (by id), or an error. */
  datatype Reply = Txn(index: nat) | Req(id: string) | Refused(error: Error)

  datatype Outcome = Outcome(ledger: Ledger, reply: Reply)

  const EMPTY := Ledger(map[], [], map[], map[])

  const REVERSAL := "-reversal"

  function WalletKey(user: string, currency: string): string {
    user + ":" + currency
  }

  function OpenWallet(l: Ledger, user: string, currency: string): Ledger {
    var key := WalletKey(user, currency);
    if key in l.wallets then l else l.(wallets := l.wallets[key := Wallet(user, currency, 0.0, 0)])
  }

  function Signed(kind: Kind, amount: real): real {
    if kind == Withdrawal then -amount else amount
  }

  /** Books one row: the balance moves, the version advances, the row is appended and, if asked, indexed. */
  function Post(l: Ledger, user: string, currency: string, kind: Kind, amount: real, status: RowStatus,
                reference: string, indexed: bool): Ledger
    requires WalletKey(user, currency) in l.wallets
  {
    var key := WalletKey(user, currency);
    var w := l.wallets[key];
    var after := w.balance + Signed(kind, amount);
    l.(wallets := l.wallets[key := w.(balance := after, version := w.version + 1)],
       rows := l.rows + [Row(user, key, currency, kind, amount, w.balance, after, status, reference)],
       byRef := if indexed then l.byRef[reference := |l.rows|] else l.byRef)
  }

  predicate Recorded(l: Ledger, reference: string) {
    reference != "" && reference in l.byRef
  }

  function Credit(l: Ledger, user: string, currency: string, amount: Text, reference: string): Outcome {
    if Recorded(l, reference) then Outcome(l, Txn(l.byRef[reference]))
    else
      var ready := OpenWallet(l, user, currency);
      match amount
      case Malformed => Outcome(ready, Refused(BadAmount))
      case Number(value) =>
        Outcome(Post(ready, user, currency, Deposit, value, Completed, reference, reference != ""), Txn(|l.rows|))
  }

  function Debit(l: Ledger, user: string, currency: string, amount: Text, reference: string): Outcome {
    if Recorded(l, reference) then Outcome(l, Txn(l.byRef[reference]))
    else if WalletKey(user, currency) !in l.wallets then Outcome(l, Refused(WalletNotFound))
    else match amount
      case Malformed => Outcome(l, Refused(BadAmount))
      case Number(value) =>
        if l.wallets[WalletKey(user, currency)].balance < value then Outcome(l, Refused(InsufficientBalance))
        else
          Outcome(Post(l, user, currency, Withdrawal, value, Completed, reference, reference != ""), Txn(|l.rows|))
  }

  function Withdraw(l: Ledger, user: string, currency: string, amount: Text, id: string): Outcome {
    var key := WalletKey(user, currency);
    if key !in l.wallets then Outcome(l, Refused(WalletNotFound))
    else match amount
      case Malformed => Outcome(l, Refused(BadAmount))
      case Number(value) =>
        if l.wallets[key].balance < value then Outcome(l, Refused(InsufficientBalance))
        else
          var posted := Post(l, user, currency, Withdrawal, value, Pending, id, true);
          Outcome(posted.(requests := l.requests[id := Request(user, key, currency, value, Awaiting)]),
                  Req(id))
  }

  /** Sets the status of the row recorded under a withdrawal id. */
  function Mark(l: Ledger, id: string, status: RowStatus): Ledger {
    if id in l.byRef && l.byRef[id] < |l.rows| then
      var i := l.byRef[id];
      l.(rows := l.rows[i := l.rows[i].(status := status)])
    else l
  }

  function Approve(l: Ledger, id: string): Outcome {
    if id !in l.requests then Outcome(l, Refused(RequestNotFound))
    else if l.requests[id].status != Awaiting then Outcome(l, Refused(NotPending))
    else
      var reviewed := l.(requests := l.requests[id := l.requests[id].(status := Approved)]);
      Outcome(Mark(reviewed, id, Completed), Req(id))
  }

  function Reject(l: Ledger, id: string): Outcome {
    if id !in l.requests then Outcome(l, Refused(RequestNotFound))
    else if l.requests[id].status != Awaiting then Outcome(l, Refused(NotPending))
    else
      var req := l.requests[id];
      if WalletKey(req.user, req.currency) !in l.wallets then Outcome(l, Refused(WalletNotFound))
      else
        var reviewed := Mark(l.(requests := l.requests[id := req.(status := Rejected)]), id, Reversed);
        Outcome(Post(reviewed, req.user, req.currency, Adjustment, req.amount, Completed, id + REVERSAL, false),
                Req(id))
  }

  // ---- Runs -------------------------------------------------------------------------------------------------

  datatype Op =
    | OpenOp(user: string, currency: string)
    | CreditOp(user: string, currency: string, amount: Text, reference: string)
    | DebitOp(user: string, currency: string, amount: Text, reference: string)
    | WithdrawOp(user: string, currency: string, amount: Text, id: string)
    | ApproveOp(id: string)
    | RejectOp(id: string)

  function Apply(l: Ledger, op: Op): Ledger {
    match op
    case OpenOp(user, currency) => OpenWallet(l, user, currency)
    case CreditOp(user, currency, amount, reference) => Credit(l, user, currency, amount, reference).ledger
    case DebitOp(user, currency, amount, reference) => Debit(l, user, currency, amount, reference).ledger
    case WithdrawOp(user, currency, amount, id) => Withdraw(l, user, currency, amount, id).ledger
    case ApproveOp(id) => Approve(l, id).ledger
    case RejectOp(id) => Reject(l, id).ledger
  }

  function Run(l: Ledger, ops: seq<Op>): Ledger
    decreases |ops|
  {
    if ops == [] then l else Run(Apply(l, ops[0]), ops[1..])
  }

  /** A generated withdrawal id is new. */
  predicate Admits(l: Ledger, op: Op) {
    op.WithdrawOp? ==> op.id != "" && op.id !in l.byRef
  }

  predicate AdmitsAll(l: Ledger, ops: seq<Op>)
    decreases |ops|
  {
    ops == [] || (Admits(l, ops[0]) && AdmitsAll(Apply(l, ops[0]), ops[1..]))
  }
}
