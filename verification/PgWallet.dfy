/**
  The Postgres wallet store as interleaved transactions under READ COMMITTED.
  A step is one SQL statement or the commit. Uncommitted writes are visible to nobody else, so a transaction keeps
  them in its own phase until it commits. A statement waits while another transaction holds the row lock or has an
  uncommitted row under the same unique key. A statement that fails ends its transaction without effect, which
  includes an insert that violates uniqueness: the read the code tries afterwards fails in the aborted transaction.
*/
module PgWallet {
  import opened Basics
  import opened Ledger

  datatype Ending = Committed(reply: Reply) | RolledBack | Conflict

  datatype Phase =
    | Begun                               // about to look up the reference, or to update the request
    | Seeking                             // about to SELECT the wallet FOR UPDATE
    | Inserting                           // about to INSERT the missing wallet
    | Updating(read: Wallet, isNew: bool) // about to UPDATE the wallet WHERE version matches
    | Logging(read: Wallet, isNew: bool)  // about to INSERT the transaction row
    | Ready(read: Wallet, isNew: bool)    // about to COMMIT a balance change
    | Replaying(index: nat)               // about to COMMIT after finding the reference
    | Approving                           // about to UPDATE the transaction of an approved request
    | Accepted                            // about to COMMIT an approval
    | Ended(ending: Ending)

  /** `request` is the withdrawal request the transaction has updated, as it read it. */
  datatype Tx = Tx(op: Op, phase: Phase, request: Option<Request>)

  datatype Entry = Entry(op: Op, reply: Reply)

  /** `log` lists the committed operations in commit order. */
  datatype Db = Db(committed: Ledger, txs: map<nat, Tx>, log: seq<Entry>)

  // ---- What a transaction holds -----------------------------------------------------------------------------

  function KeyOf(tx: Tx): string {
    match tx.op
    case CreditOp(user, currency, _, _) => WalletKey(user, currency)
    case DebitOp(user, currency, _, _) => WalletKey(user, currency)
    case WithdrawOp(user, currency, _, _) => WalletKey(user, currency)
    case _ => if tx.request.Some? then tx.request.value.wallet else ""
  }

  /** The reference the transaction inserts; empty for none. */
  function RefOf(op: Op): string {
    match op
    case CreditOp(_, _, _, reference) => reference
    case DebitOp(_, _, _, reference) => reference
    case WithdrawOp(_, _, _, id) => id
    case RejectOp(id) => id + REVERSAL
    case _ => ""
  }

  predicate HasWallet(tx: Tx) { tx.phase.Updating? || tx.phase.Logging? || tx.phase.Ready? }

  predicate HasReference(tx: Tx) { tx.phase.Ready? && RefOf(tx.op) != "" }

  predicate HasRequest(tx: Tx) { tx.request.Some? && !tx.phase.Ended? }

  ghost predicate WalletTaken(db: Db, pid: nat, key: string) {
    exists p :: p in db.txs && p != pid && HasWallet(db.txs[p]) && KeyOf(db.txs[p]) == key
  }

  ghost predicate ReferenceTaken(db: Db, pid: nat, reference: string) {
    exists p :: p in db.txs && p != pid && HasReference(db.txs[p]) && RefOf(db.txs[p].op) == reference
  }

  predicate IsReview(op: Op) { op.ApproveOp? || op.RejectOp? }

  ghost predicate RequestTaken(db: Db, pid: nat, id: string) {
    exists p :: p in db.txs && p != pid && HasRequest(db.txs[p]) && IsReview(db.txs[p].op) && db.txs[p].op.id == id
  }

  /** The next statement has to wait for another transaction to end. */
  ghost predicate Waits(db: Db, pid: nat)
    requires pid in db.txs
  {
    var tx := db.txs[pid];
    match tx.phase
    case Begun => IsReview(tx.op) && RequestTaken(db, pid, tx.op.id)
    case Seeking => KeyOf(tx) in db.committed.wallets && WalletTaken(db, pid, KeyOf(tx))
    case Inserting => WalletTaken(db, pid, KeyOf(tx))
    case Logging(_, _) => RefOf(tx.op) != "" && ReferenceTaken(db, pid, RefOf(tx.op))
    case _ => false
  }

  // ---- Statements -------------------------------------------------------------------------------------------

  function Move(db: Db, pid: nat, phase: Phase): Db
    requires pid in db.txs
  {
    db.(txs := db.txs[pid := db.txs[pid].(phase := phase)])
  }

  function Abort(db: Db, pid: nat): Db
    requires pid in db.txs
  {
    Move(db, pid, Ended(RolledBack))
  }

  predicate Spends(op: Op) { op.DebitOp? || op.WithdrawOp? }

  function AmountOf(tx: Tx): Text {
    match tx.op
    case CreditOp(_, _, amount, _) => amount
    case DebitOp(_, _, amount, _) => amount
    case WithdrawOp(_, _, amount, _) => amount
    case _ => if tx.request.Some? then Number(tx.request.value.amount) else Malformed
  }

  function Statement(db: Db, pid: nat): Db
    requires pid in db.txs
  {
    var tx := db.txs[pid];
    var l := db.committed;
    match tx.phase
    case Begun =>
      if IsReview(tx.op) then
        if tx.op.id in l.requests && l.requests[tx.op.id].status == Awaiting then
          db.(txs := db.txs[pid := Tx(tx.op, if tx.op.ApproveOp? then Approving else Seeking,
                                      Some(l.requests[tx.op.id]))])
        else Abort(db, pid)
      else if (tx.op.CreditOp? || tx.op.DebitOp?) && Recorded(l, tx.op.reference) then
        Move(db, pid, Replaying(l.byRef[tx.op.reference]))
      else Move(db, pid, Seeking)
    case Seeking =>
      if KeyOf(tx) !in l.wallets then
        if tx.op.CreditOp? then Move(db, pid, Inserting) else Abort(db, pid)
      else
        var read := l.wallets[KeyOf(tx)];
        if Spends(tx.op) && (AmountOf(tx).Malformed? || read.balance < AmountOf(tx).value) then Abort(db, pid)
        else Move(db, pid, Updating(read, false))
    case Inserting =>
      if KeyOf(tx) in l.wallets || !tx.op.CreditOp? then Abort(db, pid)
      else Move(db, pid, Updating(Wallet(tx.op.user, tx.op.currency, 0.0, 0), true))
    case Updating(read, isNew) =>
      if AmountOf(tx).Malformed? then Abort(db, pid)
      else if !isNew && (KeyOf(tx) !in l.wallets || l.wallets[KeyOf(tx)].version != read.version) then
        Move(db, pid, Ended(Conflict))
      else Move(db, pid, Logging(read, isNew))
    case Logging(read, isNew) =>
      if RefOf(tx.op) != "" && RefOf(tx.op) in l.byRef then Abort(db, pid)
      else Move(db, pid, Ready(read, isNew))
    case Ready(read, isNew) =>
      Finish(db.(committed := Written(l, tx)), pid,
             if tx.op.CreditOp? || tx.op.DebitOp? then Txn(|l.rows|)
             else if IsReview(tx.op) || tx.op.WithdrawOp? then Req(tx.op.id) else Refused(RequestNotFound))
    case Replaying(index) => Finish(db, pid, Txn(index))
    case Approving => Move(db, pid, Accepted)
    case Accepted =>
      if tx.op.ApproveOp? && tx.request.Some? then
        Finish(db.(committed := Mark(l.(requests := l.requests[tx.op.id := tx.request.value.(status := Approved)]),
                                     tx.op.id, Completed)), pid, Req(tx.op.id))
      else db
    case Ended(_) => db
  }

  function Finish(db: Db, pid: nat, reply: Reply): Db
    requires pid in db.txs
  {
    Move(db, pid, Ended(Committed(reply))).(log := db.log + [Entry(db.txs[pid].op, reply)])
  }

  function KindOf(op: Op): Kind {
    if Spends(op) then Withdrawal else if op.CreditOp? then Deposit else Adjustment
  }

  function OwnerOf(tx: Tx): (string, string) {
    match tx.op
    case CreditOp(user, currency, _, _) => (user, currency)
    case DebitOp(user, currency, _, _) => (user, currency)
    case WithdrawOp(user, currency, _, _) => (user, currency)
    case _ => if tx.request.Some? then (tx.request.value.user, tx.request.value.currency) else ("", "")
  }

  /** The committed state with the transaction's own writes, computed from what it read. */
  function Written(l: Ledger, tx: Tx): Ledger
    requires tx.phase.Ready?
  {
    var read := tx.phase.read;
    var amount := if AmountOf(tx).Number? then AmountOf(tx).value else 0.0;
    var after := read.balance + Signed(KindOf(tx.op), amount);
    var key := KeyOf(tx);
    var owner := OwnerOf(tx);
    var row := Row(owner.0, key, owner.1, KindOf(tx.op), amount, read.balance, after,
                   if tx.op.WithdrawOp? then Pending else Completed, RefOf(tx.op));
    var reviewed :=
      if tx.op.RejectOp? && tx.request.Some?
      then Mark(l.(requests := l.requests[tx.op.id := tx.request.value.(status := Rejected)]), tx.op.id, Reversed)
      else l;
    Ledger(
      l.wallets[key := read.(balance := after, version := read.version + 1)],
      reviewed.rows + [row],
      if RefOf(tx.op) != "" then l.byRef[RefOf(tx.op) := |l.rows|] else l.byRef,
      if tx.op.WithdrawOp? then l.requests[tx.op.id := Request(owner.0, key, owner.1, amount, Awaiting)]
      else reviewed.requests)
  }

  // ---- Runs -------------------------------------------------------------------------------------------------

  datatype Action = Open(pid: nat, op: Op) | Run(pid: nat) | Fail(pid: nat)

  ghost predicate Enabled(db: Db, a: Action) {
    match a
    case Open(pid, op) => pid !in db.txs && !op.OpenOp? && (op.WithdrawOp? ==> op.id != "")
    case Run(pid) => pid in db.txs && !db.txs[pid].phase.Ended? && !Waits(db, pid)
    case Fail(pid) => pid in db.txs && !db.txs[pid].phase.Ended?
  }

  function Step(db: Db, a: Action): Db {
    match a
    case Open(pid, op) => db.(txs := db.txs[pid := Tx(op, Begun, None)])
    case Run(pid) => if pid in db.txs then Statement(db, pid) else db
    case Fail(pid) => if pid in db.txs then Abort(db, pid) else db
  }

  function Exec(db: Db, actions: seq<Action>): Db
    decreases |actions|
  {
    if actions == [] then db else Exec(Step(db, actions[0]), actions[1..])
  }

  ghost predicate EnabledAll(db: Db, actions: seq<Action>)
    decreases |actions|
  {
    actions == [] || (Enabled(db, actions[0]) && EnabledAll(Step(db, actions[0]), actions[1..]))
  }

  // ---- The sequential meaning -------------------------------------------------------------------------------

  /** As the in-memory rejection, with the reversal's reference in the unique index. */
  function RejectIndexed(l: Ledger, id: string): Outcome {
    if id + REVERSAL in l.byRef then Outcome(l, Refused(NotPending))
    else
      var rejected := Reject(l, id);
      if rejected.reply.Refused? then rejected
      else Outcome(rejected.ledger.(byRef := rejected.ledger.byRef[id + REVERSAL := |l.rows|]), rejected.reply)
  }

  function Serial(l: Ledger, op: Op): Outcome {
    match op
    case OpenOp(user, currency) => Outcome(OpenWallet(l, user, currency), Refused(RequestNotFound))
    case CreditOp(user, currency, amount, reference) => Credit(l, user, currency, amount, reference)
    case DebitOp(user, currency, amount, reference) => Debit(l, user, currency, amount, reference)
    case WithdrawOp(user, currency, amount, id) => Withdraw(l, user, currency, amount, id)
    case ApproveOp(id) => Approve(l, id)
    case RejectOp(id) => RejectIndexed(l, id)
  }

  /** Running the log one operation at a time from l0, each withdrawal under a new id, gives the same replies and ends
      in l. */
  predicate Explains(l0: Ledger, log: seq<Entry>, l: Ledger)
    decreases |log|
  {
    if log == [] then l0 == l
    else
      && Admits(l0, log[0].op) && Serial(l0, log[0].op).reply == log[0].reply
      && Explains(Serial(l0, log[0].op).ledger, log[1..], l)
  }
}
