/** Every interleaving of wallet transactions is explained by their commit order. */
module PgInvariant {
  import opened Basics
  import opened Ledger
  import opened LedgerInvariant
  import opened PgWallet

  // ---- The invariant ----------------------------------------------------------------------------------------

  /** The unique constraint on references: here adjustment rows are indexed too. */
  ghost predicate RowUnique(l: Ledger, i: nat)
    requires i < |l.rows|
  {
    l.rows[i].reference != "" ==> l.rows[i].reference in l.byRef && l.byRef[l.rows[i].reference] == i
  }

  ghost predicate ReferencesUnique(l: Ledger) {
    forall i | 0 <= i < |l.rows| :: RowUnique(l, i)
  }

  /** A locked wallet still is what the transaction read; a wallet about to be inserted still is missing. */
  predicate WalletHeld(l: Ledger, tx: Tx, read: Wallet, isNew: bool) {
    && !tx.op.OpenOp? && !tx.op.ApproveOp? && (tx.op.RejectOp? ==> tx.request.Some?)
    && (if isNew
        then tx.op.CreditOp? && KeyOf(tx) !in l.wallets && read == Wallet(tx.op.user, tx.op.currency, 0.0, 0)
        else KeyOf(tx) in l.wallets && l.wallets[KeyOf(tx)] == read)
    && (Spends(tx.op) ==> AmountOf(tx).Number? && read.balance >= AmountOf(tx).value)
  }

  predicate RequestHeld(l: Ledger, tx: Tx) {
    tx.request.Some? ==>
      IsReview(tx.op) && tx.op.id in l.requests && l.requests[tx.op.id] == tx.request.value
      && tx.request.value.status == Awaiting
  }

  predicate PhaseOk(l: Ledger, tx: Tx) {
    match tx.phase
    case Begun => tx.request.None?
    case Seeking => !tx.op.ApproveOp? && (tx.op.RejectOp? ==> tx.request.Some?)
    case Inserting => tx.op.CreditOp?
    case Updating(read, isNew) => WalletHeld(l, tx, read, isNew)
    case Logging(read, isNew) => WalletHeld(l, tx, read, isNew) && AmountOf(tx).Number?
    case Ready(read, isNew) =>
      WalletHeld(l, tx, read, isNew) && AmountOf(tx).Number? && (RefOf(tx.op) != "" ==> RefOf(tx.op) !in l.byRef)
    case Replaying(index) =>
      (tx.op.CreditOp? || tx.op.DebitOp?) && Recorded(l, tx.op.reference) && l.byRef[tx.op.reference] == index
    case Approving => tx.op.ApproveOp? && tx.request.Some?
    case Accepted => tx.op.ApproveOp? && tx.request.Some?
    case Ended(_) => true
  }

  predicate TxOk(l: Ledger, tx: Tx) {
    tx.phase.Ended? ||
    (&& PhaseOk(l, tx) && RequestHeld(l, tx) && !tx.op.OpenOp? && (tx.op.WithdrawOp? ==> tx.op.id != ""))
  }

  predicate Collide(a: Tx, b: Tx) {
    || (HasWallet(a) && HasWallet(b) && KeyOf(a) == KeyOf(b))
    || (HasReference(a) && HasReference(b) && RefOf(a.op) == RefOf(b.op))
    || (HasRequest(a) && HasRequest(b) && IsReview(a.op) && IsReview(b.op) && a.op.id == b.op.id)
  }

  ghost predicate TxsOk(db: Db) {
    forall p | p in db.txs :: TxOk(db.committed, db.txs[p])
  }

  /** No two transactions hold the same lock. */
  ghost predicate Exclusive(db: Db) {
    forall p, q | p in db.txs && q in db.txs && p != q :: !Collide(db.txs[p], db.txs[q])
  }

  ghost predicate Consistent(l0: Ledger, db: Db) {
    && Good(db.committed) && ReferencesUnique(db.committed)
    && TxsOk(db) && Exclusive(db) && Explains(l0, db.log, db.committed)
  }

  // ---- Steps that commit nothing ----------------------------------------------------------------------------

  lemma PutTxKeeps(l0: Ledger, db: Db, pid: nat, tx: Tx)
    requires Consistent(l0, db) && TxOk(db.committed, tx)
    requires forall p | p in db.txs && p != pid :: !Collide(db.txs[p], tx) && !Collide(tx, db.txs[p])
    ensures Consistent(l0, db.(txs := db.txs[pid := tx]))
  {
    var db' := db.(txs := db.txs[pid := tx]);
    forall p | p in db'.txs ensures TxOk(db'.committed, db'.txs[p]) {
      if p != pid { assert TxOk(db.committed, db.txs[p]); }
    }
  }

  lemma StatementKeeps(l0: Ledger, db: Db, pid: nat)
    requires Consistent(l0, db) && Enabled(db, Run(pid))
    requires var phase := db.txs[pid].phase; !phase.Ready? && !phase.Replaying? && !phase.Accepted?
    ensures Consistent(l0, Statement(db, pid))
  {
    var tx := db.txs[pid];
    assert TxOk(db.committed, tx);
    var db' := Statement(db, pid);
    var tx' := db'.txs[pid];
    MovesOn(db, pid);
    forall p | p in db.txs && p != pid ensures !Collide(db.txs[p], tx') && !Collide(tx', db.txs[p]) {
      assert !Collide(db.txs[p], tx) && !Collide(tx, db.txs[p]);
      NewLockIsFree(db, pid, p);
    }
    PutTxKeeps(l0, db, pid, tx');
  }

  /** A statement that commits nothing only moves its own transaction, to a sound phase. */
  lemma MovesOn(db: Db, pid: nat)
    requires pid in db.txs && TxOk(db.committed, db.txs[pid]) && !db.txs[pid].phase.Ended? && Good(db.committed)
    requires var phase := db.txs[pid].phase; !phase.Ready? && !phase.Replaying? && !phase.Accepted?
    ensures var db' := Statement(db, pid);
            pid in db'.txs && db' == db.(txs := db.txs[pid := db'.txs[pid]]) && TxOk(db.committed, db'.txs[pid])
  {
    OnlyItMoves(db, pid);
    if db.txs[pid].phase.Begun? { FirstPhaseOk(db, pid); } else { NextPhaseOk(db, pid); }
  }

  lemma FirstPhaseOk(db: Db, pid: nat)
    requires pid in db.txs && TxOk(db.committed, db.txs[pid]) && db.txs[pid].phase.Begun?
    ensures pid in Statement(db, pid).txs && TxOk(db.committed, Statement(db, pid).txs[pid])
  {
  }

  lemma NextPhaseOk(db: Db, pid: nat)
    requires pid in db.txs && TxOk(db.committed, db.txs[pid]) && Good(db.committed)
    requires var phase := db.txs[pid].phase;
             phase.Seeking? || phase.Inserting? || phase.Updating? || phase.Logging? || phase.Approving?
    ensures pid in Statement(db, pid).txs && TxOk(db.committed, Statement(db, pid).txs[pid])
  {
  }

  lemma OnlyItMoves(db: Db, pid: nat)
    requires pid in db.txs && !db.txs[pid].phase.Ended?
    requires var phase := db.txs[pid].phase; !phase.Ready? && !phase.Replaying? && !phase.Accepted?
    ensures pid in Statement(db, pid).txs
    ensures Statement(db, pid) == db.(txs := db.txs[pid := Statement(db, pid).txs[pid]])
  {
  }

  /** A lock is granted only when nobody else holds it. */
  lemma NewLockIsFree(db: Db, pid: nat, p: nat)
    requires pid in db.txs && p in db.txs && p != pid && TxOk(db.committed, db.txs[pid])
    requires !db.txs[pid].phase.Ended? && !Waits(db, pid) && !Collide(db.txs[p], db.txs[pid])
    requires var phase := db.txs[pid].phase; !phase.Ready? && !phase.Replaying? && !phase.Accepted?
    ensures !Collide(db.txs[p], Statement(db, pid).txs[pid]) && !Collide(Statement(db, pid).txs[pid], db.txs[p])
  {
  }

  // ---- Commits ----------------------------------------------------------------------------------------------

  /** What a commit may touch: one wallet, one reference, and the given requests. */
  ghost predicate Changes(l: Ledger, l': Ledger, key: string, reference: string, ids: set<string>) {
    && (forall k | k != key ::
          (k in l'.wallets <==> k in l.wallets) && (k in l.wallets ==> l'.wallets[k] == l.wallets[k]))
    && (forall r | r in l.byRef :: r in l'.byRef && l'.byRef[r] == l.byRef[r])
    && (forall r | r in l'.byRef && r !in l.byRef :: r == reference)
    && (forall i | i in l.requests && i !in ids :: i in l'.requests && l'.requests[i] == l.requests[i])
  }

  lemma OtherTxKeeps(l: Ledger, l': Ledger, key: string, reference: string, ids: set<string>, tx: Tx)
    requires TxOk(l, tx) && Changes(l, l', key, reference, ids)
    requires HasWallet(tx) ==> KeyOf(tx) != key
    requires HasReference(tx) ==> RefOf(tx.op) != reference
    requires HasRequest(tx) ==> tx.op.id !in ids
    ensures TxOk(l', tx)
  {
  }

  /** A commit applies exactly the sequential operation to the state it commits on. */
  lemma CreditCommits(l: Ledger, tx: Tx)
    requires TxOk(l, tx) && tx.phase.Ready? && tx.op.CreditOp?
    ensures Written(l, tx) == Serial(l, tx.op).ledger && Serial(l, tx.op).reply == Txn(|l.rows|)
  {
    var ready := OpenWallet(l, tx.op.user, tx.op.currency);
    assert Written(l, tx).wallets == Serial(l, tx.op).ledger.wallets;
    assert Written(l, tx).rows == Serial(l, tx.op).ledger.rows;
  }

  lemma DebitCommits(l: Ledger, tx: Tx)
    requires TxOk(l, tx) && tx.phase.Ready? && tx.op.DebitOp?
    ensures Written(l, tx) == Serial(l, tx.op).ledger && Serial(l, tx.op).reply == Txn(|l.rows|)
  {
  }

  lemma WithdrawCommits(l: Ledger, tx: Tx)
    requires TxOk(l, tx) && tx.phase.Ready? && tx.op.WithdrawOp?
    ensures Written(l, tx) == Serial(l, tx.op).ledger && Serial(l, tx.op).reply == Req(tx.op.id)
  {
  }

  lemma RejectCommits(l: Ledger, tx: Tx)
    requires Good(l) && TxOk(l, tx) && tx.phase.Ready? && tx.op.RejectOp?
    ensures Written(l, tx) == Serial(l, tx.op).ledger && Serial(l, tx.op).reply == Req(tx.op.id)
  {
    assert RequestMatched(l, tx.op.id);
  }

  function RequestsOf(op: Op): set<string> {
    match op
    case WithdrawOp(_, _, _, id) => {id}
    case ApproveOp(id) => {id}
    case RejectOp(id) => {id}
    case _ => {}
  }

  lemma ReadyCommits(l: Ledger, tx: Tx)
    requires Good(l) && TxOk(l, tx) && tx.phase.Ready?
    ensures Written(l, tx) == Serial(l, tx.op).ledger
    ensures Serial(l, tx.op).reply == if tx.op.CreditOp? || tx.op.DebitOp? then Txn(|l.rows|) else Req(tx.op.id)
  {
    match tx.op
    case CreditOp(_, _, _, _) => CreditCommits(l, tx);
    case DebitOp(_, _, _, _) => DebitCommits(l, tx);
    case WithdrawOp(_, _, _, _) => WithdrawCommits(l, tx);
    case RejectOp(_) => RejectCommits(l, tx);
  }

  lemma ReadyChanges(l: Ledger, tx: Tx)
    requires TxOk(l, tx) && tx.phase.Ready?
    ensures Changes(l, Written(l, tx), KeyOf(tx), RefOf(tx.op), RequestsOf(tx.op))
  {
  }

  lemma AppendKeepsUnique(l: Ledger, l': Ledger)
    requires Indexed(l) && ReferencesUnique(l) && |l'.rows| == |l.rows| + 1
    requires forall i | 0 <= i < |l.rows| :: l'.rows[i].reference == l.rows[i].reference
    requires var r := l'.rows[|l.rows|].reference;
             l'.byRef == (if r != "" then l.byRef[r := |l.rows|] else l.byRef) && r !in l.byRef
    ensures ReferencesUnique(l')
  {
    forall i | 0 <= i < |l'.rows| ensures RowUnique(l', i) {
      if i < |l.rows| { assert RowUnique(l, i); }
    }
  }

  lemma WrittenKeepsUnique(l: Ledger, tx: Tx)
    requires Good(l) && ReferencesUnique(l) && TxOk(l, tx) && tx.phase.Ready?
    ensures ReferencesUnique(Written(l, tx))
  {
    forall r | r in l.byRef ensures r != "" { assert RefIndexed(l, r); }
    AppendKeepsUnique(l, Written(l, tx));
  }

  /** Indexing the reversal's reference as well disturbs nothing. */
  lemma IndexReversalKeepsGood(l: Ledger, i: nat, r: string)
    requires Good(l) && r !in l.byRef && r != "" && i < |l.rows|
    requires l.rows[i].reference == r && l.rows[i].kind == Adjustment
    ensures Good(l.(byRef := l.byRef[r := i]))
  {
    var l' := l.(byRef := l.byRef[r := i]);
    forall x | x in l'.byRef ensures RefIndexed(l', x) {
      if x != r { assert RefIndexed(l, x); }
    }
    forall j | 0 <= j < |l'.rows|
      ensures RowIndexed(l', j) && RowBooked(l', j) && OpenRowMatched(l', j) && AdjustmentPaired(l', j)
    {
      assert RowIndexed(l, j) && RowBooked(l, j) && OpenRowMatched(l, j) && AdjustmentPaired(l, j);
    }
    forall k | k in l'.wallets ensures WalletBooked(l', k) && WalletNetted(l', k) {
      assert WalletBooked(l, k) && WalletNetted(l, k);
    }
    forall id | id in l'.requests ensures RequestMatched(l', id) && RejectionPaired(l', id) {
      assert RequestMatched(l, id) && RejectionPaired(l, id);
    }
    forall a, b | 0 <= a < b < |l'.rows| ensures DifferentReversals(l', a, b) { assert DifferentReversals(l, a, b); }
  }

  lemma SerialKeepsGood(l: Ledger, op: Op)
    requires Good(l) && Admits(l, op)
    ensures Good(Serial(l, op).ledger)
  {
    StepKeepsGood(l, op);
    if op.RejectOp? && op.id + REVERSAL !in l.byRef && !Reject(l, op.id).reply.Refused? {
      assert op.id + REVERSAL != "";
      IndexReversalKeepsGood(Reject(l, op.id).ledger, |l.rows|, op.id + REVERSAL);
    }
  }

  lemma {:induction false} ExplainsOneMore(l0: Ledger, log: seq<Entry>, l: Ledger, entry: Entry)
    requires Explains(l0, log, l) && Admits(l, entry.op) && Serial(l, entry.op).reply == entry.reply
    ensures Explains(l0, log + [entry], Serial(l, entry.op).ledger)
    decreases |log|
  {
    if log == [] {
      assert [] + [entry] == [entry] && [entry][1..] == [];
    } else {
      assert (log + [entry])[1..] == log[1..] + [entry];
      ExplainsOneMore(Serial(l0, log[0].op).ledger, log[1..], l, entry);
    }
  }

  /** Committing what the sequential operation does keeps every other transaction's footing. */
  lemma FinishKeeps(l0: Ledger, db: Db, pid: nat, l': Ledger, reply: Reply)
    requires Consistent(l0, db) && pid in db.txs
    requires Admits(db.committed, db.txs[pid].op)
    requires Serial(db.committed, db.txs[pid].op) == Outcome(l', reply) && Good(l') && ReferencesUnique(l')
    requires forall p | p in db.txs && p != pid :: TxOk(l', db.txs[p])
    ensures Consistent(l0, Finish(db.(committed := l'), pid, reply))
  {
    ExplainsOneMore(l0, db.log, db.committed, Entry(db.txs[pid].op, reply));
    EndedStaysExclusive(db, l', pid, reply);
  }

  lemma EndedStaysExclusive(db: Db, l': Ledger, pid: nat, reply: Reply)
    requires Exclusive(db) && pid in db.txs
    ensures Exclusive(Finish(db.(committed := l'), pid, reply))
  {
    var db' := Finish(db.(committed := l'), pid, reply);
    forall p, q | p in db'.txs && q in db'.txs && p != q ensures !Collide(db'.txs[p], db'.txs[q]) {
      assert !Collide(db.txs[p], db.txs[q]);
    }
  }

  lemma ReadyFrame(l: Ledger, tx: Tx, other: Tx)
    requires Reviewed(l) && TxOk(l, tx) && tx.phase.Ready? && TxOk(l, other) && !Collide(other, tx)
    ensures TxOk(Written(l, tx), other)
  {
    ReadyChanges(l, tx);
    RequestsAreRecorded(l);
    OtherTxKeeps(l, Written(l, tx), KeyOf(tx), RefOf(tx.op), RequestsOf(tx.op), other);
  }

  function ReplyOf(l: Ledger, op: Op): Reply {
    if op.CreditOp? || op.DebitOp? then Txn(|l.rows|) else if op.OpenOp? then Refused(RequestNotFound) else Req(op.id)
  }

  lemma ReadyStatement(db: Db, pid: nat)
    requires pid in db.txs && db.txs[pid].phase.Ready? && TxOk(db.committed, db.txs[pid])
    ensures var tx := db.txs[pid];
            Statement(db, pid)
            == Finish(db.(committed := Written(db.committed, tx)), pid, ReplyOf(db.committed, tx.op))
  {
  }

  lemma WrittenIsGood(l: Ledger, tx: Tx)
    requires Good(l) && ReferencesUnique(l) && TxOk(l, tx) && tx.phase.Ready?
    ensures Good(Written(l, tx)) && ReferencesUnique(Written(l, tx)) && Admits(l, tx.op)
    ensures Serial(l, tx.op) == Outcome(Written(l, tx), ReplyOf(l, tx.op))
  {
    ReadyCommits(l, tx);
    SerialKeepsGood(l, tx.op);
    WrittenKeepsUnique(l, tx);
  }

  lemma ReadyKeeps(l0: Ledger, db: Db, pid: nat)
    requires Consistent(l0, db) && pid in db.txs && db.txs[pid].phase.Ready?
    ensures Consistent(l0, Statement(db, pid))
  {
    var tx := db.txs[pid];
    assert TxOk(db.committed, tx);
    WrittenIsGood(db.committed, tx);
    forall p | p in db.txs && p != pid ensures TxOk(Written(db.committed, tx), db.txs[p]) {
      assert TxOk(db.committed, db.txs[p]) && !Collide(db.txs[p], tx);
      ReadyFrame(db.committed, tx, db.txs[p]);
    }
    ReadyStatement(db, pid);
    FinishKeeps(l0, db, pid, Written(db.committed, tx), ReplyOf(db.committed, tx.op));
  }

  lemma ReplayKeeps(l0: Ledger, db: Db, pid: nat)
    requires Consistent(l0, db) && pid in db.txs && db.txs[pid].phase.Replaying?
    ensures Consistent(l0, Statement(db, pid))
  {
    assert TxOk(db.committed, db.txs[pid]);
    FinishKeeps(l0, db, pid, db.committed, Txn(db.txs[pid].phase.index));
    assert db.(committed := db.committed) == db;
  }

  lemma AcceptedStatement(db: Db, pid: nat)
    requires pid in db.txs && db.txs[pid].phase.Accepted? && TxOk(db.committed, db.txs[pid])
    ensures var id := db.txs[pid].op.id;
            && Statement(db, pid) == Finish(db.(committed := Approve(db.committed, id).ledger), pid, Req(id))
            && Serial(db.committed, db.txs[pid].op) == Outcome(Approve(db.committed, id).ledger, Req(id))
  {
  }

  lemma ApprovalKeepsRows(l: Ledger, id: string)
    requires Good(l) && ReferencesUnique(l)
    ensures Good(Approve(l, id).ledger) && ReferencesUnique(Approve(l, id).ledger)
  {
    var l' := Approve(l, id).ledger;
    ApproveKeepsGood(l, id);
    forall i | 0 <= i < |l'.rows| ensures RowUnique(l', i) { assert RowUnique(l, i); }
  }

  lemma ApprovalKeepsOthers(db: Db, pid: nat)
    requires TxsOk(db) && Exclusive(db) && pid in db.txs && db.txs[pid].phase.Accepted?
    ensures forall p | p in db.txs && p != pid :: TxOk(Approve(db.committed, db.txs[pid].op.id).ledger, db.txs[p])
  {
    var tx := db.txs[pid];
    assert TxOk(db.committed, tx);
    forall p | p in db.txs && p != pid ensures TxOk(Approve(db.committed, tx.op.id).ledger, db.txs[p]) {
      assert TxOk(db.committed, db.txs[p]) && !Collide(db.txs[p], tx);
      ApprovalFrame(db.committed, tx.op.id, db.txs[p]);
    }
  }

  lemma ApprovalKeeps(l0: Ledger, db: Db, pid: nat)
    requires Consistent(l0, db) && pid in db.txs && db.txs[pid].phase.Accepted?
    ensures Consistent(l0, Statement(db, pid))
  {
    var tx := db.txs[pid];
    var l' := Approve(db.committed, tx.op.id).ledger;
    assert TxOk(db.committed, tx);
    ApprovalKeepsRows(db.committed, tx.op.id);
    ApprovalKeepsOthers(db, pid);
    AcceptedStatement(db, pid);
    FinishKeeps(l0, db, pid, l', Req(tx.op.id));
  }

  lemma ApprovalFrame(l: Ledger, id: string, tx: Tx)
    requires TxOk(l, tx) && (HasRequest(tx) ==> tx.op.id != id)
    ensures TxOk(Approve(l, id).ledger, tx)
  {
  }

  // ---- Every run --------------------------------------------------------------------------------------------

  lemma StepKeeps(l0: Ledger, db: Db, a: Action)
    requires Consistent(l0, db) && Enabled(db, a)
    ensures Consistent(l0, Step(db, a))
  {
    match a
    case Open(pid, op) => PutTxKeeps(l0, db, pid, Tx(op, Begun, None));
    case Fail(pid) => PutTxKeeps(l0, db, pid, db.txs[pid].(phase := Ended(RolledBack)));
    case Run(pid) =>
      var phase := db.txs[pid].phase;
      if phase.Ready? { ReadyKeeps(l0, db, pid); }
      else if phase.Replaying? { ReplayKeeps(l0, db, pid); }
      else if phase.Accepted? { ApprovalKeeps(l0, db, pid); }
      else { StatementKeeps(l0, db, pid); }
  }

  lemma {:induction false} RunKeeps(l0: Ledger, db: Db, actions: seq<Action>)
    requires Consistent(l0, db) && EnabledAll(db, actions)
    ensures Consistent(l0, Exec(db, actions))
    decreases |actions|
  {
    if actions != [] {
      StepKeeps(l0, db, actions[0]);
      RunKeeps(l0, Step(db, actions[0]), actions[1..]);
    }
  }
}
