/** The promises of the Postgres wallet store, for every interleaving of its transactions. */
module PgTheorems {
  import opened Basics
  import opened Sums
  import opened Ledger
  import opened LedgerInvariant
  import opened PgWallet
  import opened PgInvariant

  const START := Db(EMPTY, map[], [])

  /** The committed state and every reply are those of running the committed operations one by one, in commit order. */
  lemma CommitOrderExplains(actions: seq<Action>)
    requires EnabledAll(START, actions)
    ensures Explains(EMPTY, Exec(START, actions).log, Exec(START, actions).committed)
    ensures Good(Exec(START, actions).committed)
  {
    RunKeeps(EMPTY, START, actions);
  }

  /** At most one ledger row carries a reference. */
  lemma OneRowPerReference(actions: seq<Action>, i: nat, j: nat)
    requires EnabledAll(START, actions)
    requires var rows := Exec(START, actions).committed.rows;
             i < |rows| && j < |rows| && rows[i].reference == rows[j].reference != ""
    ensures i == j
  {
    RunKeeps(EMPTY, START, actions);
    var l := Exec(START, actions).committed;
    assert RowUnique(l, i) && RowUnique(l, j);
  }

  // ---- The version check ------------------------------------------------------------------------------------

  ghost predicate NoConflicts(db: Db) {
    forall p | p in db.txs :: db.txs[p].phase != Ended(Conflict)
  }

  /** While the row lock is held the version cannot have moved. */
  lemma VersionMatches(l0: Ledger, db: Db, pid: nat)
    requires Consistent(l0, db) && Enabled(db, Run(pid))
    ensures Statement(db, pid).txs[pid].phase != Ended(Conflict)
  {
    assert TxOk(db.committed, db.txs[pid]);
  }

  lemma {:induction false} ConflictIsUnreachable(l0: Ledger, db: Db, actions: seq<Action>)
    requires Consistent(l0, db) && EnabledAll(db, actions) && NoConflicts(db)
    ensures NoConflicts(Exec(db, actions))
    decreases |actions|
  {
    if actions != [] {
      var a := actions[0];
      if a.Run? {
        VersionMatches(l0, db, a.pid);
        OthersStay(db, a.pid);
      }
      StepKeeps(l0, db, a);
      ConflictIsUnreachable(l0, Step(db, a), actions[1..]);
    }
  }

  lemma OthersStay(db: Db, pid: nat)
    requires pid in db.txs
    ensures Statement(db, pid).txs.Keys == db.txs.Keys
    ensures forall p | p in db.txs && p != pid :: Statement(db, pid).txs[p] == db.txs[p]
  {
  }

  // ---- Approve against reject -------------------------------------------------------------------------------

  function ReviewCount(log: seq<Entry>, id: string): nat {
    if log == [] then 0
    else ReviewCount(log[..|log| - 1], id)
         + if IsReview(log[|log| - 1].op) && log[|log| - 1].op.id == id then 1 else 0
  }

  predicate Logged(log: seq<Entry>, op: Op) {
    exists i :: 0 <= i < |log| && log[i].op == op
  }

  /** The log reviews a request once if it has left the pending state and never otherwise, and tells which way. */
  ghost predicate ReviewTold(db: Db, id: string) {
    var l := db.committed;
    && ReviewCount(db.log, id) == (if id in l.requests && l.requests[id].status != Awaiting then 1 else 0)
    && (Logged(db.log, ApproveOp(id)) <==> id in l.requests && l.requests[id].status == Approved)
    && (Logged(db.log, RejectOp(id)) <==> id in l.requests && l.requests[id].status == Rejected)
  }

  lemma LoggedOneMore(log: seq<Entry>, entry: Entry, op: Op)
    ensures Logged(log + [entry], op) <==> Logged(log, op) || entry.op == op
  {
    if Logged(log, op) {
      var i :| 0 <= i < |log| && log[i].op == op;
      assert (log + [entry])[i].op == op;
    }
    if entry.op == op { assert (log + [entry])[|log|].op == op; }
  }

  /** A statement logs at most its own operation, and changes the requests only as that operation does. */
  lemma StatementTells(db: Db, pid: nat)
    requires Reviewed(db.committed) && pid in db.txs && TxOk(db.committed, db.txs[pid]) && !db.txs[pid].phase.Ended?
    ensures var tx := db.txs[pid];
            var db' := Statement(db, pid);
            var before, after := db.committed.requests, db'.committed.requests;
            if db'.log == db.log then after == before
            else
              && |db'.log| == |db.log| + 1 && db'.log[..|db.log|] == db.log && db'.log[|db.log|].op == tx.op
              && match tx.op
                 case WithdrawOp(_, _, _, id) =>
                   id !in before && after == before[id := after[id]] && after[id].status == Awaiting
                 case ApproveOp(id) =>
                   id in before && before[id].status == Awaiting && after == before[id := after[id]]
                   && after[id].status == Approved
                 case RejectOp(id) =>
                   id in before && before[id].status == Awaiting && after == before[id := after[id]]
                   && after[id].status == Rejected
                 case _ => after == before
  {
    RequestsAreRecorded(db.committed);
  }

  lemma CommitTells(db: Db, pid: nat, id: string)
    requires Reviewed(db.committed) && pid in db.txs && TxOk(db.committed, db.txs[pid]) && !db.txs[pid].phase.Ended?
    requires ReviewTold(db, id)
    ensures ReviewTold(Statement(db, pid), id)
  {
    var db' := Statement(db, pid);
    StatementTells(db, pid);
    if db'.log != db.log {
      var entry := db'.log[|db.log|];
      assert db'.log == db.log + [entry] && db'.log[..|db'.log| - 1] == db.log;
      LoggedOneMore(db.log, entry, ApproveOp(id));
      LoggedOneMore(db.log, entry, RejectOp(id));
    }
  }

  lemma {:induction false} RunTells(l0: Ledger, db: Db, actions: seq<Action>, id: string)
    requires Consistent(l0, db) && EnabledAll(db, actions) && ReviewTold(db, id)
    ensures ReviewTold(Exec(db, actions), id)
    decreases |actions|
  {
    if actions != [] {
      if actions[0].Run? {
        assert TxOk(db.committed, db.txs[actions[0].pid]);
        CommitTells(db, actions[0].pid, id);
      }
      StepKeeps(l0, db, actions[0]);
      RunTells(l0, Step(db, actions[0]), actions[1..], id);
    }
  }

  /** However approvals and rejections of a request race, at most one of them commits, and the amount is put back
      exactly when it is a rejection. */
  lemma OneReviewWins(actions: seq<Action>, id: string)
    requires EnabledAll(START, actions)
    ensures var db := Exec(START, actions);
            && ReviewCount(db.log, id) <= 1
            && !(Logged(db.log, ApproveOp(id)) && Logged(db.log, RejectOp(id)))
            && (Logged(db.log, RejectOp(id)) <==>
                exists i :: 0 <= i < |db.committed.rows| && Reverses(db.committed.rows[i], id))
  {
    RunKeeps(EMPTY, START, actions);
    RunTells(EMPTY, START, actions, id);
    ReversedWhenRejected(Exec(START, actions).committed, id);
  }

  lemma ReversedWhenRejected(l: Ledger, id: string)
    requires Good(l)
    ensures (exists i :: 0 <= i < |l.rows| && Reverses(l.rows[i], id))
            <==> id in l.requests && l.requests[id].status == Rejected
  {
    if id in l.requests { assert RejectionPaired(l, id); }
    forall i | 0 <= i < |l.rows| && Reverses(l.rows[i], id)
      ensures id in l.requests && l.requests[id].status == Rejected
    {
      assert AdjustmentPaired(l, i) && Origin(l.rows[i].reference) == id;
    }
  }

  // ---- Why a transaction ends without effect ----------------------------------------------------------------

  /** The sequential operation is refused now; or the reference, missing when it was looked up, is on the books; or
      somebody inserted the wallet it was about to insert. */
  predicate HasReasonToRollBack(l: Ledger, tx: Tx) {
    || Serial(l, tx.op).reply.Refused?
    || (!tx.phase.Begun? && !IsReview(tx.op) && Recorded(l, RefOf(tx.op)))
    || (tx.phase.Inserting? && KeyOf(tx) in l.wallets)
  }

  lemma ReviewMayGoOn(l: Ledger, tx: Tx)
    requires Good(l) && TxOk(l, tx) && IsReview(tx.op) && !tx.phase.Ended?
    ensures tx.request.Some? ==> KeyOf(tx) in l.wallets && AmountOf(tx).Number?
  {
    if tx.request.Some? { assert RequestMatched(l, tx.op.id); }
  }

  /** A statement rolls its transaction back only for one of these reasons. */
  lemma RollbackHasAReason(l0: Ledger, db: Db, pid: nat)
    requires Consistent(l0, db) && Enabled(db, Run(pid))
    ensures Statement(db, pid).txs[pid].phase == Ended(RolledBack) ==> HasReasonToRollBack(db.committed, db.txs[pid])
  {
    var tx := db.txs[pid];
    assert TxOk(db.committed, tx);
    if IsReview(tx.op) { ReviewMayGoOn(db.committed, tx); }
  }

  /** The statements a transaction still has before it. */
  function Rank(phase: Phase): nat {
    match phase
    case Begun => 6
    case Seeking => 5
    case Inserting => 4
    case Updating(_, _) => 3
    case Logging(_, _) => 2
    case Approving => 2
    case Ready(_, _) => 1
    case Replaying(_) => 1
    case Accepted => 1
    case Ended(_) => 0
  }

  lemma NextPhaseRanksLower(db: Db, pid: nat)
    requires pid in db.txs && pid in Statement(db, pid).txs && TxOk(db.committed, db.txs[pid])
    requires !db.txs[pid].phase.Ended?
    ensures Rank(Statement(db, pid).txs[pid].phase) < Rank(db.txs[pid].phase)
  {
  }

  /** Every statement gets its transaction nearer to its end. */
  lemma StatementsRunOut(l0: Ledger, db: Db, pid: nat)
    requires Consistent(l0, db) && Enabled(db, Run(pid))
    ensures pid in Statement(db, pid).txs && Rank(Statement(db, pid).txs[pid].phase) < Rank(db.txs[pid].phase)
  {
    assert TxOk(db.committed, db.txs[pid]);
    OthersStay(db, pid);
    NextPhaseRanksLower(db, pid);
  }

  // ---- A review that ends decides ---------------------------------------------------------------------------

  /** Only the rejection of the request may write under its reversal's reference. */
  predicate Spares(op: Op, id: string) {
    RefOf(op) == id + REVERSAL ==> op == RejectOp(id)
  }

  ghost predicate AllSpare(db: Db, id: string) {
    forall p | p in db.txs :: Spares(db.txs[p].op, id)
  }

  predicate Settled(l: Ledger, id: string) {
    id in l.requests && l.requests[id].status != Awaiting
  }

  predicate Reviewable(l: Ledger, id: string) {
    id in l.requests && (id + REVERSAL in l.byRef ==> Settled(l, id))
  }

  lemma CommittedReviewSettles(db: Db, pid: nat, id: string)
    requires pid in db.txs && TxOk(db.committed, db.txs[pid]) && !db.txs[pid].phase.Ended?
    requires IsReview(db.txs[pid].op) && db.txs[pid].op.id == id
    ensures Statement(db, pid).txs[pid].phase.Ended? ==>
              Statement(db, pid).txs[pid].phase.ending.Committed? ==> Settled(Statement(db, pid).committed, id)
  {
  }

  lemma RefusedReviewIsSettled(l: Ledger, tx: Tx)
    requires Good(l) && TxOk(l, tx) && !tx.phase.Ended? && IsReview(tx.op) && Reviewable(l, tx.op.id)
    requires HasReasonToRollBack(l, tx)
    ensures Settled(l, tx.op.id)
  {
    assert RequestMatched(l, tx.op.id);
  }

  /** The review that ends at this statement decides the request, unless it is decided already. */
  lemma EndingDecides(l0: Ledger, db: Db, pid: nat, id: string)
    requires Consistent(l0, db) && Enabled(db, Run(pid)) && Reviewable(db.committed, id)
    requires IsReview(db.txs[pid].op) && db.txs[pid].op.id == id
    ensures Statement(db, pid).txs[pid].phase.Ended? ==> Settled(Statement(db, pid).committed, id)
  {
    var tx := db.txs[pid];
    assert TxOk(db.committed, tx);
    VersionMatches(l0, db, pid);
    CommittedReviewSettles(db, pid, id);
    if Statement(db, pid).txs[pid].phase == Ended(RolledBack) {
      RollbackHasAReason(l0, db, pid);
      RefusedReviewIsSettled(db.committed, tx);
      RollbackKeepsState(db, pid);
    }
  }

  lemma RollbackKeepsState(db: Db, pid: nat)
    requires pid in db.txs && Statement(db, pid).txs[pid].phase == Ended(RolledBack)
    ensures Statement(db, pid).committed == db.committed
  {
  }

  /** A commit writes its own reference only, and reviews its own request only. */
  lemma StatementKeepsReviewable(l0: Ledger, db: Db, pid: nat, id: string)
    requires Consistent(l0, db) && Enabled(db, Run(pid)) && Reviewable(db.committed, id)
    requires Spares(db.txs[pid].op, id)
    ensures Reviewable(Statement(db, pid).committed, id)
    ensures Settled(db.committed, id) ==> Settled(Statement(db, pid).committed, id)
  {
    assert TxOk(db.committed, db.txs[pid]);
    StatementKeepsSettled(db, pid, id);
    if id + REVERSAL in Statement(db, pid).committed.byRef && id + REVERSAL !in db.committed.byRef {
      OwnReferenceOnly(db, pid, id + REVERSAL);
      CommittedReviewSettles(db, pid, id);
    }
  }

  lemma StatementKeepsSettled(db: Db, pid: nat, id: string)
    requires Reviewed(db.committed) && pid in db.txs && TxOk(db.committed, db.txs[pid]) && !db.txs[pid].phase.Ended?
    requires id in db.committed.requests
    ensures id in Statement(db, pid).committed.requests
    ensures Settled(db.committed, id) ==> Settled(Statement(db, pid).committed, id)
  {
    StatementTells(db, pid);
  }

  lemma OwnReferenceOnly(db: Db, pid: nat, reference: string)
    requires pid in db.txs && reference !in db.committed.byRef && reference in Statement(db, pid).committed.byRef
    ensures RefOf(db.txs[pid].op) == reference
    ensures Statement(db, pid).txs[pid].phase.Ended? && Statement(db, pid).txs[pid].phase.ending.Committed?
  {
  }

  ghost predicate Decides(db: Db, pid: nat, id: string) {
    pid in db.txs && db.txs[pid].phase.Ended? && IsReview(db.txs[pid].op) && db.txs[pid].op.id == id ==>
      Settled(db.committed, id)
  }

  lemma StepDecides(l0: Ledger, db: Db, a: Action, pid: nat, id: string)
    requires Consistent(l0, db) && Enabled(db, a) && Reviewable(db.committed, id) && AllSpare(db, id)
    requires Decides(db, pid, id) && a != Fail(pid) && (a.Open? ==> Spares(a.op, id))
    ensures Reviewable(Step(db, a).committed, id) && AllSpare(Step(db, a), id) && Decides(Step(db, a), pid, id)
  {
    if a.Run? {
      StatementKeepsReviewable(l0, db, a.pid, id);
      StatementKeepsOps(db, a.pid);
      if a.pid == pid && IsReview(db.txs[pid].op) && db.txs[pid].op.id == id { EndingDecides(l0, db, pid, id); }
    }
  }

  lemma StatementKeepsOps(db: Db, pid: nat)
    requires pid in db.txs
    ensures Statement(db, pid).txs.Keys == db.txs.Keys
    ensures forall p | p in db.txs :: Statement(db, pid).txs[p].op == db.txs[p].op
    ensures forall p | p in db.txs && p != pid :: Statement(db, pid).txs[p] == db.txs[p]
  {
    OthersStay(db, pid);
    OwnOpStays(db, pid);
  }

  lemma OwnOpStays(db: Db, pid: nat)
    requires pid in db.txs && pid in Statement(db, pid).txs
    ensures Statement(db, pid).txs[pid].op == db.txs[pid].op
  {
  }

  /** Transaction `pid` does not fail, and nobody else takes the reversal's reference. */
  predicate Undisturbed(actions: seq<Action>, pid: nat, id: string) {
    forall a | a in actions :: a != Fail(pid) && (a.Open? ==> Spares(a.op, id))
  }

  lemma {:induction false} RunDecides(l0: Ledger, db: Db, actions: seq<Action>, pid: nat, id: string)
    requires Consistent(l0, db) && EnabledAll(db, actions) && Reviewable(db.committed, id) && AllSpare(db, id)
    requires Decides(db, pid, id) && Undisturbed(actions, pid, id)
    ensures Decides(Exec(db, actions), pid, id)
    decreases |actions|
  {
    if actions != [] {
      StepDecides(l0, db, actions[0], pid, id);
      StepKeeps(l0, db, actions[0]);
      RunDecides(l0, Step(db, actions[0]), actions[1..], pid, id);
    }
  }

  /** Once a request exists, any review opened for it that runs to its end without failing leaves the request reviewed
      exactly once, by an approval or by a rejection but not both, and the amount is put back exactly if it was a
      rejection. Other reviews may race with it and may fail. */
  lemma ExactlyOneReviewWins(before: seq<Action>, after: seq<Action>, pid: nat, id: string)
    requires EnabledAll(START, before)
    requires var db := Exec(START, before);
             && EnabledAll(db, after) && pid !in db.txs
             && Reviewable(db.committed, id) && AllSpare(db, id) && Undisturbed(after, pid, id)
             && var end := Exec(db, after);
                pid in end.txs && IsReview(end.txs[pid].op) && end.txs[pid].op.id == id && end.txs[pid].phase.Ended?
    ensures var end := Exec(Exec(START, before), after);
            && ReviewCount(end.log, id) == 1
            && (Logged(end.log, ApproveOp(id)) <==> !Logged(end.log, RejectOp(id)))
            && (Logged(end.log, RejectOp(id)) <==>
                exists i :: 0 <= i < |end.committed.rows| && Reverses(end.committed.rows[i], id))
  {
    RunKeeps(EMPTY, START, before);
    RunTells(EMPTY, START, before, id);
    var db := Exec(START, before);
    RunDecides(EMPTY, db, after, pid, id);
    RunKeeps(EMPTY, db, after);
    RunTells(EMPTY, db, after, id);
    ReversedWhenRejected(Exec(db, after).committed, id);
  }

  /** The reversal's reference was taken before the request was rejected. */
  predicate Blocked(l: Ledger, id: string) {
    id in l.requests && l.requests[id].status != Rejected && id + REVERSAL in l.byRef
  }

  lemma StatementKeepsBlocked(db: Db, pid: nat, id: string)
    requires Reviewed(db.committed) && pid in db.txs && TxOk(db.committed, db.txs[pid]) && !db.txs[pid].phase.Ended?
    requires Blocked(db.committed, id)
    ensures Blocked(Statement(db, pid).committed, id)
  {
    StatementTells(db, pid);
  }

  lemma {:induction false} RunKeepsBlocked(l0: Ledger, db: Db, actions: seq<Action>, id: string)
    requires Consistent(l0, db) && EnabledAll(db, actions) && Blocked(db.committed, id)
    ensures Blocked(Exec(db, actions).committed, id)
    decreases |actions|
  {
    if actions != [] {
      if actions[0].Run? {
        assert TxOk(db.committed, db.txs[actions[0].pid]);
        StatementKeepsBlocked(db, actions[0].pid, id);
      }
      StepKeeps(l0, db, actions[0]);
      RunKeepsBlocked(l0, Step(db, actions[0]), actions[1..], id);
    }
  }

  /** That the reversal's reference be free is needed: once something else is booked under it, no rejection of the
      request ever commits. */
  lemma TakenReversalBlocksRejections(before: seq<Action>, after: seq<Action>, id: string)
    requires EnabledAll(START, before) && EnabledAll(Exec(START, before), after)
    requires Blocked(Exec(START, before).committed, id)
    ensures !Logged(Exec(Exec(START, before), after).log, RejectOp(id))
  {
    RunKeeps(EMPTY, START, before);
    RunTells(EMPTY, START, before, id);
    RunKeepsBlocked(EMPTY, Exec(START, before), after, id);
    RunTells(EMPTY, Exec(START, before), after, id);
  }

  // ---- Everybody can finish ---------------------------------------------------------------------------------

  ghost predicate CanRun(db: Db, pid: nat) {
    pid in db.txs && !db.txs[pid].phase.Ended? && !Waits(db, pid)
  }

  /** Whoever holds a reference is about to commit. */
  lemma PastTheReference(db: Db, pid: nat) returns (q: nat)
    requires pid in db.txs && db.txs[pid].phase.Logging?
    ensures CanRun(db, q)
  {
    q := pid;
    if Waits(db, pid) {
      q :| q in db.txs && q != pid && HasReference(db.txs[q]) && RefOf(db.txs[q].op) == RefOf(db.txs[pid].op);
    }
  }

  /** Whoever holds a wallet can go on, or waits for a reference. */
  lemma PastTheWallet(db: Db, pid: nat) returns (q: nat)
    requires pid in db.txs && !db.txs[pid].phase.Ended? && !db.txs[pid].phase.Begun?
    ensures CanRun(db, q)
  {
    var p := pid;
    if Waits(db, pid) && !db.txs[pid].phase.Logging? {
      p :| p in db.txs && p != pid && HasWallet(db.txs[p]) && KeyOf(db.txs[p]) == KeyOf(db.txs[pid]);
    }
    if db.txs[p].phase.Logging? {
      q := PastTheReference(db, p);
    } else {
      q := p;
    }
  }

  /** Waiting chains are short: a request's holder may wait for a wallet, a wallet's holder for a reference, and a
      reference's holder for nobody. So some open transaction can always go on. */
  lemma NoDeadlock(l0: Ledger, db: Db, pid: nat) returns (q: nat)
    requires Consistent(l0, db) && pid in db.txs && !db.txs[pid].phase.Ended?
    ensures Enabled(db, Run(q))
  {
    if !Waits(db, pid) {
      q := pid;
    } else if db.txs[pid].phase.Begun? {
      var p :| p in db.txs && p != pid && HasRequest(db.txs[p]) && IsReview(db.txs[p].op)
               && db.txs[p].op.id == db.txs[pid].op.id;
      assert TxOk(db.committed, db.txs[p]);
      q := PastTheWallet(db, p);
    } else {
      q := PastTheWallet(db, pid);
    }
  }

  ghost function Ranks(db: Db): nat -> real {
    (p: nat) => if p in db.txs then Rank(db.txs[p].phase) as real else 0.0
  }

  ghost function Left(db: Db): real {
    SumOver(db.txs.Keys, Ranks(db))
  }

  lemma {:induction false} LeftIsNotNegative(keys: set<nat>, db: Db)
    ensures SumOver(keys, Ranks(db)) >= 0.0
    decreases |keys|
  {
    if keys != {} {
      var k :| k in keys && SumOver(keys, Ranks(db)) == Ranks(db)(k) + SumOver(keys - {k}, Ranks(db));
      LeftIsNotNegative(keys - {k}, db);
    }
  }

  lemma StatementLeavesLess(l0: Ledger, db: Db, pid: nat)
    requires Consistent(l0, db) && Enabled(db, Run(pid))
    ensures 0.0 <= Left(Statement(db, pid)) <= Left(db) - 1.0
  {
    var db' := Statement(db, pid);
    StatementsRunOut(l0, db, pid);
    StatementKeepsOps(db, pid);
    SumChange(db.txs.Keys, Ranks(db), Ranks(db'), pid);
    LeftIsNotNegative(db'.txs.Keys, db');
  }

  ghost predicate AllEnded(db: Db) {
    forall p | p in db.txs :: db.txs[p].phase.Ended?
  }

  /** From every state, some run of statements in which nothing fails ends every open transaction. */
  lemma {:induction false} EverybodyCanFinish(l0: Ledger, db: Db) returns (actions: seq<Action>)
    requires Consistent(l0, db)
    ensures EnabledAll(db, actions) && AllEnded(Exec(db, actions)) && forall a | a in actions :: a.Run?
    ensures Exec(db, actions).txs.Keys == db.txs.Keys
    ensures forall p | p in db.txs :: Exec(db, actions).txs[p].op == db.txs[p].op
    decreases Left(db)
  {
    actions := [];
    if !AllEnded(db) {
      var p :| p in db.txs && !db.txs[p].phase.Ended?;
      var q := NoDeadlock(l0, db, p);
      StatementLeavesLess(l0, db, q);
      StatementKeepsOps(db, q);
      StepKeeps(l0, db, Run(q));
      var rest := EverybodyCanFinish(l0, Statement(db, q));
      actions := [Run(q)] + rest;
      assert actions[1..] == rest;
    }
  }

  /** So a race of reviews for a request can always be run to its decision, however far it has come. */
  lemma RacesCanBeDecided(before: seq<Action>, pid: nat, id: string) returns (after: seq<Action>)
    requires EnabledAll(START, before)
    requires var db := Exec(START, before);
             && Reviewable(db.committed, id) && AllSpare(db, id)
             && pid in db.txs && !db.txs[pid].phase.Ended? && IsReview(db.txs[pid].op) && db.txs[pid].op.id == id
    ensures var db := Exec(START, before);
            EnabledAll(db, after) && ReviewCount(Exec(db, after).log, id) == 1 && AllEnded(Exec(db, after))
  {
    RunKeeps(EMPTY, START, before);
    RunTells(EMPTY, START, before, id);
    var db := Exec(START, before);
    after := EverybodyCanFinish(EMPTY, db);
    RunDecides(EMPTY, db, after, pid, id);
    RunTells(EMPTY, db, after, id);
  }
}
