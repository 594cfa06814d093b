/** The other half of the commit-order theorem: every sequential run is what some interleaving commits. */
module PgSequential {
  import opened Basics
  import opened Sums
  import opened Ledger
  import opened LedgerInvariant
  import opened PgWallet
  import opened PgInvariant
  import opened PgTheorems

  // ---- Only served operations are logged ------------------------------------------------------------------------

  predicate Served(e: Entry) {
    !e.op.OpenOp? && !e.reply.Refused?
  }

  predicate AllServed(log: seq<Entry>) {
    forall e | e in log :: Served(e)
  }

  lemma StatementServes(db: Db, pid: nat)
    requires pid in db.txs && TxOk(db.committed, db.txs[pid]) && AllServed(db.log)
    ensures AllServed(Statement(db, pid).log)
  {
  }

  lemma {:induction false} RunServes(l0: Ledger, db: Db, actions: seq<Action>)
    requires Consistent(l0, db) && EnabledAll(db, actions) && AllServed(db.log)
    ensures AllServed(Exec(db, actions).log)
    decreases |actions|
  {
    if actions != [] {
      if actions[0].Run? {
        assert TxOk(db.committed, db.txs[actions[0].pid]);
        StatementServes(db, actions[0].pid);
      }
      StepKeeps(l0, db, actions[0]);
      RunServes(l0, Step(db, actions[0]), actions[1..]);
    }
  }

  // ---- A transaction that runs alone ----------------------------------------------------------------------------

  ghost predicate OthersEnded(db: Db, pid: nat) {
    forall p | p in db.txs && p != pid :: db.txs[p].phase.Ended?
  }

  lemma NobodyInTheWay(db: Db, pid: nat)
    requires pid in db.txs && OthersEnded(db, pid)
    ensures !Waits(db, pid)
  {
  }

  /** The transaction is open, and all is still as it was when it opened. */
  predicate Underway(db: Db, pid: nat, l: Ledger, log: seq<Entry>, op: Op) {
    && db.committed == l && db.log == log && pid in db.txs && db.txs[pid].op == op
    && var phase := db.txs[pid].phase;
       && !phase.Ended?
       && (phase.Begun? || phase.Replaying? || IsReview(op) || op.WithdrawOp? || !Recorded(l, RefOf(op)))
       && (phase.Inserting? ==> KeyOf(db.txs[pid]) !in l.wallets)
  }

  predicate Acceptable(l: Ledger, op: Op) {
    Admits(l, op) && !Serial(l, op).reply.Refused?
  }

  /** The transaction has ended: with the sequential effect and reply if that is acceptable, else without effect. */
  predicate Over(db: Db, pid: nat, l: Ledger, log: seq<Entry>, op: Op) {
    && pid in db.txs && db.txs[pid].phase.Ended?
    && (if Acceptable(l, op)
        then db.committed == Serial(l, op).ledger && db.log == log + [Entry(op, Serial(l, op).reply)]
        else db.committed == l && db.log == log)
  }

  /** A statement that commits does what the sequential operation does. */
  lemma CommitIsSerial(l0: Ledger, db: Db, pid: nat)
    requires Consistent(l0, db) && pid in db.txs
    requires db.txs[pid].phase.Ready? || db.txs[pid].phase.Replaying? || db.txs[pid].phase.Accepted?
    ensures Over(Statement(db, pid), pid, db.committed, db.log, db.txs[pid].op)
  {
    var tx := db.txs[pid];
    assert TxOk(db.committed, tx);
    if tx.phase.Ready? {
      WrittenIsGood(db.committed, tx);
      ReadyStatement(db, pid);
    } else if tx.phase.Accepted? {
      AcceptedStatement(db, pid);
    }
  }

  lemma StatementAlone(l0: Ledger, db: Db, pid: nat, l: Ledger, log: seq<Entry>, op: Op)
    requires Consistent(l0, db) && Enabled(db, Run(pid)) && Underway(db, pid, l, log, op)
    ensures Underway(Statement(db, pid), pid, l, log, op) || Over(Statement(db, pid), pid, l, log, op)
  {
    var tx := db.txs[pid];
    assert TxOk(db.committed, tx);
    if tx.phase.Ready? || tx.phase.Replaying? || tx.phase.Accepted? {
      CommitIsSerial(l0, db, pid);
    } else {
      MovesOn(db, pid);
      StaysUnderway(db, pid, l, log, op);
      if Statement(db, pid).txs[pid].phase.Ended? { RolledBackAlone(l0, db, pid, l, log, op); }
    }
  }

  lemma RolledBackAlone(l0: Ledger, db: Db, pid: nat, l: Ledger, log: seq<Entry>, op: Op)
    requires Consistent(l0, db) && Enabled(db, Run(pid)) && Underway(db, pid, l, log, op)
    requires var phase := db.txs[pid].phase; !phase.Ready? && !phase.Replaying? && !phase.Accepted?
    requires pid in Statement(db, pid).txs && Statement(db, pid).txs[pid].phase.Ended?
    ensures Over(Statement(db, pid), pid, l, log, op)
  {
    assert TxOk(db.committed, db.txs[pid]);
    OnlyItMoves(db, pid);
    VersionMatches(l0, db, pid);
    EndsRolledBack(db, pid);
    RollbackHasAReason(l0, db, pid);
  }

  lemma EndsRolledBack(db: Db, pid: nat)
    requires pid in db.txs && TxOk(db.committed, db.txs[pid]) && !db.txs[pid].phase.Ended?
    requires var phase := db.txs[pid].phase; !phase.Ready? && !phase.Replaying? && !phase.Accepted?
    requires pid in Statement(db, pid).txs && Statement(db, pid).txs[pid].phase.Ended?
    requires Statement(db, pid).txs[pid].phase != Ended(Conflict)
    ensures Statement(db, pid).txs[pid].phase == Ended(RolledBack)
  {
  }

  lemma StaysUnderway(db: Db, pid: nat, l: Ledger, log: seq<Entry>, op: Op)
    requires pid in db.txs && TxOk(l, db.txs[pid]) && Underway(db, pid, l, log, op)
    requires var phase := db.txs[pid].phase; !phase.Ready? && !phase.Replaying? && !phase.Accepted?
    requires pid in Statement(db, pid).txs
    ensures !Statement(db, pid).txs[pid].phase.Ended? ==> Underway(Statement(db, pid), pid, l, log, op)
  {
  }

  lemma {:induction false} RunAlone(l0: Ledger, db: Db, pid: nat, l: Ledger, log: seq<Entry>, op: Op)
    returns (actions: seq<Action>)
    requires Consistent(l0, db) && OthersEnded(db, pid)
    requires Underway(db, pid, l, log, op) || Over(db, pid, l, log, op)
    ensures EnabledAll(db, actions) && Over(Exec(db, actions), pid, l, log, op)
    ensures AllEnded(Exec(db, actions)) && Exec(db, actions).txs.Keys == db.txs.Keys
    decreases Rank(db.txs[pid].phase)
  {
    actions := [];
    if !db.txs[pid].phase.Ended? {
      NobodyInTheWay(db, pid);
      StatementAlone(l0, db, pid, l, log, op);
      StatementKeepsOps(db, pid);
      StatementsRunOut(l0, db, pid);
      StepKeeps(l0, db, Run(pid));
      var rest := RunAlone(l0, Statement(db, pid), pid, l, log, op);
      actions := [Run(pid)] + rest;
      assert actions[1..] == rest;
    }
  }

  /** Opened while no other transaction is open, an operation commits with its sequential effect and reply exactly when
      that is acceptable, and leaves everything as it was when it is not. */
  lemma AloneIsSequential(l0: Ledger, db: Db, pid: nat, op: Op) returns (actions: seq<Action>)
    requires Consistent(l0, db) && AllEnded(db) && Enabled(db, Open(pid, op))
    ensures EnabledAll(db, actions) && Over(Exec(db, actions), pid, db.committed, db.log, op)
    ensures AllEnded(Exec(db, actions)) && Exec(db, actions).txs.Keys == db.txs.Keys + {pid}
  {
    var begun := Step(db, Open(pid, op));
    StepKeeps(l0, db, Open(pid, op));
    var rest := RunAlone(l0, begun, pid, db.committed, db.log, op);
    actions := [Open(pid, op)] + rest;
    assert actions[1..] == rest;
  }

  // ---- Every sequential run -------------------------------------------------------------------------------------

  lemma {:induction false} RunsJoin(db: Db, first: seq<Action>, second: seq<Action>)
    requires EnabledAll(db, first) && EnabledAll(Exec(db, first), second)
    ensures EnabledAll(db, first + second) && Exec(db, first + second) == Exec(Exec(db, first), second)
    decreases |first|
  {
    if first == [] {
      assert [] + second == second;
    } else {
      assert (first + second)[0] == first[0] && (first + second)[1..] == first[1..] + second;
      RunsJoin(Step(db, first[0]), first[1..], second);
    }
  }

  lemma OneThenRest(before: seq<Entry>, log: seq<Entry>)
    requires log != []
    ensures before + [log[0]] + log[1..] == before + log
  {
  }

  lemma PerformedOne(l0: Ledger, db: Db, e: Entry, pid: nat) returns (actions: seq<Action>)
    requires Consistent(l0, db) && AllEnded(db) && pid !in db.txs
    requires Admits(db.committed, e.op) && Served(e) && Serial(db.committed, e.op).reply == e.reply
    ensures EnabledAll(db, actions) && Consistent(l0, Exec(db, actions)) && AllEnded(Exec(db, actions))
    ensures Exec(db, actions).txs.Keys == db.txs.Keys + {pid}
    ensures Exec(db, actions).log == db.log + [e] && Exec(db, actions).committed == Serial(db.committed, e.op).ledger
  {
    actions := AloneIsSequential(l0, db, pid, e.op);
    RunKeeps(l0, db, actions);
  }

  lemma {:induction false} Performed(l0: Ledger, db: Db, log: seq<Entry>, l: Ledger, next: nat)
    returns (actions: seq<Action>)
    requires Consistent(l0, db) && AllEnded(db) && forall p | p in db.txs :: p < next
    requires Explains(db.committed, log, l) && AllServed(log)
    ensures EnabledAll(db, actions) && Exec(db, actions).log == db.log + log && Exec(db, actions).committed == l
    decreases |log|
  {
    actions := [];
    if log == [] {
      assert db.log + log == db.log;
    } else {
      assert Served(log[0]);
      var first := PerformedOne(l0, db, log[0], next);
      var rest := Performed(l0, Exec(db, first), log[1..], l, next + 1);
      RunsJoin(db, first, rest);
      actions := first + rest;
      OneThenRest(db.log, log);
    }
  }

  ghost predicate Commits(log: seq<Entry>, l: Ledger) {
    exists actions: seq<Action> ::
      EnabledAll(START, actions) && Exec(START, actions).log == log && Exec(START, actions).committed == l
  }

  /** What interleavings can commit, replies included, is what can be run one operation at a time with none refused. */
  lemma CommitsExactly(log: seq<Entry>, l: Ledger)
    ensures Commits(log, l) <==> Explains(EMPTY, log, l) && AllServed(log)
  {
    if Commits(log, l) {
      var actions: seq<Action> :|
        EnabledAll(START, actions) && Exec(START, actions).log == log && Exec(START, actions).committed == l;
      CommitOrderExplains(actions);
      RunServes(EMPTY, START, actions);
    }
    if Explains(EMPTY, log, l) && AllServed(log) {
      var actions := Performed(EMPTY, START, log, l, 0);
      assert [] + log == log;
      assert Exec(START, actions).log == log;
    }
  }

  // ---- Whether a rejection can still commit -----------------------------------------------------------------------

  lemma FailLeavesLess(db: Db, pid: nat)
    requires pid in db.txs && !db.txs[pid].phase.Ended?
    ensures 0.0 <= Left(Step(db, Fail(pid))) <= Left(db) - 1.0
  {
    var db' := Step(db, Fail(pid));
    assert db'.txs.Keys == db.txs.Keys;
    SumChange(db.txs.Keys, Ranks(db), Ranks(db'), pid);
    LeftIsNotNegative(db'.txs.Keys, db');
  }

  /** All open transactions may fail, and then nothing has changed. */
  lemma {:induction false} EverybodyCanFail(l0: Ledger, db: Db) returns (actions: seq<Action>)
    requires Consistent(l0, db)
    ensures EnabledAll(db, actions) && AllEnded(Exec(db, actions)) && Exec(db, actions).txs.Keys == db.txs.Keys
    ensures Exec(db, actions).committed == db.committed && Exec(db, actions).log == db.log
    decreases Left(db)
  {
    actions := [];
    if !AllEnded(db) {
      var p :| p in db.txs && !db.txs[p].phase.Ended?;
      FailLeavesLess(db, p);
      StepKeeps(l0, db, Fail(p));
      var rest := EverybodyCanFail(l0, Step(db, Fail(p)));
      actions := [Fail(p)] + rest;
      assert actions[1..] == rest;
    }
  }

  lemma {:induction false} UnusedPid(pids: set<nat>) returns (pid: nat)
    ensures pid !in pids && forall p | p in pids :: p < pid
  {
    if pids == {} {
      pid := 0;
    } else {
      var p :| p in pids;
      var rest := UnusedPid(pids - {p});
      pid := if p < rest then rest else p + 1;
      forall q | q in pids ensures q < pid { assert q == p || q in pids - {p}; }
    }
  }

  lemma FreeRejectionIsAcceptable(l: Ledger, id: string)
    requires Good(l) && id in l.requests && l.requests[id].status == Awaiting && id + REVERSAL !in l.byRef
    ensures Acceptable(l, RejectOp(id))
  {
    assert RequestMatched(l, id);
  }

  ghost predicate CanBeRejected(db: Db, id: string) {
    exists after: seq<Action> :: EnabledAll(db, after) && Logged(Exec(db, after).log, RejectOp(id))
  }

  lemma FreeCanBeRejected(l0: Ledger, db: Db, id: string)
    requires Consistent(l0, db) && id in db.committed.requests && db.committed.requests[id].status == Awaiting
    requires id + REVERSAL !in db.committed.byRef
    ensures CanBeRejected(db, id)
  {
    var first := EverybodyCanFail(l0, db);
    RunKeeps(l0, db, first);
    var pid := UnusedPid(db.txs.Keys);
    FreeRejectionIsAcceptable(db.committed, id);
    var rest := AloneIsSequential(l0, Exec(db, first), pid, RejectOp(id));
    RunsJoin(db, first, rest);
    var log := Exec(db, first + rest).log;
    assert log[|db.log|].op == RejectOp(id);
  }

  /** Whatever else is under way, a request that awaits review can still be rejected if and only if nothing is booked
      under the reference of its reversal. */
  lemma RejectedLaterExactly(before: seq<Action>, id: string)
    requires EnabledAll(START, before)
    requires var l := Exec(START, before).committed; id in l.requests && l.requests[id].status == Awaiting
    ensures CanBeRejected(Exec(START, before), id) <==> id + REVERSAL !in Exec(START, before).committed.byRef
  {
    var db := Exec(START, before);
    RunKeeps(EMPTY, START, before);
    if id + REVERSAL in db.committed.byRef {
      forall after: seq<Action> | EnabledAll(db, after) ensures !Logged(Exec(db, after).log, RejectOp(id)) {
        TakenReversalBlocksRejections(before, after, id);
      }
    } else {
      FreeCanBeRejected(EMPTY, db, id);
    }
  }

  const SQUATTED := [
    Entry(CreditOp("ann", "USD", Number(2.0), "d"), Txn(0)),
    Entry(WithdrawOp("ann", "USD", Number(1.0), "w"), Req("w")),
    Entry(CreditOp("ann", "USD", Number(1.0), "w" + REVERSAL), Txn(2))]

  /** A run after which a request awaits review and no rejection of it can ever commit. */
  lemma ReversalsCanBeTaken() returns (actions: seq<Action>)
    ensures EnabledAll(START, actions)
    ensures var db := Exec(START, actions);
            && "w" in db.committed.requests && db.committed.requests["w"].status == Awaiting
            && !CanBeRejected(db, "w")
  {
    var l := SquattedIsExplained();
    CommitsExactly(SQUATTED, l);
    actions :| EnabledAll(START, actions) && Exec(START, actions).log == SQUATTED
               && Exec(START, actions).committed == l;
    RejectedLaterExactly(actions, "w");
  }

  lemma SquattedIsExplained() returns (l: Ledger)
    ensures Explains(EMPTY, SQUATTED, l) && AllServed(SQUATTED)
    ensures "w" in l.requests && l.requests["w"].status == Awaiting && "w" + REVERSAL in l.byRef
  {
    var l1 := Serial(EMPTY, SQUATTED[0].op).ledger;
    var l2 := Serial(l1, SQUATTED[1].op).ledger;
    l := Serial(l2, SQUATTED[2].op).ledger;
    assert l1.wallets[WalletKey("ann", "USD")].balance == 2.0 && l1.byRef == map["d" := 0];
    assert "w" + REVERSAL != "d" && "w" + REVERSAL != "w";
    assert l2.byRef == map["d" := 0, "w" := 1] && l2.requests["w"].status == Awaiting;
    assert Explains(l2, SQUATTED[2..], l);
    assert Explains(l1, SQUATTED[1..], l);
  }
}
