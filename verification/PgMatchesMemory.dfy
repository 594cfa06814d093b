/** Exactly when the two wallet stores agree. */
module PgMatchesMemory {
  import opened Basics
  import opened Ledger
  import Sequential = Ledger
  import opened LedgerInvariant
  import opened PgWallet
  import opened PgInvariant
  import opened PgTheorems
  import opened PgSequential

  // ---- Two ledgers in step --------------------------------------------------------------------------------------

  /** The reference of a rejected request's reversal. */
  predicate Reversing(l: Ledger, r: string) {
    r == Origin(r) + REVERSAL && Origin(r) in l.requests && l.requests[Origin(r)].status == Rejected
  }

  ghost predicate IndexesAgree(pg: Ledger, mem: Ledger, r: string) {
    && (r in mem.byRef ==> r in pg.byRef && pg.byRef[r] == mem.byRef[r])
    && (Reversing(mem, r) <==> r in pg.byRef && r !in mem.byRef)
    && (r in pg.byRef ==> pg.byRef[r] < |pg.rows|)
    && (r in mem.requests ==> r in mem.byRef)
  }

  /** Equal but for the index: Postgres also indexes the reversals of rejected requests, and nothing else. */
  ghost predicate Agree(pg: Ledger, mem: Ledger) {
    && pg.wallets == mem.wallets && pg.rows == mem.rows && pg.requests == mem.requests
    && forall r :: IndexesAgree(pg, mem, r)
  }

  lemma OriginOf(id: string)
    ensures Origin(id + REVERSAL) == id
  {
  }

  /** The operation moves money under a reference that a reversal already has. */
  predicate Claims(l: Ledger, op: Op) {
    (op.CreditOp? || op.DebitOp?) && Reversing(l, op.reference)
  }

  lemma LooksUpAlike(pg: Ledger, mem: Ledger, op: Op)
    requires Agree(pg, mem) && (op.CreditOp? || op.DebitOp?) && !Claims(mem, op)
    ensures Recorded(pg, op.reference) <==> Recorded(mem, op.reference)
    ensures Recorded(pg, op.reference) ==> pg.byRef[op.reference] == mem.byRef[op.reference]
  {
    assert IndexesAgree(pg, mem, op.reference);
  }

  /** Booking the same row in both keeps them in agreement. */
  lemma PostAgrees(pg: Ledger, mem: Ledger, user: string, currency: string, kind: Kind, amount: real,
                   status: RowStatus, reference: string, indexed: bool)
    requires Agree(pg, mem) && WalletKey(user, currency) in mem.wallets && !Reversing(mem, reference)
    ensures Agree(Post(pg, user, currency, kind, amount, status, reference, indexed),
                  Post(mem, user, currency, kind, amount, status, reference, indexed))
  {
    var pg' := Post(pg, user, currency, kind, amount, status, reference, indexed);
    var mem' := Post(mem, user, currency, kind, amount, status, reference, indexed);
    forall r ensures IndexesAgree(pg', mem', r) { assert IndexesAgree(pg, mem, r); }
  }

  lemma OpenAgrees(pg: Ledger, mem: Ledger, user: string, currency: string)
    requires Agree(pg, mem)
    ensures Agree(OpenWallet(pg, user, currency), OpenWallet(mem, user, currency))
  {
    forall r ensures IndexesAgree(OpenWallet(pg, user, currency), OpenWallet(mem, user, currency), r) {
      assert IndexesAgree(pg, mem, r);
    }
  }

  lemma CreditAgrees(pg: Ledger, mem: Ledger, user: string, currency: string, amount: Text, reference: string)
    requires Agree(pg, mem) && !Reversing(mem, reference)
    ensures var c, d := Credit(pg, user, currency, amount, reference), Credit(mem, user, currency, amount, reference);
            Agree(c.ledger, d.ledger) && c.reply == d.reply
  {
    LooksUpAlike(pg, mem, CreditOp(user, currency, amount, reference));
    OpenAgrees(pg, mem, user, currency);
    if amount.Number? {
      PostAgrees(OpenWallet(pg, user, currency), OpenWallet(mem, user, currency), user, currency,
                 Deposit, amount.value, Completed, reference, reference != "");
    }
  }

  lemma DebitAgrees(pg: Ledger, mem: Ledger, user: string, currency: string, amount: Text, reference: string)
    requires Agree(pg, mem) && !Reversing(mem, reference)
    ensures var c, d := Debit(pg, user, currency, amount, reference), Debit(mem, user, currency, amount, reference);
            Agree(c.ledger, d.ledger) && c.reply == d.reply
  {
    LooksUpAlike(pg, mem, DebitOp(user, currency, amount, reference));
    if amount.Number? && WalletKey(user, currency) in mem.wallets {
      PostAgrees(pg, mem, user, currency, Withdrawal, amount.value, Completed, reference, reference != "");
    }
  }

  lemma WithdrawAgrees(pg: Ledger, mem: Ledger, user: string, currency: string, amount: Text, id: string)
    requires Agree(pg, mem) && id !in pg.byRef
    ensures var c, d := Withdraw(pg, user, currency, amount, id), Withdraw(mem, user, currency, amount, id);
            Agree(c.ledger, d.ledger) && c.reply == d.reply
  {
    assert IndexesAgree(pg, mem, id);
    if amount.Number? && WalletKey(user, currency) in mem.wallets {
      PostAgrees(pg, mem, user, currency, Withdrawal, amount.value, Pending, id, true);
      NewRequestAgrees(Post(pg, user, currency, Withdrawal, amount.value, Pending, id, true),
                       Post(mem, user, currency, Withdrawal, amount.value, Pending, id, true), id,
                       Request(user, WalletKey(user, currency), currency, amount.value, Awaiting));
    }
  }

  lemma NewRequestAgrees(pg: Ledger, mem: Ledger, id: string, req: Request)
    requires Agree(pg, mem) && id in mem.byRef && id !in mem.requests && req.status == Awaiting
    ensures Agree(pg.(requests := pg.requests[id := req]), mem.(requests := mem.requests[id := req]))
  {
    var pg', mem' := pg.(requests := pg.requests[id := req]), mem.(requests := mem.requests[id := req]);
    forall r ensures IndexesAgree(pg', mem', r) {
      assert IndexesAgree(pg, mem, r);
    }
  }

  /** Reviewing the request in both, and marking its row. */
  lemma MarkAgrees(pg: Ledger, mem: Ledger, id: string, status: RowStatus)
    requires Agree(pg, mem) && id in mem.requests
    ensures Agree(Mark(pg, id, status), Mark(mem, id, status))
  {
    assert IndexesAgree(pg, mem, id);
    forall r ensures IndexesAgree(Mark(pg, id, status), Mark(mem, id, status), r) { assert IndexesAgree(pg, mem, r); }
  }

  lemma ApproveAgrees(pg: Ledger, mem: Ledger, id: string)
    requires Agree(pg, mem)
    ensures Agree(Approve(pg, id).ledger, Approve(mem, id).ledger)
    ensures Approve(pg, id).reply == Approve(mem, id).reply
  {
    if id in mem.requests && mem.requests[id].status == Awaiting {
      var requests := mem.requests[id := mem.requests[id].(status := Approved)];
      var pg', mem' := pg.(requests := requests), mem.(requests := requests);
      forall r ensures IndexesAgree(pg', mem', r) { assert IndexesAgree(pg, mem, r); }
      MarkAgrees(pg', mem', id, Completed);
    }
  }

  /** A rejection that Postgres accepts. */
  lemma RejectAgrees(pg: Ledger, mem: Ledger, id: string)
    requires Agree(pg, mem) && RejectIndexed(pg, id).reply == Req(id)
    ensures Agree(RejectIndexed(pg, id).ledger, Reject(mem, id).ledger) && Reject(mem, id).reply == Req(id)
  {
    assert IndexesAgree(pg, mem, id);
    var pg', mem' := RejectIndexed(pg, id).ledger, Reject(mem, id).ledger;
    assert pg'.rows == mem'.rows && |pg'.rows| == |pg.rows| + 1;
    forall r ensures IndexesAgree(pg', mem', r) {
      assert IndexesAgree(pg, mem, r);
      RejectedNow(pg, mem, id, r);
    }
  }

  lemma RejectedNow(pg: Ledger, mem: Ledger, id: string, r: string)
    requires Reject(mem, id).reply == Req(id)
    ensures Reversing(Reject(mem, id).ledger, r) <==> Reversing(mem, r) || r == id + REVERSAL
  {
    OriginOf(id);
  }

  /** What the in-memory store replies. */
  function Answer(mem: Ledger, op: Op): Reply {
    if op.RejectOp? then Reject(mem, op.id).reply else Serial(mem, op).reply
  }

  lemma StepAgrees(pg: Ledger, mem: Ledger, op: Op)
    requires Agree(pg, mem) && !Claims(mem, op) && Admits(pg, op)
    requires op.RejectOp? ==> Serial(pg, op).reply == Req(op.id)
    ensures Agree(Serial(pg, op).ledger, Apply(mem, op)) && Serial(pg, op).reply == Answer(mem, op)
  {
    match op
    case OpenOp(user, currency) => OpenAgrees(pg, mem, user, currency);
    case CreditOp(user, currency, amount, reference) => CreditAgrees(pg, mem, user, currency, amount, reference);
    case DebitOp(user, currency, amount, reference) => DebitAgrees(pg, mem, user, currency, amount, reference);
    case WithdrawOp(user, currency, amount, id) => WithdrawAgrees(pg, mem, user, currency, amount, id);
    case ApproveOp(id) => ApproveAgrees(pg, mem, id);
    case RejectOp(id) => RejectAgrees(pg, mem, id);
  }

  /** Postgres answers with the reversal's row where the in-memory store books a new row or refuses. */
  lemma ClaimsTellApart(pg: Ledger, mem: Ledger, op: Op)
    requires Agree(pg, mem) && Claims(mem, op)
    ensures Serial(pg, op).reply != Answer(mem, op)
  {
    assert IndexesAgree(pg, mem, op.reference);
  }

  // ---- Two runs in step -----------------------------------------------------------------------------------------

  function Ops(log: seq<Entry>): (ops: seq<Op>)
    ensures |ops| == |log|
  {
    if log == [] then [] else [log[0].op] + Ops(log[1..])
  }

  ghost predicate SameAnswers(mem: Ledger, log: seq<Entry>)
    decreases |log|
  {
    log == [] || (log[0].reply == Answer(mem, log[0].op) && SameAnswers(Apply(mem, log[0].op), log[1..]))
  }

  /** A later operation moves money under the reference of an earlier rejection's reversal. */
  predicate ClaimedLater(earlier: Op, later: Op) {
    earlier.RejectOp? && (later.CreditOp? || later.DebitOp?) && later.reference == earlier.id + REVERSAL
  }

  predicate NoReversalClaimed(log: seq<Entry>) {
    forall i, j | 0 <= i < j < |log| :: !ClaimedLater(log[i].op, log[j].op)
  }

  ghost predicate NoneClaims(mem: Ledger, log: seq<Entry>) {
    forall e | e in log :: !Claims(mem, e.op)
  }

  lemma ClaimsAfter(mem: Ledger, op: Op, later: Op)
    requires op.RejectOp? ==> Reject(mem, op.id).reply == Req(op.id)
    requires op.WithdrawOp? ==> op.id !in mem.requests
    ensures Claims(Apply(mem, op), later) <==> Claims(mem, later) || ClaimedLater(op, later)
  {
    if later.CreditOp? || later.DebitOp? {
      if op.RejectOp? {
        RejectedNow(mem, mem, op.id, later.reference);
      } else {
        RejectionsStay(mem, op, later.reference);
      }
    }
  }

  lemma RejectionsStay(mem: Ledger, op: Op, r: string)
    requires !op.RejectOp? && (op.WithdrawOp? ==> op.id !in mem.requests)
    ensures Reversing(Apply(mem, op), r) <==> Reversing(mem, r)
  {
  }

  lemma LogUnfolds(mem: Ledger, log: seq<Entry>)
    requires log != [] && (log[0].op.RejectOp? ==> Reject(mem, log[0].op.id).reply == Req(log[0].op.id))
    requires log[0].op.WithdrawOp? ==> log[0].op.id !in mem.requests
    ensures NoneClaims(mem, log) && NoReversalClaimed(log)
            <==> !Claims(mem, log[0].op) && NoneClaims(Apply(mem, log[0].op), log[1..]) && NoReversalClaimed(log[1..])
  {
    var rest := log[1..];
    forall e | e in log
      ensures Claims(Apply(mem, log[0].op), e.op) <==> Claims(mem, e.op) || ClaimedLater(log[0].op, e.op)
    {
      ClaimsAfter(mem, log[0].op, e.op);
    }
  }

  /** Both runs answer alike throughout exactly when no reversal's reference is claimed. */
  lemma {:induction false} LogMatches(pg: Ledger, mem: Ledger, log: seq<Entry>, final: Ledger)
    requires Agree(pg, mem) && Explains(pg, log, final) && AllServed(log)
    ensures SameAnswers(mem, log) <==> NoneClaims(mem, log) && NoReversalClaimed(log)
    ensures SameAnswers(mem, log) ==> Agree(final, Sequential.Run(mem, Ops(log)))
    decreases |log|
  {
    if log != [] {
      assert Served(log[0]);
      if Claims(mem, log[0].op) {
        ClaimsTellApart(pg, mem, log[0].op);
        assert log[0] in log;
      } else {
        StepAgrees(pg, mem, log[0].op);
        assert log[0].op.WithdrawOp? ==> IndexesAgree(pg, mem, log[0].op.id);
        assert Ops(log)[0] == log[0].op && Ops(log)[1..] == Ops(log[1..]);
        LogMatches(Serial(pg, log[0].op).ledger, Apply(mem, log[0].op), log[1..], final);
        LogUnfolds(mem, log);
      }
    }
  }

  // ---- Every interleaving ---------------------------------------------------------------------------------------

  lemma EmptyAgrees()
    ensures Agree(EMPTY, EMPTY)
  {
    forall r ensures IndexesAgree(EMPTY, EMPTY, r) {}
  }

  /** Whatever the interleaving, the in-memory store run on the committed operations in commit order gives the same
      replies if and only if no credit or debit commits under the reference of a reversal that committed before it; and
      then it ends with the same wallets, the same rows and the same requests. */
  lemma PostgresMatchesMemory(actions: seq<Action>)
    requires EnabledAll(START, actions)
    ensures var db := Exec(START, actions);
            var mem := Sequential.Run(EMPTY, Ops(db.log));
            && (SameAnswers(EMPTY, db.log) <==> NoReversalClaimed(db.log))
            && (NoReversalClaimed(db.log) ==>
                  && db.committed.wallets == mem.wallets && db.committed.rows == mem.rows
                  && db.committed.requests == mem.requests)
  {
    CommitOrderExplains(actions);
    EmptyAgrees();
    RunServes(EMPTY, START, actions);
    LogMatches(EMPTY, EMPTY, Exec(START, actions).log, Exec(START, actions).committed);
  }

  // ---- A run that tells them apart ------------------------------------------------------------------------------

  const APART := [
    Entry(CreditOp("ann", "USD", Number(2.0), "d"), Txn(0)),
    Entry(WithdrawOp("ann", "USD", Number(1.0), "w"), Req("w")),
    Entry(RejectOp("w"), Req("w")),
    Entry(CreditOp("ann", "USD", Number(1.0), "w" + REVERSAL), Txn(2))]

  /** Some interleaving commits a rejection and then a deposit under the reference of its reversal: Postgres takes the
      deposit for a replay, the in-memory store books it. */
  lemma StoresCanDiffer() returns (actions: seq<Action>)
    ensures EnabledAll(START, actions) && Exec(START, actions).log == APART
    ensures !SameAnswers(EMPTY, Exec(START, actions).log)
  {
    var l := ApartIsExplained();
    CommitsExactly(APART, l);
    actions :| EnabledAll(START, actions) && Exec(START, actions).log == APART && Exec(START, actions).committed == l;
    PostgresMatchesMemory(actions);
    assert ClaimedLater(APART[2].op, APART[3].op);
  }

  lemma ApartIsExplained() returns (l: Ledger)
    ensures Explains(EMPTY, APART, l) && AllServed(APART)
  {
    var l1 := Serial(EMPTY, APART[0].op).ledger;
    var l2 := Serial(l1, APART[1].op).ledger;
    var l3 := Serial(l2, APART[2].op).ledger;
    l := Serial(l3, APART[3].op).ledger;
    assert l1.wallets[WalletKey("ann", "USD")].balance == 2.0 && l1.byRef == map["d" := 0];
    assert l2.byRef == map["d" := 0, "w" := 1] && l2.requests["w"].status == Awaiting;
    assert "w" + REVERSAL != "d" && "w" + REVERSAL != "w";
    assert l3.byRef == map["d" := 0, "w" := 1, "w" + REVERSAL := 2];
    assert Explains(l3, APART[3..], l);
    assert Explains(l2, APART[2..], l);
    assert Explains(l1, APART[1..], l);
  }
}
