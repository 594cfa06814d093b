/**
  Bet placement and settlement as a machine over the bet store and the wallet.
  A process is one call of PlaceBet or SettleBet; its phase is the store or wallet call it makes next.
  Each step makes exactly one such call, so runs of the machine are all interleavings of those calls.
*/
module Saga {
  import opened Basics
  import opened Bets
  import L = Ledger

  datatype Proc =
    | Checking(order: Order)                      // about to look the reference up
    | Validating(order: Order)                    // about to ask the odds feed
    | Creating(order: Order, odds: real)          // about to create the bet
    | Conflicted(order: Order)                    // about to read the bet that already has the reference
    | Debiting(order: Order, id: string)          // about to debit the stake
    | Cancelling(id: string)                      // about to mark the bet cancelled after a failed debit
    | Finalising(id: string, tx: nat)             // about to mark the bet pending with its debit
    | Reading(id: string, verdict: Verdict)       // about to read the bet to settle
    | Marking(bet: Bet, verdict: Verdict)         // about to write the settled status
    | Crediting(bet: Bet, verdict: Verdict)       // about to credit the payout or the refund
    | Recording(id: string, tx: nat)              // about to store the credit's transaction id
    | Finished

  datatype World = World(bets: map<string, Bet>, wallet: L.Ledger, procs: map<nat, Proc>)

  /** What the surroundings decide at a step: whether the call fails without effect, the odds the feed vouches for,
      the generated id and the clock. */
  datatype Input = Input(fails: bool, odds: Option<real>, id: string, now: int)

  datatype Action =
    | Begin(pid: nat, proc: Proc)
    | Advance(pid: nat, input: Input)
    | External(op: L.Op)

  const START := World(map[], L.EMPTY, map[])

  ghost function Next(w: World, pid: nat, input: Input): World
    requires pid in w.procs
  {
    match w.procs[pid]
    case Checking(order) =>
      Goto(w, pid, if input.fails || Taken(w.bets, order.user, order.reference) then Finished else Validating(order))
    case Validating(order) =>
      Goto(w, pid, if input.odds.None? then Finished else Creating(order, input.odds.value))
    case Creating(order, odds) =>
      if input.fails then Goto(w, pid, Finished)
      else if Taken(w.bets, order.user, order.reference) then Goto(w, pid, Conflicted(order))
      else Goto(w.(bets := w.bets[input.id := NewBet(order, odds, input.id, input.now)]), pid, Debiting(order, input.id))
    case Conflicted(order) => Goto(w, pid, Finished)
    case Debiting(order, id) =>
      if input.fails then Goto(w, pid, Cancelling(id))
      else
        var debited := L.Debit(w.wallet, order.user, order.currency, Number(order.stake), order.reference);
        Goto(w.(wallet := debited.ledger), pid,
             if debited.reply.Txn? then Finalising(id, debited.reply.index) else Cancelling(id))
    case Cancelling(id) =>
      if input.fails || id !in w.bets then Goto(w, pid, Finished)
      else Goto(Put(w, w.bets[id].(status := Cancelled, settled := Some(input.now)), id), pid, Finished)
    case Finalising(id, tx) =>
      if input.fails || id !in w.bets then Goto(w, pid, Finished)
      else Goto(Put(w, w.bets[id].(status := Pending, debitTx := Some(tx)), id), pid, Finished)
    case Reading(id, verdict) =>
      if input.fails || id !in w.bets || w.bets[id].status != Pending then Goto(w, pid, Finished)
      else Goto(w, pid, Marking(w.bets[id], verdict))
    case Marking(bet, verdict) =>
      if input.fails || bet.id !in w.bets then Goto(w, pid, Finished)
      else
        Goto(Put(w, w.bets[bet.id].(status := StatusOf(verdict), settled := Some(input.now)), bet.id), pid,
             if verdict == Loses then Finished else Crediting(bet, verdict))
    case Crediting(bet, verdict) =>
      if input.fails then Goto(w, pid, Finished)
      else
        var credited := L.Credit(w.wallet, bet.user, bet.currency, Number(CreditAmount(bet, verdict)),
                                 CreditReference(bet, verdict));
        Goto(w.(wallet := credited.ledger), pid,
             if credited.reply.Txn? then Recording(bet.id, credited.reply.index) else Finished)
    case Recording(id, tx) =>
      if input.fails || id !in w.bets then Goto(w, pid, Finished)
      else Goto(Put(w, w.bets[id].(creditTx := Some(tx)), id), pid, Finished)
    case Finished => w
  }

  function Goto(w: World, pid: nat, proc: Proc): World {
    w.(procs := w.procs[pid := proc])
  }

  function Put(w: World, bet: Bet, id: string): World {
    w.(bets := w.bets[id := bet])
  }

  ghost function Step(w: World, a: Action): World {
    match a
    case Begin(pid, proc) => Goto(w, pid, proc)
    case Advance(pid, input) => if pid in w.procs then Next(w, pid, input) else w
    case External(op) => w.(wallet := L.Apply(w.wallet, op))
  }

  ghost function Exec(w: World, actions: seq<Action>): World
    decreases |actions|
  {
    if actions == [] then w else Exec(Step(w, actions[0]), actions[1..])
  }

  // ---- Hypotheses on a run ----------------------------------------------------------------------------------

  predicate Reserved(reference: string) {
    "settle-" <= reference || "cancel-" <= reference
  }

  /** `refs` assigns every bet reference of the run to the one user who uses it. */
  predicate WellChosen(refs: map<string, string>) {
    forall r | r in refs :: r != "" && !Reserved(r)
  }

  predicate Owned(refs: map<string, string>, order: Order) {
    order.reference in refs && refs[order.reference] == order.user && order.stake > 0.0
  }

  /** The reference of wallet traffic that is not a bet's: a deposit number, a withdrawal id, anything no bet uses. */
  predicate Foreign(refs: map<string, string>, reference: string) {
    reference !in refs && !Reserved(reference)
  }

  /** No settlement of the bet with another verdict stands between its read and its write. */
  ghost predicate NoRival(w: World, id: string, verdict: Verdict) {
    forall p | p in w.procs && w.procs[p].Marking? && w.procs[p].bet.id == id :: w.procs[p].verdict == verdict
  }

  ghost predicate Allowed(refs: map<string, string>, w: World, a: Action) {
    match a
    case Begin(pid, proc) =>
      pid !in w.procs && (proc.Reading? || (proc.Checking? && Owned(refs, proc.order)))
    case Advance(pid, input) =>
      && pid in w.procs
      && (w.procs[pid].Creating? ==> input.id !in w.bets)
      && (w.procs[pid].Reading? && !input.fails && w.procs[pid].id in w.bets
          && w.bets[w.procs[pid].id].status == Pending ==>
            NoRival(w, w.procs[pid].id, w.procs[pid].verdict))
    case External(op) =>
      && L.Admits(w.wallet, op)
      && (op.CreditOp? || op.DebitOp? ==> Foreign(refs, op.reference))
      && (op.WithdrawOp? ==> Foreign(refs, op.id))
  }

  ghost predicate AllowedAll(refs: map<string, string>, w: World, actions: seq<Action>)
    decreases |actions|
  {
    actions == [] || (Allowed(refs, w, actions[0]) && AllowedAll(refs, Step(w, actions[0]), actions[1..]))
  }
}
