/** Bets, and the rules of the bet store as functions on a map from bet id to bet. */
module Bets {
  import opened Basics

  datatype Status = DebitPending | Pending | Won | Lost | Cancelled

  datatype Bet = Bet(
    id: string, user: string, event: string, market: string, outcome: string,
    odds: real, stake: real, payout: real, currency: string, status: Status, reference: string,
    debitTx: Option<nat>, creditTx: Option<nat>, created: int, settled: Option<int>)

  /** What a player asks for, once the fields are known to be present and the stake to be a positive number. */
  datatype Order = Order(
    user: string, event: string, market: string, outcome: string, stake: real, currency: string, reference: string)

  /** The settlement outcomes. */
  datatype Verdict = Wins | Loses | Voided

  function StatusOf(verdict: Verdict): Status {
    match verdict
    case Wins => Won
    case Loses => Lost
    case Voided => Cancelled
  }

  predicate Terminal(status: Status) {
    status == Won || status == Lost || status == Cancelled
  }

  function NewBet(order: Order, odds: real, id: string, now: int): Bet {
    Bet(id, order.user, order.event, order.market, order.outcome, odds, order.stake, order.stake * odds,
        order.currency, DebitPending, order.reference, None, None, now, None)
  }

  /** The columns fixed when a bet is created. */
  predicate SameTerms(a: Bet, b: Bet) {
    b == a.(status := b.status, debitTx := b.debitTx, creditTx := b.creditTx, settled := b.settled)
  }

  /** The wallet references a bet can use: its own, and one for each kind of credit. */
  function WinReference(reference: string): string { "settle-" + reference }

  function RefundReference(reference: string): string { "cancel-" + reference }

  function CreditReference(bet: Bet, verdict: Verdict): string {
    if verdict == Wins then WinReference(bet.reference) else RefundReference(bet.reference)
  }

  function CreditAmount(bet: Bet, verdict: Verdict): real {
    if verdict == Wins then bet.payout else bet.stake
  }

  ghost predicate Taken(bets: map<string, Bet>, user: string, reference: string) {
    exists id :: id in bets && bets[id].user == user && bets[id].reference == reference
  }
}
