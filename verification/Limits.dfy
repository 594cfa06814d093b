/** The gateway's check on deposit and withdrawal amounts. */
module Limits {
  import opened Basics
  import opened Ledger
  import opened LedgerTheorems

  /** A configured limit; the empty text means there is none. */
  datatype Bound = Unset | Limit(text: Text)

  datatype Rejection =
    | AmountRequired | InvalidAmount | NotPositive
    | InvalidMinimum | BelowMinimum | InvalidMaximum | AboveMaximum | InvalidDaily | AboveDaily

  predicate AtLeast(value: real, bound: Bound) {
    bound.Limit? ==> bound.text.Number? && bound.text.value <= value
  }

  predicate AtMost(value: real, bound: Bound) {
    bound.Limit? ==> bound.text.Number? && value <= bound.text.value
  }

  /** `None` for the amount is the empty text. An amount passes exactly when it is a positive number within every
      configured limit, and every configured limit reads as a number. */
  function Validate(amount: Option<Text>, min: Bound, max: Bound, daily: Bound): (rejection: Option<Rejection>)
    ensures rejection.None? <==>
              && amount.Some? && amount.value.Number? && amount.value.value > 0.0
              && AtLeast(amount.value.value, min) && AtMost(amount.value.value, max)
              && AtMost(amount.value.value, daily)
  {
    if amount.None? then Some(AmountRequired)
    else if amount.value.Malformed? then Some(InvalidAmount)
    else if amount.value.value <= 0.0 then Some(NotPositive)
    else if min.Limit? && min.text.Malformed? then Some(InvalidMinimum)
    else if min.Limit? && amount.value.value < min.text.value then Some(BelowMinimum)
    else if max.Limit? && max.text.Malformed? then Some(InvalidMaximum)
    else if max.Limit? && amount.value.value > max.text.value then Some(AboveMaximum)
    else if daily.Limit? && daily.text.Malformed? then Some(InvalidDaily)
    else if daily.Limit? && amount.value.value > daily.text.value then Some(AboveDaily)
    else None
  }

  predicate Garbled(bound: Bound) { bound.Limit? && bound.text.Malformed? }

  /** Which rejection an amount gets: the checks come in this order, and each speaks when all before it are silent. */
  lemma RejectionsTell(amount: Option<Text>, min: Bound, max: Bound, daily: Bound)
    ensures var r := Validate(amount, min, max, daily);
            && (amount.None? <==> r == Some(AmountRequired))
            && (amount == Some(Malformed) <==> r == Some(InvalidAmount))
            && (amount.Some? && amount.value.Number? && amount.value.value <= 0.0 <==> r == Some(NotPositive))
    ensures amount.Some? && amount.value.Number? && amount.value.value > 0.0 ==>
              var r, x := Validate(amount, min, max, daily), amount.value.value;
              && (Garbled(min) <==> r == Some(InvalidMinimum))
              && (!Garbled(min) && !AtLeast(x, min) <==> r == Some(BelowMinimum))
              && (AtLeast(x, min) && Garbled(max) <==> r == Some(InvalidMaximum))
              && (AtLeast(x, min) && !Garbled(max) && !AtMost(x, max) <==> r == Some(AboveMaximum))
              && (AtLeast(x, min) && AtMost(x, max) && Garbled(daily) <==> r == Some(InvalidDaily))
              && (AtLeast(x, min) && AtMost(x, max) && !Garbled(daily) && !AtMost(x, daily) <==> r == Some(AboveDaily))
  {
  }

  /** The operations the gateway lets through to the wallet, under some configured limits. */
  ghost predicate Gated(op: Op) {
    match op
    case CreditOp(_, _, amount, _) => exists min, max, daily :: Validate(Some(amount), min, max, daily).None?
    case WithdrawOp(_, _, amount, _) => exists min, max, daily :: Validate(Some(amount), min, max, daily).None?
    case _ => true
  }

  /** Gated deposits and withdrawals, any debits and any reviews never take a balance below zero. This includes a
      rejection after the rest of the balance has been spent. */
  lemma GatedRunsStayNonNegative(ops: seq<Op>)
    requires forall op | op in ops :: Gated(op)
    ensures NonNegative(Run(EMPTY, ops))
  {
    forall op | op in ops ensures Sound(op) { assert Gated(op); }
    NoBalanceGoesBelowZero(EMPTY, ops);
  }
}
