/** The in-memory wallet store and the wallet service in front of it. */
module WalletStore {
  import opened Basics
  import opened Ledger
  import opened LedgerInvariant
  import LedgerTheorems

  // ---- What the operations do, told on the store's contents -----------------------------------------------------

  function BalanceOf(l: Ledger, user: string, currency: string): real {
    var key := user + ":" + currency;
    if key in l.wallets then l.wallets[key].balance else 0.0
  }

  /** One row is appended after `earlier`, and its wallet alone moves by `change`. */
  ghost predicate Moves(before: Ledger, after: Ledger, earlier: seq<Row>, user: string, currency: string, kind: Kind,
                        amount: real, change: real, status: RowStatus, reference: string)
  {
    var key := user + ":" + currency;
    var balance := BalanceOf(before, user, currency);
    && after.rows == earlier + [Row(user, key, currency, kind, amount, balance, balance + change, status, reference)]
    && key in after.wallets && after.wallets[key].balance == balance + change
    && after.wallets[key].version == 1 + (if key in before.wallets then before.wallets[key].version else 0)
    && after.wallets - {key} == before.wallets - {key}
  }

  /** The reference is indexed with the new row, unless it is empty. */
  predicate Indexes(before: Ledger, after: Ledger, reference: string) {
    after.byRef == if reference == "" then before.byRef else before.byRef[reference := |before.rows|]
  }

  /** The row a withdrawal id stands for, with another status. */
  function Restamped(l: Ledger, id: string, status: RowStatus): seq<Row>
    requires id in l.byRef && l.byRef[id] < |l.rows|
  {
    l.rows[l.byRef[id] := l.rows[l.byRef[id]].(status := status)]
  }

  predicate Replays(l: Ledger, reference: string) {
    reference != "" && reference in l.byRef
  }

  predicate Affords(l: Ledger, user: string, currency: string, amount: real) {
    user + ":" + currency in l.wallets && l.wallets[user + ":" + currency].balance >= amount
  }

  /** A malformed amount opens the wallet and is refused. */
  ghost predicate OnlyOpens(before: Ledger, after: Ledger, user: string, currency: string) {
    var key := user + ":" + currency;
    && after == before.(wallets := after.wallets) && key in after.wallets
    && after.wallets[key].balance == BalanceOf(before, user, currency)
    && after.wallets - {key} == before.wallets - {key}
  }

  lemma MalformedCreditOpens(l: Ledger, user: string, currency: string, reference: string)
    requires !Replays(l, reference)
    ensures OnlyOpens(l, Credit(l, user, currency, Malformed, reference).ledger, user, currency)
  {
  }

  lemma CreditMoves(l: Ledger, user: string, currency: string, amount: real, reference: string)
    requires !Replays(l, reference)
    ensures var l' := Credit(l, user, currency, Number(amount), reference).ledger;
            && Moves(l, l', l.rows, user, currency, Deposit, amount, amount, Completed, reference)
            && Indexes(l, l', reference) && l'.requests == l.requests
  {
  }

  class MemoryStore {
    var wallets: map<string, Wallet>
    var txns: seq<Row>
    var txnByRef: map<string, nat>
    var withdrawals: map<string, Request>

    ghost function Model(): Ledger
      reads this
    {
      Ledger(wallets, txns, txnByRef, withdrawals)
    }

    ghost predicate Valid()
      reads this
    {
      Good(Model())
    }

    constructor ()
      ensures Valid() && Model() == EMPTY
    {
      wallets, txns, txnByRef, withdrawals := map[], [], map[], map[];
    }

    method CreateWallet(user: string, currency: string) returns (w: Wallet)
      requires Valid()
      modifies this
      ensures Valid() && Model() == OpenWallet(old(Model()), user, currency)
      ensures w == Model().wallets[WalletKey(user, currency)]
      ensures var key := user + ":" + currency;
              && wallets == (if key in old(wallets) then old(wallets)
                             else old(wallets)[key := Wallet(user, currency, 0.0, 0)])
              && key in wallets && w == wallets[key]
              && txns == old(txns) && txnByRef == old(txnByRef) && withdrawals == old(withdrawals)
    {
      OpenKeepsGood(Model(), user, currency);
      var key := WalletKey(user, currency);
      if key !in wallets {
        wallets := wallets[key := Wallet(user, currency, 0.0, 0)];
      }
      w := wallets[key];
    }

    /** Writes the new balance and appends the transaction, as every balance change does. */
    method Book(user: string, currency: string, kind: Kind, amount: real, status: RowStatus, reference: string,
                indexed: bool)
      requires WalletKey(user, currency) in wallets
      modifies this
      ensures Model() == Post(old(Model()), user, currency, kind, amount, status, reference, indexed)
    {
      var key := WalletKey(user, currency);
      var w := wallets[key];
      var newBalance := w.balance + Signed(kind, amount);
      var txn := Row(user, key, currency, kind, amount, w.balance, newBalance, status, reference);
      if indexed {
        txnByRef := txnByRef[reference := |txns|];
      }
      txns := txns + [txn];
      wallets := wallets[key := w.(balance := newBalance, version := w.version + 1)];
    }

    method CreditWallet(user: string, currency: string, amount: Text, reference: string) returns (reply: Reply)
      requires Valid()
      modifies this
      ensures Valid() && Outcome(Model(), reply) == Credit(old(Model()), user, currency, amount, reference)
      ensures Replays(old(Model()), reference) ==>
                reply == Txn(old(txnByRef)[reference]) && Model() == old(Model())
      ensures !Replays(old(Model()), reference) && amount.Malformed? ==>
                reply == Refused(BadAmount) && OnlyOpens(old(Model()), Model(), user, currency)
      ensures !Replays(old(Model()), reference) && amount.Number? ==>
                && reply == Txn(|old(txns)|)
                && Moves(old(Model()), Model(), old(txns), user, currency, Deposit, amount.value, amount.value,
                         Completed, reference)
                && Indexes(old(Model()), Model(), reference) && withdrawals == old(withdrawals)
    {
      CreditKeepsGood(Model(), user, currency, amount, reference);
      if !Replays(Model(), reference) {
        if amount.Number? { CreditMoves(Model(), user, currency, amount.value, reference); }
        else { MalformedCreditOpens(Model(), user, currency, reference); }
      }
      if reference != "" && reference in txnByRef {
        return Txn(txnByRef[reference]);
      }
      var _ := CreateWallet(user, currency);
      if amount.Malformed? {
        return Refused(BadAmount);
      }
      reply := Txn(|txns|);
      Book(user, currency, Deposit, amount.value, Completed, reference, reference != "");
    }

    method DebitWallet(user: string, currency: string, amount: Text, reference: string) returns (reply: Reply)
      requires Valid()
      modifies this
      ensures Valid() && Outcome(Model(), reply) == Debit(old(Model()), user, currency, amount, reference)
      ensures Replays(old(Model()), reference) ==> reply == Txn(old(txnByRef)[reference])
      ensures !Replays(old(Model()), reference) && user + ":" + currency !in old(wallets) ==>
                reply == Refused(WalletNotFound)
      ensures !Replays(old(Model()), reference) && user + ":" + currency in old(wallets) && amount.Malformed? ==>
                reply == Refused(BadAmount)
      ensures !Replays(old(Model()), reference) && user + ":" + currency in old(wallets) && amount.Number?
              && BalanceOf(old(Model()), user, currency) < amount.value ==>
                reply == Refused(InsufficientBalance)
      ensures Replays(old(Model()), reference) || amount.Malformed?
              || !Affords(old(Model()), user, currency, amount.value) ==>
                Model() == old(Model())
      ensures !Replays(old(Model()), reference) && amount.Number?
              && Affords(old(Model()), user, currency, amount.value) ==>
                && reply == Txn(|old(txns)|)
                && Moves(old(Model()), Model(), old(txns), user, currency, Withdrawal, amount.value, -amount.value,
                         Completed, reference)
                && Indexes(old(Model()), Model(), reference) && withdrawals == old(withdrawals)
    {
      DebitKeepsGood(Model(), user, currency, amount, reference);
      if reference != "" && reference in txnByRef {
        return Txn(txnByRef[reference]);
      }
      var key := WalletKey(user, currency);
      if key !in wallets {
        return Refused(WalletNotFound);
      }
      if amount.Malformed? {
        return Refused(BadAmount);
      }
      if wallets[key].balance < amount.value {
        return Refused(InsufficientBalance);
      }
      reply := Txn(|txns|);
      Book(user, currency, Withdrawal, amount.value, Completed, reference, reference != "");
    }

    /** `id` is the id generated for the request. */
    method RequestWithdrawal(user: string, currency: string, amount: Text, id: string) returns (reply: Reply)
      requires Valid() && id != "" && id !in txnByRef
      modifies this
      ensures Valid() && Outcome(Model(), reply) == Withdraw(old(Model()), user, currency, amount, id)
      ensures user + ":" + currency !in old(wallets) ==> reply == Refused(WalletNotFound)
      ensures user + ":" + currency in old(wallets) && amount.Malformed? ==> reply == Refused(BadAmount)
      ensures user + ":" + currency in old(wallets) && amount.Number?
              && BalanceOf(old(Model()), user, currency) < amount.value ==>
                reply == Refused(InsufficientBalance)
      ensures amount.Malformed? || !Affords(old(Model()), user, currency, amount.value) ==> Model() == old(Model())
      ensures amount.Number? && Affords(old(Model()), user, currency, amount.value) ==>
                && reply == Req(id)
                && Moves(old(Model()), Model(), old(txns), user, currency, Withdrawal, amount.value, -amount.value,
                         Pending, id)
                && Indexes(old(Model()), Model(), id)
                && withdrawals
                   == old(withdrawals)[id := Request(user, user + ":" + currency, currency, amount.value, Awaiting)]
    {
      WithdrawKeepsGood(Model(), user, currency, amount, id);
      var key := WalletKey(user, currency);
      if key !in wallets {
        return Refused(WalletNotFound);
      }
      if amount.Malformed? {
        return Refused(BadAmount);
      }
      if wallets[key].balance < amount.value {
        return Refused(InsufficientBalance);
      }
      Book(user, currency, Withdrawal, amount.value, Pending, id, true);
      withdrawals := withdrawals[id := Request(user, key, currency, amount.value, Awaiting)];
      reply := Req(id);
    }

    method ApproveWithdrawal(id: string) returns (reply: Reply)
      requires Valid()
      modifies this
      ensures Valid() && Outcome(Model(), reply) == Approve(old(Model()), id)
      ensures id !in old(withdrawals) ==> reply == Refused(RequestNotFound) && Model() == old(Model())
      ensures id in old(withdrawals) && old(withdrawals[id].status) != Awaiting ==>
                reply == Refused(NotPending) && Model() == old(Model())
      ensures id in old(withdrawals) && old(withdrawals[id].status) == Awaiting ==>
                && reply == Req(id) && id in old(txnByRef) && old(txnByRef)[id] < |old(txns)|
                && txns == Restamped(old(Model()), id, Completed)
                && withdrawals == old(withdrawals)[id := old(withdrawals)[id].(status := Approved)]
                && wallets == old(wallets) && txnByRef == old(txnByRef)
    {
      ApproveKeepsGood(Model(), id);
      if id !in withdrawals {
        return Refused(RequestNotFound);
      }
      if withdrawals[id].status != Awaiting {
        return Refused(NotPending);
      }
      assert RequestMatched(Model(), id);
      withdrawals := withdrawals[id := withdrawals[id].(status := Approved)];
      if id in txnByRef {
        var i := txnByRef[id];
        txns := txns[i := txns[i].(status := Completed)];
      }
      reply := Req(id);
    }

    method RejectWithdrawal(id: string) returns (reply: Reply)
      requires Valid()
      modifies this
      ensures Valid() && Outcome(Model(), reply) == Reject(old(Model()), id)
      ensures id !in old(withdrawals) ==> reply == Refused(RequestNotFound) && Model() == old(Model())
      ensures id in old(withdrawals) && old(withdrawals[id].status) != Awaiting ==>
                reply == Refused(NotPending) && Model() == old(Model())
      ensures id in old(withdrawals) && old(withdrawals[id].status) == Awaiting ==>
                && reply == Req(id) && id in old(txnByRef) && old(txnByRef)[id] < |old(txns)|
                && withdrawals == old(withdrawals)[id := old(withdrawals)[id].(status := Rejected)]
                && txnByRef == old(txnByRef)
                && (var req := old(withdrawals)[id];
                    Moves(old(Model()), Model(), Restamped(old(Model()), id, Reversed), req.user, req.currency,
                          Adjustment, req.amount, req.amount, Completed, id + "-reversal"))
      ensures reply != Refused(WalletNotFound)
    {
      RejectKeepsGood(Model(), id);
      if id !in withdrawals {
        return Refused(RequestNotFound);
      }
      var req := withdrawals[id];
      if req.status != Awaiting {
        return Refused(NotPending);
      }
      assert RequestMatched(Model(), id);
      if WalletKey(req.user, req.currency) !in wallets {
        assert false;
      }
      withdrawals := withdrawals[id := req.(status := Rejected)];
      if id in txnByRef {
        var i := txnByRef[id];
        txns := txns[i := txns[i].(status := Reversed)];
      }
      Book(req.user, req.currency, Adjustment, req.amount, Completed, id + REVERSAL, false);
      reply := Req(id);
    }
  }

  datatype Answer = Ack | Held(reply: Reply) | Unsupported | InvalidAction

  class Service {
    const store: MemoryStore
    const supportedPairs: set<string>

    constructor (store: MemoryStore, supportedPairs: set<string>)
      ensures this.store == store && this.supportedPairs == supportedPairs
    {
      this.store := store;
      this.supportedPairs := supportedPairs;
    }

    method ProcessDepositWebhook(hook: LedgerTheorems.Webhook) returns (receipt: LedgerTheorems.Receipt)
      requires store.Valid()
      modifies store
      ensures store.Valid()
      ensures (store.Model(), receipt) == LedgerTheorems.ProcessDeposit(old(store.Model()), supportedPairs, hook)
      ensures !hook.confirmed ==>
                receipt == LedgerTheorems.Acknowledged && store.Model() == old(store.Model())
      ensures hook.confirmed && hook.currency + ":" + hook.chain !in supportedPairs ==>
                receipt == LedgerTheorems.UnsupportedPair && store.Model() == old(store.Model())
      ensures hook.confirmed && hook.currency + ":" + hook.chain in supportedPairs ==>
                if Replays(old(store.Model()), hook.number) then
                  receipt == LedgerTheorems.Acknowledged && store.Model() == old(store.Model())
                else if hook.amount.Malformed? then
                  receipt == LedgerTheorems.NotCredited(BadAmount) && store.txns == old(store.txns)
                else
                  && receipt == LedgerTheorems.Acknowledged
                  && Moves(old(store.Model()), store.Model(), old(store.txns), hook.user, hook.currency, Deposit,
                           hook.amount.value, hook.amount.value, Completed, hook.number)
    {
      if !hook.confirmed {
        return LedgerTheorems.Acknowledged;
      }
      if hook.currency + ":" + hook.chain !in supportedPairs {
        return LedgerTheorems.UnsupportedPair;
      }
      var reply := store.CreditWallet(hook.user, hook.currency, hook.amount, hook.number);
      if reply.Refused? {
        return LedgerTheorems.NotCredited(reply.error);
      }
      receipt := LedgerTheorems.Acknowledged;
    }

    method RequestWithdrawal(user: string, currency: string, chain: string, amount: Text, id: string)
      returns (answer: Answer)
      requires store.Valid() && id != "" && id !in store.txnByRef
      modifies store
      ensures store.Valid()
      ensures if currency + ":" + chain in supportedPairs
              then answer.Held?
                && Outcome(store.Model(), answer.reply) == Withdraw(old(store.Model()), user, currency, amount, id)
              else answer == Unsupported && store.Model() == old(store.Model())
    {
      if currency + ":" + chain !in supportedPairs {
        return Unsupported;
      }
      var reply := store.RequestWithdrawal(user, currency, amount, id);
      answer := Held(reply);
    }

    method ReviewWithdrawal(id: string, action: string) returns (answer: Answer)
      requires store.Valid()
      modifies store
      ensures store.Valid()
      ensures action == "approve" ==>
                answer.Held? && Outcome(store.Model(), answer.reply) == Approve(old(store.Model()), id)
      ensures action == "reject" ==>
                answer.Held? && Outcome(store.Model(), answer.reply) == Reject(old(store.Model()), id)
      ensures action != "approve" && action != "reject" ==>
                answer == InvalidAction && store.Model() == old(store.Model())
    {
      if action == "approve" {
        var reply := store.ApproveWithdrawal(id);
        answer := Held(reply);
      } else if action == "reject" {
        var reply := store.RejectWithdrawal(id);
        answer := Held(reply);
      } else {
        answer := InvalidAction;
      }
    }
  }
}
