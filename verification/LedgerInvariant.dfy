/** What every run of wallet operations keeps. */
module LedgerInvariant {
  import opened Basics
  import opened Ledger

  // ---- Readings of the rows of one wallet ------------------------------------------------------------------

  /** The balance-after of the last of the first n rows that belongs to the wallet; zero when there is none. */
  function LastAfter(rows: seq<Row>, n: nat, key: string): real
    requires n <= |rows|
  {
    if n == 0 then 0.0
    else if rows[n - 1].wallet == key then rows[n - 1].after
    else LastAfter(rows, n - 1, key)
  }

  /** Deposits and adjustments count up, withdrawals count down. */
  function SignedSum(rows: seq<Row>, n: nat, key: string): real
    requires n <= |rows|
  {
    if n == 0 then 0.0
    else SignedSum(rows, n - 1, key)
         + if rows[n - 1].wallet == key then Signed(rows[n - 1].kind, rows[n - 1].amount) else 0.0
  }

  function RowCount(rows: seq<Row>, n: nat, key: string): nat
    requires n <= |rows|
  {
    if n == 0 then 0 else RowCount(rows, n - 1, key) + if rows[n - 1].wallet == key then 1 else 0
  }

  /** What a row contributes once reversed withdrawals and their adjustments are both disregarded. */
  function Net(row: Row): real {
    match row.kind
    case Deposit => row.amount
    case Withdrawal => if row.status == Reversed then 0.0 else -row.amount
    case Adjustment => 0.0
  }

  function NetSum(rows: seq<Row>, n: nat, key: string): real
    requires n <= |rows|
  {
    if n == 0 then 0.0
    else NetSum(rows, n - 1, key) + if rows[n - 1].wallet == key then Net(rows[n - 1]) else 0.0
  }

  // ---- The invariant, row by row and key by key -------------------------------------------------------------

  ghost predicate RefIndexed(l: Ledger, r: string)
    requires r in l.byRef
  {
    r != "" && l.byRef[r] < |l.rows| && l.rows[l.byRef[r]].reference == r
  }

  /** Only adjustment rows may stay out of the reference index. */
  ghost predicate RowIndexed(l: Ledger, i: nat)
    requires i < |l.rows|
  {
    l.rows[i].kind != Adjustment && l.rows[i].reference != "" ==>
      l.rows[i].reference in l.byRef && l.byRef[l.rows[i].reference] == i
  }

  ghost predicate RowBooked(l: Ledger, i: nat)
    requires i < |l.rows|
  {
    && l.rows[i].wallet in l.wallets
    && l.rows[i].before == LastAfter(l.rows, i, l.rows[i].wallet)
    && l.rows[i].after == l.rows[i].before + Signed(l.rows[i].kind, l.rows[i].amount)
  }

  ghost predicate WalletBooked(l: Ledger, k: string)
    requires k in l.wallets
  {
    && l.wallets[k].balance == LastAfter(l.rows, |l.rows|, k)
    && l.wallets[k].version == RowCount(l.rows, |l.rows|, k)
  }

  /** The balance is the deposits less the withdrawals that were not reversed. */
  ghost predicate WalletNetted(l: Ledger, k: string)
    requires k in l.wallets
  {
    l.wallets[k].balance == NetSum(l.rows, |l.rows|, k)
  }

  function Mirror(status: Review): RowStatus {
    match status
    case Awaiting => Pending
    case Approved => Completed
    case Rejected => Reversed
  }

  ghost predicate RequestMatched(l: Ledger, id: string)
    requires id in l.requests
  {
    var req := l.requests[id];
    && req.wallet == WalletKey(req.user, req.currency) && req.wallet in l.wallets
    && id in l.byRef && l.byRef[id] < |l.rows|
    && var row := l.rows[l.byRef[id]];
       row.kind == Withdrawal && row.wallet == req.wallet && row.amount == req.amount
       && row.status == Mirror(req.status)
  }

  ghost predicate OpenRowMatched(l: Ledger, i: nat)
    requires i < |l.rows|
  {
    l.rows[i].status != Completed ==>
      && l.rows[i].kind == Withdrawal && l.rows[i].reference in l.requests
      && l.rows[i].reference in l.byRef && l.byRef[l.rows[i].reference] == i
  }

  /** The withdrawal an adjustment row reverses. */
  function Origin(reference: string): string {
    if |reference| < |REVERSAL| then "" else reference[..|reference| - |REVERSAL|]
  }

  predicate Reverses(row: Row, id: string) {
    row.kind == Adjustment && row.reference == id + REVERSAL
  }

  ghost predicate AdjustmentPaired(l: Ledger, i: nat)
    requires i < |l.rows|
  {
    l.rows[i].kind == Adjustment ==>
      var id := Origin(l.rows[i].reference);
      && Reverses(l.rows[i], id)
      && id in l.requests && l.requests[id].status == Rejected
      && l.rows[i].amount == l.requests[id].amount && l.rows[i].wallet == l.requests[id].wallet
  }

  ghost predicate RejectionPaired(l: Ledger, id: string)
    requires id in l.requests
  {
    l.requests[id].status == Rejected ==> exists i :: 0 <= i < |l.rows| && Reverses(l.rows[i], id)
  }

  ghost predicate DifferentReversals(l: Ledger, i: nat, j: nat)
    requires i < |l.rows| && j < |l.rows|
  {
    l.rows[i].kind == Adjustment && l.rows[j].kind == Adjustment ==> l.rows[i].reference != l.rows[j].reference
  }

  ghost predicate Indexed(l: Ledger) {
    && (forall r | r in l.byRef :: RefIndexed(l, r))
    && (forall i | 0 <= i < |l.rows| :: RowIndexed(l, i))
  }

  ghost predicate Booked(l: Ledger) {
    && (forall i | 0 <= i < |l.rows| :: RowBooked(l, i))
    && (forall k | k in l.wallets :: WalletBooked(l, k))
  }

  ghost predicate Netted(l: Ledger) {
    forall k | k in l.wallets :: WalletNetted(l, k)
  }

  ghost predicate Reviewed(l: Ledger) {
    && (forall id | id in l.requests :: RequestMatched(l, id))
    && (forall i | 0 <= i < |l.rows| :: OpenRowMatched(l, i))
  }

  /** Rejected requests and adjustment rows pair off one to one, with equal amounts and in the same wallet. */
  ghost predicate Paired(l: Ledger) {
    && (forall i | 0 <= i < |l.rows| :: AdjustmentPaired(l, i))
    && (forall id | id in l.requests :: RejectionPaired(l, id))
    && (forall i, j | 0 <= i < j < |l.rows| :: DifferentReversals(l, i, j))
  }

  ghost predicate Good(l: Ledger) {
    Indexed(l) && Booked(l) && Reviewed(l) && Paired(l) && Netted(l)
  }

  // ---- Frames -----------------------------------------------------------------------------------------------

  /** The bookkeeping columns, which no later review touches. */
  predicate SameBooking(a: Row, b: Row) {
    a.wallet == b.wallet && a.after == b.after && a.kind == b.kind && a.amount == b.amount
  }

  lemma {:induction false} BookingFrame(a: seq<Row>, b: seq<Row>, n: nat, key: string)
    requires n <= |a| && n <= |b|
    requires forall i | 0 <= i < n :: SameBooking(a[i], b[i])
    ensures LastAfter(a, n, key) == LastAfter(b, n, key)
    ensures SignedSum(a, n, key) == SignedSum(b, n, key)
    ensures RowCount(a, n, key) == RowCount(b, n, key)
  {
    if n > 0 {
      assert SameBooking(a[n - 1], b[n - 1]);
      BookingFrame(a, b, n - 1, key);
    }
  }

  lemma {:induction false} NetFrame(a: seq<Row>, b: seq<Row>, n: nat, key: string)
    requires n <= |a| && n <= |b|
    requires forall i | 0 <= i < n && a[i].wallet == key :: b[i].wallet == key && Net(a[i]) == Net(b[i])
    requires forall i | 0 <= i < n && b[i].wallet == key :: a[i].wallet == key
    ensures NetSum(a, n, key) == NetSum(b, n, key)
  {
    if n > 0 { NetFrame(a, b, n - 1, key); }
  }

  /** Changing one row changes the net sum of its wallet by that row's difference. */
  lemma {:induction false} NetChange(a: seq<Row>, b: seq<Row>, n: nat, at: nat)
    requires at < n <= |a| && n <= |b| && a[at].wallet == b[at].wallet
    requires forall i | 0 <= i < n && i != at :: a[i] == b[i]
    ensures NetSum(b, n, a[at].wallet) == NetSum(a, n, a[at].wallet) - Net(a[at]) + Net(b[at])
  {
    if at < n - 1 { NetChange(a, b, n - 1, at); } else { NetFrame(a, b, at, a[at].wallet); }
  }

  lemma {:induction false} NoRows(rows: seq<Row>, n: nat, key: string)
    requires n <= |rows| && forall i | 0 <= i < n :: rows[i].wallet != key
    ensures LastAfter(rows, n, key) == 0.0 && RowCount(rows, n, key) == 0 && NetSum(rows, n, key) == 0.0
  {
    if n > 0 { NoRows(rows, n - 1, key); }
  }

  // ---- Opening a wallet -------------------------------------------------------------------------------------

  lemma OpenKeepsGood(l: Ledger, user: string, currency: string)
    requires Good(l)
    ensures Good(OpenWallet(l, user, currency))
  {
    var l' := OpenWallet(l, user, currency);
    forall i | 0 <= i < |l'.rows|
      ensures RowIndexed(l', i) && RowBooked(l', i) && OpenRowMatched(l', i) && AdjustmentPaired(l', i)
    {
      assert RowIndexed(l, i) && RowBooked(l, i) && OpenRowMatched(l, i) && AdjustmentPaired(l, i);
    }
    forall k | k in l'.wallets ensures WalletBooked(l', k) && WalletNetted(l', k) {
      if k in l.wallets {
        assert WalletBooked(l, k) && WalletNetted(l, k);
      } else {
        forall i | 0 <= i < |l.rows| ensures l.rows[i].wallet != k { assert RowBooked(l, i); }
        NoRows(l.rows, |l.rows|, k);
      }
    }
    forall r | r in l'.byRef ensures RefIndexed(l', r) { assert RefIndexed(l, r); }
    forall id | id in l'.requests ensures RequestMatched(l', id) && RejectionPaired(l', id) {
      assert RequestMatched(l, id) && RejectionPaired(l, id);
    }
    forall i, j | 0 <= i < j < |l'.rows| ensures DifferentReversals(l', i, j) {
      assert DifferentReversals(l, i, j);
    }
  }

  // ---- Appending a row --------------------------------------------------------------------------------------

  lemma PostKeepsBooks(l: Ledger, user: string, currency: string, kind: Kind, amount: real, status: RowStatus,
                       reference: string, indexed: bool)
    requires Booked(l) && WalletKey(user, currency) in l.wallets
    ensures Booked(Post(l, user, currency, kind, amount, status, reference, indexed))
  {
    var l' := Post(l, user, currency, kind, amount, status, reference, indexed);
    forall i | 0 <= i < |l'.rows| ensures RowBooked(l', i) {
      if i < |l.rows| {
        assert RowBooked(l, i);
      } else {
        assert WalletBooked(l, WalletKey(user, currency));
      }
      BookingFrame(l.rows, l'.rows, i, l'.rows[i].wallet);
    }
    forall k | k in l'.wallets ensures WalletBooked(l', k) {
      assert WalletBooked(l, k);
      BookingFrame(l.rows, l'.rows, |l.rows|, k);
    }
  }

  lemma PostNet(l: Ledger, user: string, currency: string, kind: Kind, amount: real, status: RowStatus,
                reference: string, indexed: bool, key: string)
    requires WalletKey(user, currency) in l.wallets
    ensures var l' := Post(l, user, currency, kind, amount, status, reference, indexed);
            NetSum(l'.rows, |l'.rows|, key)
            == NetSum(l.rows, |l.rows|, key)
               + if key == WalletKey(user, currency) then Net(l'.rows[|l.rows|]) else 0.0
  {
    var l' := Post(l, user, currency, kind, amount, status, reference, indexed);
    NetFrame(l.rows, l'.rows, |l.rows|, key);
  }

  lemma PostKeepsNetted(l: Ledger, user: string, currency: string, kind: Kind, amount: real, status: RowStatus,
                        reference: string, indexed: bool)
    requires Netted(l) && WalletKey(user, currency) in l.wallets && kind != Adjustment && status != Reversed
    ensures Netted(Post(l, user, currency, kind, amount, status, reference, indexed))
  {
    var l' := Post(l, user, currency, kind, amount, status, reference, indexed);
    forall k | k in l'.wallets ensures WalletNetted(l', k) {
      assert WalletNetted(l, k);
      PostNet(l, user, currency, kind, amount, status, reference, indexed, k);
    }
  }

  lemma PostKeepsIndexed(l: Ledger, user: string, currency: string, kind: Kind, amount: real, status: RowStatus,
                         reference: string, indexed: bool)
    requires Indexed(l) && WalletKey(user, currency) in l.wallets
    requires indexed ==> reference != "" && reference !in l.byRef
    requires !indexed ==> kind == Adjustment || reference == ""
    ensures Indexed(Post(l, user, currency, kind, amount, status, reference, indexed))
  {
    var l' := Post(l, user, currency, kind, amount, status, reference, indexed);
    forall i | 0 <= i < |l'.rows| ensures RowIndexed(l', i) {
      if i < |l.rows| { assert RowIndexed(l, i); }
    }
    forall r | r in l'.byRef ensures RefIndexed(l', r) {
      if r in l.byRef { assert RefIndexed(l, r); }
    }
  }

  /** A completed row changes nothing about reviews; a pending one goes with its own request. */
  lemma PostKeepsReviewed(l: Ledger, user: string, currency: string, kind: Kind, amount: real,
                          reference: string, indexed: bool)
    requires Reviewed(l) && WalletKey(user, currency) in l.wallets
    requires indexed ==> reference !in l.byRef
    ensures Reviewed(Post(l, user, currency, kind, amount, Completed, reference, indexed))
  {
    var l' := Post(l, user, currency, kind, amount, Completed, reference, indexed);
    forall id | id in l'.requests ensures RequestMatched(l', id) { assert RequestMatched(l, id); }
    forall i | 0 <= i < |l'.rows| ensures OpenRowMatched(l', i) {
      if i < |l.rows| { assert OpenRowMatched(l, i); }
    }
  }

  /** The columns the pairing of reversals reads. */
  predicate SamePairing(a: Row, b: Row) {
    a.kind == b.kind && a.reference == b.reference && a.amount == b.amount && a.wallet == b.wallet
  }

  /** Further rows that are not adjustments, and reviews that do not reject, leave the pairing alone. */
  lemma PairedFrame(l: Ledger, l': Ledger)
    requires Paired(l) && |l.rows| <= |l'.rows|
    requires forall i | 0 <= i < |l.rows| :: SamePairing(l.rows[i], l'.rows[i])
    requires forall i | |l.rows| <= i < |l'.rows| :: l'.rows[i].kind != Adjustment
    requires forall id | id in l.requests && l.requests[id].status == Rejected ::
               id in l'.requests && l'.requests[id] == l.requests[id]
    requires forall id | id in l'.requests && l'.requests[id].status == Rejected ::
               id in l.requests && l'.requests[id] == l.requests[id]
    ensures Paired(l')
  {
    forall i | 0 <= i < |l'.rows| ensures AdjustmentPaired(l', i) {
      if i < |l.rows| { assert AdjustmentPaired(l, i) && SamePairing(l.rows[i], l'.rows[i]); }
    }
    forall id | id in l'.requests ensures RejectionPaired(l', id) {
      if l'.requests[id].status == Rejected {
        assert RejectionPaired(l, id);
        var i :| 0 <= i < |l.rows| && Reverses(l.rows[i], id);
        assert SamePairing(l.rows[i], l'.rows[i]) && Reverses(l'.rows[i], id);
      }
    }
    forall i, j | 0 <= i < j < |l'.rows| ensures DifferentReversals(l', i, j) {
      if j < |l.rows| {
        assert DifferentReversals(l, i, j) && SamePairing(l.rows[i], l'.rows[i]) && SamePairing(l.rows[j], l'.rows[j]);
      }
    }
  }

  lemma PostedKeepsGood(l: Ledger, user: string, currency: string, kind: Kind, amount: real, reference: string)
    requires Good(l) && WalletKey(user, currency) in l.wallets && !Recorded(l, reference) && kind != Adjustment
    ensures Good(Post(l, user, currency, kind, amount, Completed, reference, reference != ""))
  {
    var indexed := reference != "";
    PostKeepsBooks(l, user, currency, kind, amount, Completed, reference, indexed);
    PostKeepsNetted(l, user, currency, kind, amount, Completed, reference, indexed);
    PostKeepsIndexed(l, user, currency, kind, amount, Completed, reference, indexed);
    PostKeepsReviewed(l, user, currency, kind, amount, reference, indexed);
    PairedFrame(l, Post(l, user, currency, kind, amount, Completed, reference, indexed));
  }

  lemma CreditKeepsGood(l: Ledger, user: string, currency: string, amount: Text, reference: string)
    requires Good(l)
    ensures Good(Credit(l, user, currency, amount, reference).ledger)
  {
    OpenKeepsGood(l, user, currency);
    if !Recorded(l, reference) && amount.Number? {
      PostedKeepsGood(OpenWallet(l, user, currency), user, currency, Deposit, amount.value, reference);
    }
  }

  lemma DebitKeepsGood(l: Ledger, user: string, currency: string, amount: Text, reference: string)
    requires Good(l)
    ensures Good(Debit(l, user, currency, amount, reference).ledger)
  {
    if !Recorded(l, reference) && WalletKey(user, currency) in l.wallets && amount.Number? {
      PostedKeepsGood(l, user, currency, Withdrawal, amount.value, reference);
    }
  }

  // ---- Withdrawals ------------------------------------------------------------------------------------------

  lemma WithdrawKeepsReviewed(l: Ledger, user: string, currency: string, amount: Text, id: string)
    requires Reviewed(l) && id !in l.byRef
    ensures Reviewed(Withdraw(l, user, currency, amount, id).ledger)
  {
    var l' := Withdraw(l, user, currency, amount, id).ledger;
    RequestsAreRecorded(l);
    forall other | other in l'.requests ensures RequestMatched(l', other) {
      if other in l.requests { assert RequestMatched(l, other); }
    }
    forall i | 0 <= i < |l'.rows| ensures OpenRowMatched(l', i) {
      if i < |l.rows| { assert OpenRowMatched(l, i); }
    }
  }

  lemma WithdrawKeepsGood(l: Ledger, user: string, currency: string, amount: Text, id: string)
    requires Good(l) && id != "" && id !in l.byRef
    ensures Good(Withdraw(l, user, currency, amount, id).ledger)
  {
    var l' := Withdraw(l, user, currency, amount, id).ledger;
    if l' != l {
      var posted := Post(l, user, currency, Withdrawal, amount.value, Pending, id, true);
      PostKeepsBooks(l, user, currency, Withdrawal, amount.value, Pending, id, true);
      PostKeepsNetted(l, user, currency, Withdrawal, amount.value, Pending, id, true);
      PostKeepsIndexed(l, user, currency, Withdrawal, amount.value, Pending, id, true);
      SameRowsKeepBooks(posted, l');
      WithdrawKeepsReviewed(l, user, currency, amount, id);
      PairedFrame(l, l');
    }
  }

  lemma RequestsAreRecorded(l: Ledger)
    requires Reviewed(l)
    ensures forall id | id in l.requests :: id in l.byRef
  {
    forall id | id in l.requests ensures id in l.byRef { assert RequestMatched(l, id); }
  }

  /** The books and the index do not look at requests. */
  lemma SameRowsKeepBooks(l: Ledger, l': Ledger)
    requires l' == l.(requests := l'.requests)
    ensures Booked(l) ==> Booked(l')
    ensures Netted(l) ==> Netted(l')
    ensures Indexed(l) ==> Indexed(l')
  {
    if Booked(l) {
      forall i | 0 <= i < |l'.rows| ensures RowBooked(l', i) { assert RowBooked(l, i); }
      forall k | k in l'.wallets ensures WalletBooked(l', k) { assert WalletBooked(l, k); }
    }
    if Netted(l) {
      forall k | k in l'.wallets ensures WalletNetted(l', k) { assert WalletNetted(l, k); }
    }
    if Indexed(l) {
      forall i | 0 <= i < |l'.rows| ensures RowIndexed(l', i) { assert RowIndexed(l, i); }
      forall r | r in l'.byRef ensures RefIndexed(l', r) { assert RefIndexed(l, r); }
    }
  }

  lemma MarkKeepsBooks(l: Ledger, id: string, status: RowStatus)
    requires Booked(l) && Indexed(l)
    ensures Booked(Mark(l, id, status)) && Indexed(Mark(l, id, status))
  {
    var l' := Mark(l, id, status);
    forall i | 0 <= i < |l'.rows| ensures RowBooked(l', i) && RowIndexed(l', i) {
      assert RowBooked(l, i) && RowIndexed(l, i);
      BookingFrame(l.rows, l'.rows, i, l'.rows[i].wallet);
    }
    forall k | k in l'.wallets ensures WalletBooked(l', k) {
      assert WalletBooked(l, k);
      BookingFrame(l.rows, l'.rows, |l.rows|, k);
    }
    forall r | r in l'.byRef ensures RefIndexed(l', r) { assert RefIndexed(l, r); }
  }

  lemma ApproveKeepsGood(l: Ledger, id: string)
    requires Good(l)
    ensures Good(Approve(l, id).ledger)
  {
    var l' := Approve(l, id).ledger;
    if l' != l {
      assert RequestMatched(l, id);
      var noted := l.(requests := l'.requests);
      SameRowsKeepBooks(l, noted);
      MarkKeepsBooks(noted, id, Completed);
      forall k | k in l'.wallets ensures WalletNetted(l', k) {
        assert WalletNetted(l, k);
        NetFrame(l.rows, l'.rows, |l.rows|, k);
      }
      ReviewMatches(l, id, Approved);
      PairedFrame(l, l');
    }
  }

  /** Setting a request and its row together keeps every request matched with its row. */
  lemma ReviewMatches(l: Ledger, id: string, status: Review)
    requires Reviewed(l) && Indexed(l) && id in l.requests
    ensures var noted := l.(requests := l.requests[id := l.requests[id].(status := status)]);
            Reviewed(Mark(noted, id, Mirror(status)))
  {
    var noted := l.(requests := l.requests[id := l.requests[id].(status := status)]);
    var l' := Mark(noted, id, Mirror(status));
    assert RequestMatched(l, id) && RefIndexed(l, id);
    forall other | other in l'.requests ensures RequestMatched(l', other) {
      assert RequestMatched(l, other) && RefIndexed(l, other);
    }
    forall i | 0 <= i < |l'.rows| ensures OpenRowMatched(l', i) { assert OpenRowMatched(l, i); }
  }

  lemma RejectKeepsGood(l: Ledger, id: string)
    requires Good(l)
    ensures Good(Reject(l, id).ledger)
  {
    var l' := Reject(l, id).ledger;
    if l' != l {
      assert RequestMatched(l, id);
      var req := l.requests[id];
      var noted := l.(requests := l.requests[id := req.(status := Rejected)]);
      var marked := Mark(noted, id, Reversed);
      SameRowsKeepBooks(l, noted);
      MarkKeepsBooks(noted, id, Reversed);
      ReviewMatches(l, id, Rejected);
      PostKeepsBooks(marked, req.user, req.currency, Adjustment, req.amount, Completed, id + REVERSAL, false);
      PostKeepsIndexed(marked, req.user, req.currency, Adjustment, req.amount, Completed, id + REVERSAL, false);
      PostKeepsReviewed(marked, req.user, req.currency, Adjustment, req.amount, id + REVERSAL, false);
      RejectNets(l, id);
      RejectPairs(l, id);
    }
  }

  /** Reversing the withdrawal row raises the net sum by exactly what the adjustment puts back. */
  lemma RejectNets(l: Ledger, id: string)
    requires Good(l) && id in l.requests && l.requests[id].status == Awaiting
    ensures Netted(Reject(l, id).ledger)
  {
    assert RequestMatched(l, id);
    var req := l.requests[id];
    var marked := Mark(l.(requests := l.requests[id := req.(status := Rejected)]), id, Reversed);
    var l' := Reject(l, id).ledger;
    forall k | k in l'.wallets ensures WalletNetted(l', k) {
      assert WalletNetted(l, k);
      PostNet(marked, req.user, req.currency, Adjustment, req.amount, Completed, id + REVERSAL, false, k);
      if k == req.wallet {
        NetChange(l.rows, marked.rows, |l.rows|, l.byRef[id]);
      } else {
        NetFrame(l.rows, marked.rows, |l.rows|, k);
      }
    }
  }

  lemma RejectPairs(l: Ledger, id: string)
    requires Good(l) && id in l.requests && l.requests[id].status == Awaiting
    ensures Paired(Reject(l, id).ledger)
  {
    var l' := Reject(l, id).ledger;
    var n := |l.rows|;
    assert RequestMatched(l, id);
    assert Origin(id + REVERSAL) == id && Reverses(l'.rows[n], id);
    forall i | 0 <= i < n ensures SamePairing(l.rows[i], l'.rows[i]) {}
    forall i | 0 <= i < |l'.rows| ensures AdjustmentPaired(l', i) {
      if i < n { assert AdjustmentPaired(l, i) && SamePairing(l.rows[i], l'.rows[i]); }
    }
    forall other | other in l'.requests ensures RejectionPaired(l', other) {
      if other != id && l'.requests[other].status == Rejected {
        assert RejectionPaired(l, other);
        var i :| 0 <= i < |l.rows| && Reverses(l.rows[i], other);
        assert SamePairing(l.rows[i], l'.rows[i]) && Reverses(l'.rows[i], other);
      }
    }
    forall i, j | 0 <= i < j < |l'.rows| ensures DifferentReversals(l', i, j) {
      assert AdjustmentPaired(l, i) && SamePairing(l.rows[i], l'.rows[i]);
      if j < n { assert DifferentReversals(l, i, j) && SamePairing(l.rows[j], l'.rows[j]); }
    }
  }

  // ---- Every run --------------------------------------------------------------------------------------------

  lemma StepKeepsGood(l: Ledger, op: Op)
    requires Good(l) && Admits(l, op)
    ensures Good(Apply(l, op))
  {
    match op
    case OpenOp(user, currency) => OpenKeepsGood(l, user, currency);
    case CreditOp(user, currency, amount, reference) => CreditKeepsGood(l, user, currency, amount, reference);
    case DebitOp(user, currency, amount, reference) => DebitKeepsGood(l, user, currency, amount, reference);
    case WithdrawOp(user, currency, amount, id) => WithdrawKeepsGood(l, user, currency, amount, id);
    case ApproveOp(id) => ApproveKeepsGood(l, id);
    case RejectOp(id) => RejectKeepsGood(l, id);
  }

  lemma {:induction false} RunKeepsGood(l: Ledger, ops: seq<Op>)
    requires Good(l) && AdmitsAll(l, ops)
    ensures Good(Run(l, ops))
    decreases |ops|
  {
    if ops != [] {
      StepKeepsGood(l, ops[0]);
      RunKeepsGood(Apply(l, ops[0]), ops[1..]);
    }
  }
}
