# Betmonster: a verified model of its money and its feeds

This project models the parts of Betmonster that must not lose track of anything, and proves what they promise for
every input, every run and every interleaving: the wallet ledger (in memory and in Postgres), the bet saga that spans
the bet store and the wallet, the settlement sweep, the Redis rate limiter, the exchange rates behind their cache, and
the incremental synchronisation of the odds feed. `dafny verify dfyconfig.toml` checks all of it.

## How to read it

| part | files |
|---|---|
| shared types, sums, list functions | `Basics.dfy`, `Lists.dfy` |
| wallet ledger: operations, invariant, what it means | `Ledger.dfy`, `LedgerInvariant.dfy`, `LedgerTheorems.dfy` |
| gateway amount check | `Limits.dfy` |
| in-memory wallet store and wallet service as classes | `WalletStore.dfy` |
| Postgres wallet as interleaved transactions | `PgWallet.dfy`, `PgInvariant.dfy`, `PgTheorems.dfy`, `PgSequential.dfy`, `PgMatchesMemory.dfy` |
| bets; the placement and settlement saga as a step machine | `Bets.dfy`, `Saga.dfy`, `SagaInvariant.dfy`, `SagaTheorems.dfy`, `SagaTerms.dfy`, `SagaRivals.dfy`, `SagaStuck.dfy` |
| bet listings, bet store, sportsbook service | `BetOrder.dfy`, `BetStore.dfy`, `Sportsbook.dfy` |
| settlement sweep and its scheduler | `Sweep.dfy`, `Scheduler.dfy` |
| token bucket | `TokenBucket.dfy` |
| decimals, rates and their cache | `Decimals.dfy`, `Rates.dfy` |
| odds feed: store, normaliser, Azuro snapshots, sync | `FeedStore.dfy`, `Normalizer.dfy`, `Azuro.dfy`, `FeedSync.dfy`, `FeedInvariant.dfy`, `FeedTheorems.dfy`, `FeedFailures.dfy`, `FeedHistory.dfy` |

Stores and services that update fields are classes. Each of their methods is proved equal to a function of the old
state, which the theorems are about, and also says outright, case by case, what it replies and writes. Money is exact (`real`), because the decimal library adds, subtracts
and multiplies exactly; only the product in `MulDecimalStrings` rounds, and there numbers are a coefficient and a
number of places. A decimal text is either malformed or a number. Clocks, generated ids, provider answers and failing
calls are parameters. A transaction id is the position of its row.

## What the theorems assume

* Sagas: bet references are not empty, belong to one user each, are not used by the other credits, debits and
  withdrawals, and do not start with `settle-` or `cancel-`. A store or wallet call that fails has no effect.
  Settlements that stand between the read and the write of one bet agree on the outcome;
  `SagaRivals.AgreementIsNeeded` shows that any two outcomes that differ make this necessary. Everything else about the
  interleaving is free: any number of placements, re-submissions and settlements, any call failing, and any other
  wallet traffic in between.
* Wallet balances: generated withdrawal ids are new. Currency codes without colons keep wallets apart
  (`WalletKeysDiffer`).
* Postgres: READ COMMITTED; a row lock is held to the end of the transaction; `(user, currency)` and `reference_id` are
  unique; a failed statement aborts its transaction, so the read after a failed insert cannot commit anything. That a
  review decides its request also needs that nothing else is booked under the reference of the request's reversal;
  `TakenReversalBlocksRejections` shows why.
* Sweep: within one pass the feed and every call answer once per bet, which is no restriction, since a pass looks at no
  bet twice (`VisitsOnce`); any listing, read, write or wallet call may fail. Only `RunRepeatedly` assumes one feed for
  all its passes, and listings, reads and status writes that work.
* Token bucket: request times do not decrease, rate and burst are whole numbers (the constructor takes `int`s).
* Feed: hashing provider, kind and provider id gives distinct ids; the provider lists events once and gives no market
  or outcome key to two games. `FeedHistory` also assumes that the conditions of a game that is not live depend on the
  game and its status; then hierarchies and failed fetches alone decide what the store holds. The converse halves of
  `HeldExactly` and `HistoryDecides` need conditions that tell a game's statuses apart (`TitlesTell` gives such a
  provider). `SyncIsSyncAllExactly` and `RunsAgreeExactly` are exact without either assumption.

Eight findings are theorems too, each with the exact condition and an input that gets there.

* One sweep is sure to settle everything resolvable exactly when at most 100 bets are pending. For any list and any
  feed `OneSweepLeavesExactly` tells what a sweep leaves: after each page it passes over as many bets as it settled
  there.
* Dropping an idle bucket after 120 seconds is invisible exactly when burst is at most 120 times the rate.
* A settled bet that is not yet paid can still be paid exactly when a settlement is already past its read
  (`PaidLaterExactly`), so when the credit call of the only settlement fails it never is (`CreditsCanBeLost`).
* A bet that waits for its debit ever changes exactly when its placement is still under way (`MovesOnExactly`), so
  when the write after the debit fails the stake stays taken (`StakesCanBeLost`).
* Overlapping settlements overwrite each other's status exactly when their outcomes differ, and a win and a refund pay
  both (`SagaRivals`).
* The Postgres and the in-memory wallet answer alike exactly when no credit or debit commits under the reference of an
  earlier reversal (`PostgresMatchesMemory`, `StoresCanDiffer`).
* A request that awaits review can still be rejected exactly when nothing is booked under the reference of its reversal
  (`RejectedLaterExactly`, `ReversalsCanBeTaken`).
* When fetching conditions fails, the statuses are already stored, so a game's conditions are left out until its
  status changes (`LostUntilTheStatusChanges`, `ConditionsCanBeLost`); the store holds a calm game's conditions when,
  and in general only when, the last fetch for it that worked was for its present status (`HeldExactly`).

## Model

| member | source | states |
|---|---|---|
| LedgerInvariant.StepKeepsGood | internal/wallet/memory_store.go:69-330 | Every wallet operation, accepted or refused, keeps the whole ledger invariant: the index finds each referenced row, each row starts at the balance its wallet had, requests match their rows, reversals pair off. |
| LedgerInvariant.RunKeepsGood | internal/wallet/memory_store.go:69-330 | The invariant holds after every run of operations with new withdrawal ids. |
| LedgerTheorems.WalletKeysDiffer | internal/wallet/memory_store.go:45-47 | Two wallets share a key exactly when user and currency agree, if no currency has a colon. |
| LedgerTheorems.EveryBalanceIsExplained | internal/wallet/memory_store.go:75-330 | After any run each balance is the signed sum of its wallet's rows, equals deposits less pending and completed withdrawals, and the version counts the rows. |
| LedgerTheorems.RowsChain | internal/wallet/memory_store.go:88-108 | A wallet's rows chain in creation order: the first starts at zero, each starts where the previous one ended, the last ends at the balance. |
| LedgerTheorems.ReviewIsFinal | internal/wallet/memory_store.go:258-330 | A reviewed request never changes again, so none leaves the pending state twice. |
| LedgerTheorems.ReversedHasAdjustment | internal/wallet/memory_store.go:281-330 | Every reversed withdrawal has an adjustment of the same amount in the same wallet. |
| LedgerTheorems.AdjustmentHasReversed | internal/wallet/memory_store.go:281-330 | Every adjustment belongs to a reversed withdrawal. |
| LedgerTheorems.ReversalIsOneToOne | internal/wallet/memory_store.go:281-330 | That pairing is one to one. |
| LedgerTheorems.NoBalanceGoesBelowZero | internal/wallet/memory_store.go:112-166 | Runs whose credits and withdrawals are not negative never take a balance below zero, whatever debits ask for. |
| LedgerTheorems.ReplaysCanBeDropped | internal/wallet/memory_store.go:78-82 | A run equals the run without the credits and debits whose reference is already recorded. |
| LedgerTheorems.DeliveredExactlyOnce | internal/wallet/service.go:129-149 | Delivering confirmed webhooks at least once, in any order, moves each balance by the sum over the distinct new numbers. |
| LedgerTheorems.OrderAndRepetitionDoNotMatter | internal/wallet/service.go:129-149 | Two deliveries of the same webhooks agree on every balance. |
| Limits.Validate | internal/gateway/limits.go:32-76 | An amount passes exactly when it is a positive number within all configured limits and those limits read as numbers. |
| Limits.RejectionsTell | internal/gateway/limits.go:32-76 | Which of the nine rejections an amount gets, and when exactly. |
| Limits.GatedRunsStayNonNegative | internal/gateway/limits.go:23-30 | Runs whose deposits and withdrawals passed the check keep every balance at or above zero, rejections after spending included. |
| WalletStore.MemoryStore.constructor | internal/wallet/memory_store.go:35-43 | A new store is the empty ledger and satisfies the invariant. |
| WalletStore.MemoryStore.CreateWallet | internal/wallet/memory_store.go:49-73 | Opens a wallet at zero unless it is there; returns it. |
| WalletStore.MemoryStore.CreditWallet | internal/wallet/memory_store.go:75-110 | A recorded reference is replayed; a malformed amount only opens the wallet; otherwise one deposit row is appended and indexed and the wallet gains the amount. |
| WalletStore.MemoryStore.DebitWallet | internal/wallet/memory_store.go:112-166 | A recorded reference is replayed; a missing wallet, a malformed amount and a balance below the amount are refused in this order without effect; otherwise one withdrawal row takes the amount. |
| WalletStore.MemoryStore.RequestWithdrawal | internal/wallet/memory_store.go:193-256 | Refused as a debit is; otherwise a pending row takes the amount and the request awaits review under the new id. |
| WalletStore.MemoryStore.ApproveWithdrawal | internal/wallet/memory_store.go:258-279 | Unknown and reviewed requests are refused; otherwise the request is approved and its row completed, no balance moving. |
| WalletStore.MemoryStore.RejectWithdrawal | internal/wallet/memory_store.go:281-330 | Unknown and reviewed requests are refused; otherwise the request is rejected, its row reversed, and an adjustment row puts the amount back; the missing-wallet branch is never taken. |
| WalletStore.Service.ProcessDepositWebhook | internal/wallet/service.go:129-149 | Ignores unconfirmed deposits, refuses unsupported pairs, credits the rest under their number. |
| WalletStore.Service.RequestWithdrawal | internal/wallet/service.go:151-156 | Refuses unsupported pairs without effect, else requests the withdrawal. |
| WalletStore.Service.ReviewWithdrawal | internal/wallet/service.go:158-167 | Approves, rejects, or refuses any other action without effect. |
| PgInvariant.StepKeeps | internal/wallet/pgstore.go:60-552 | Every statement, failure and commit keeps: locks exclude each other, each transaction's reads are still true, the log explains the committed state. |
| PgTheorems.CommitOrderExplains | internal/wallet/pgstore.go:60-552 | Under every interleaving the committed state and all replies are those of running the committed operations one by one in commit order. |
| PgTheorems.OneRowPerReference | internal/wallet/pgstore.go:119-154 | At most one row carries a reference. |
| PgTheorems.ConflictIsUnreachable | internal/wallet/pgstore.go:85-117 | No run reaches the version-conflict branch. |
| PgTheorems.OneReviewWins | internal/wallet/pgstore.go:428-552 | However approvals and rejections race and fail, at most one commits, and the amount is put back exactly when a rejection does. |
| PgTheorems.ExactlyOneReviewWins | internal/wallet/pgstore.go:428-552 | Once a request exists, a review that runs to its end without failing leaves it reviewed exactly once, approved or rejected but not both, whatever other reviews race with it. |
| PgTheorems.TakenReversalBlocksRejections | internal/wallet/pgstore.go:473-552 | Once something else is booked under the reversal's reference, no rejection of the request ever commits. |
| PgTheorems.RollbackHasAReason | internal/wallet/pgstore.go:60-552 | A statement rolls back only if the operation is refused on the committed state, or its reference or wallet was recorded since the transaction looked. |
| PgTheorems.StatementsRunOut | internal/wallet/pgstore.go:60-552 | Every statement brings its transaction nearer to its end, so none runs forever. |
| PgTheorems.NoDeadlock | internal/wallet/pgstore.go:60-552 | While a transaction is open, some transaction can go on, from every consistent state. |
| PgTheorems.EverybodyCanFinish | internal/wallet/pgstore.go:60-552 | From every consistent state some run of statements ends every open transaction, none failing. |
| PgTheorems.RacesCanBeDecided | internal/wallet/pgstore.go:428-552 | Every reachable race of reviews can be run to its end, with the request then reviewed exactly once. |
| PgSequential.AloneIsSequential | internal/wallet/pgstore.go:60-552 | Opened while no other transaction is, an operation commits with its sequential effect and reply if that is acceptable and leaves no trace if not. |
| PgSequential.CommitsExactly | internal/wallet/pgstore.go:60-552 | What interleavings can commit, replies included, is exactly what can be run one operation at a time with none refused. |
| PgSequential.RejectedLaterExactly | internal/wallet/pgstore.go:473-552 | Whatever else is open, a request awaiting review can still be rejected if and only if its reversal's reference is not on the books. |
| PgSequential.ReversalsCanBeTaken | internal/wallet/pgstore.go:473-552 | A run after which a request awaits review and no rejection of it can commit. |
| PgMatchesMemory.PostgresMatchesMemory | internal/wallet/pgstore.go:60-552 | The in-memory store run on the committed operations in commit order replies the same if and only if no credit or debit commits under the reference of an earlier reversal, and then ends with the same wallets, rows and requests. |
| PgMatchesMemory.StoresCanDiffer | internal/wallet/pgstore.go:473-552 | An interleaving on which the two stores reply differently. |
| SagaInvariant.StepKeeps | internal/sportsbook/service.go:53-243 | Every store or wallet call of every placement and settlement, and every other wallet operation in between, debits included, keeps the saga invariant. |
| SagaInvariant.RunKeeps | internal/sportsbook/service.go:53-243 | The invariant holds after every interleaving. |
| SagaTheorems.OneDebitOneCredit | internal/sportsbook/service.go:149-240 | Each bet has at most one debit, of its stake, and at most one credit, of its payout if won or its stake if cancelled after a debit. |
| SagaTheorems.StatusTellsTheMoney | internal/sportsbook/service.go:121-243 | The debit and credit on the books are ones the bet's status permits. |
| SagaTerms.WinsPayStakeTimesOdds | internal/sportsbook/service.go:107-137 | After every run each bet's payout is its stake times its odds, and that is the amount booked for a win, in the bettor's own wallet. |
| SagaTerms.BetsComeFromOrders | internal/sportsbook/service.go:53-137 | After every run each stored bet has the terms of an order that was placed and odds the feed vouched for in that placement. |
| SagaTheorems.CreditIdNamesTheCredit | internal/sportsbook/service.go:212-239 | A stored credit id names the row that pays exactly the payout or the stake. |
| SagaStuck.UnpaidStaysUnpaid | internal/sportsbook/service.go:192-243 | A settled bet without a credit that no settlement is working on is never paid by any later run. |
| SagaStuck.FailedCreditIsNeverPaid | internal/sportsbook/service.go:209-236 | When the credit call of the only settlement of a marked bet fails, no later run pays the bet. |
| SagaStuck.PaidLaterExactly | internal/sportsbook/service.go:192-243 | From any consistent state a settled bet that is not paid can be paid by some later run if and only if a settlement that will pay it is past its read. |
| SagaStuck.FailedCreditPaidExactly | internal/sportsbook/service.go:209-236 | After a failed credit call the bet can be paid if and only if another settlement of it is past its read. |
| SagaStuck.CreditsCanBeLost | internal/sportsbook/service.go:209-236 | For a win and for a cancellation, a run from empty stores after which the bet is settled, its stake is taken and no later run pays it. |
| SagaStuck.MovesOnExactly | internal/sportsbook/service.go:149-163 | A bet that waits for its debit ever gets another status if and only if its placement is still under way. |
| SagaStuck.StakeStaysLost | internal/sportsbook/service.go:155-163 | A debited bet whose placement is gone stays waiting, debited and unpaid through every later run. |
| SagaStuck.StakesCanBeLost | internal/sportsbook/service.go:155-163 | A run from empty stores that gets there, because the write after the debit fails. |
| SagaRivals.RivalsOverwrite | internal/sportsbook/service.go:192-240 | Two settlements past their reads leave first the one terminal status, then the other, so a terminal status changes exactly when their outcomes differ. |
| SagaRivals.RivalsCreditTwice | internal/sportsbook/service.go:192-240 | With a win and a refund, in either order, both are credited. |
| SagaRivals.RivalsAreReachable | internal/sportsbook/service.go:192-240 | For every two outcomes a run from empty stores puts two settlements of one bet there. |
| SagaRivals.AgreementIsNeeded | internal/sportsbook/service.go:192-240 | So for every two different outcomes some run from empty stores overwrites a terminal status. |
| SagaTheorems.TerminalStays | internal/sportsbook/service.go:151-163 | Once won, lost or cancelled, a bet keeps its status; no late placement write overwrites it. |
| SagaTheorems.EveryRunConserves | internal/sportsbook/service.go:121-243 | After any run each balance is deposits, less withdrawals not rejected, less other debits and the stakes taken, plus payouts and refunds credited. |
| SagaTheorems.NoBalanceBelowZero | internal/sportsbook/service.go:45-51 | From any consistent state with nothing below zero, gated wallet traffic, positive stakes and odds that are not negative keep it so. |
| SagaTheorems.NoRunGoesBelowZero | internal/sportsbook/service.go:45-51 | No such run from empty stores takes a balance below zero. |
| Sportsbook.FirstOffer | internal/sportsbook/service.go:92-101 | The first outcome with the id, or none exactly when no outcome has it. |
| Sportsbook.FindOffer | internal/sportsbook/service.go:92-101 | The lookup loop finds the first offer with the id. |
| Sportsbook.FirstOfferIsAt | internal/sportsbook/service.go:92-101 | The offer found is the first with the id, by position. |
| Sportsbook.ResolvableExactly | internal/sportsbook/service.go:285-328 | A bet can be settled exactly when the first offer for its outcome is won, lost or cancelled. |
| Sportsbook.SoloIsARun | internal/sportsbook/service.go:41-243 | A call that runs alone is a run of the saga machine. |
| Sportsbook.Service.Validate | internal/sportsbook/service.go:62-105 | Each feed failure and each missing or unreadable answer has its error, in the order of the checks; otherwise the odds of the first offer for the outcome. |
| Sportsbook.Service.PlaceBet | internal/sportsbook/service.go:41-164 | Every refusal and its error; a taken reference returns its bet; otherwise the bet is stored with the order's terms, the feed's odds and a payout of stake times odds, its stake is asked for once, and it ends pending, cancelled or waiting as debit and last write go. The books are kept. |
| Sportsbook.Service.OpenBet | internal/sportsbook/service.go:121-163 | Creates the bet with these terms, unless the store fails, and asks for its stake. |
| Sportsbook.PlacedIdle | internal/sportsbook/service.go:53-146 | A lone placement that stops before its bet is created leaves both stores alone. |
| Sportsbook.PlacedRuns | internal/sportsbook/service.go:121-163 | Otherwise it has created the bet as pending its debit and goes on to take the stake. |
| Sportsbook.Service.TakeStake | internal/sportsbook/service.go:149-163 | The stake is debited once: refused, the bet is cancelled; paid, it is pending with its debit id; the last write failing, it waits. |
| Sportsbook.SettledIdle | internal/sportsbook/service.go:192-224 | A lone settlement that cannot read, finds nothing to settle or cannot write leaves both stores alone. |
| Sportsbook.SettledRuns | internal/sportsbook/service.go:200-243 | Otherwise it marks the bet and, unless the bet lost, goes on to pay. |
| Sportsbook.Service.PayBack | internal/sportsbook/service.go:212-239 | One credit under its own reference, of the payout for a win and of the stake for a refund, and then its id on the bet; each failing call has its error. |
| Sportsbook.Service.Conclude | internal/sportsbook/service.go:202-240 | A pending bet is marked won, lost or cancelled with its settlement time and, unless lost, paid; the books are kept. |
| Sportsbook.SettlementPays | internal/sportsbook/service.go:212-239 | A lone settlement that leaves a credit id has that id name the row that pays the payout or the stake in full. |
| Sportsbook.Service.SettleBet | internal/sportsbook/service.go:184-252 | Each refusal has its error and no effect; otherwise `won` marks the bet won and credits its payout, `lost` marks it lost and moves no money, `cancelled` marks it cancelled and credits its stake; success after won or cancelled means paid in full. |
| BetStore.InMemoryStore.CreateBet | internal/sportsbook/memory_store.go:22-42 | Refuses a second bet with the same user and reference, else stores the bet under the new id. |
| BetStore.InMemoryStore.GetBetByReference | internal/sportsbook/memory_store.go:216-227 | Finds a bet exactly when the user has one with the reference. |
| BetStore.InMemoryStore.UpdateBetStatus | internal/sportsbook/memory_store.go:107-154 | Writes status and settlement time of the one bet. |
| BetStore.InMemoryStore.UpdateBetStatusAndDebitTx | internal/sportsbook/memory_store.go:123-138 | Writes status, debit id and, when given, settlement time of the one bet. |
| BetStore.InMemoryStore.SetCreditTransactionID | internal/sportsbook/memory_store.go:156-167 | Writes the credit id of the one bet. |
| BetStore.InMemoryStore.ListPendingBets | internal/sportsbook/memory_store.go:171-199 | The page of the list of exactly the pending bets, each once, by creation time and then id, whatever order the map was walked in. |
| BetStore.InMemoryStore.ListBets | internal/sportsbook/memory_store.go:55-89 | The page of the list of exactly the user's bets, of all or one status, each once, newest first. |
| BetOrder.InsertionSort | internal/sportsbook/memory_store.go:91-105 | Sorting in place orders the array and permutes its elements. |
| BetOrder.SortBetsByCreatedAsc | internal/sportsbook/memory_store.go:201-214 | Orders by creation time, then id, keeping the elements. |
| BetOrder.SortBetsByCreatedDesc | internal/sportsbook/memory_store.go:91-105 | Orders by creation time, then id, both descending, keeping the elements. |
| BetOrder.TextBeforeExactly | internal/sportsbook/memory_store.go:201-214 | Ids compare by the first character in which they differ. |
| BetOrder.OrderIsUnique | internal/sportsbook/memory_store.go:201-214 | With distinct ids there is one ordering only. |
| BetOrder.AscendingReversesDescending | internal/sportsbook/memory_store.go:91-105 | The two sorts give each other's reverse. |
| BetOrder.PagesTile | internal/sportsbook/memory_store.go:185-198 | Consecutive pages put together are the list, without gap or overlap. |
| BetOrder.PageTells | internal/sportsbook/memory_store.go:171-198 | Which bets a page shows, with one and twenty for a page and a size that are not positive. |
| Sweep.SweepKeepsUnresolvable | internal/sportsbook/scheduler.go:44-83 | A sweep takes no unresolvable bet off the list. |
| Sweep.SweepReachesTheOldest | internal/sportsbook/scheduler.go:44-83 | A sweep settles the oldest resolvable bet although its pages advance over a shrinking list. |
| Sweep.SweepMakesProgress | internal/sportsbook/scheduler.go:44-83 | While anything is resolvable each sweep settles something and adds nothing. |
| Sweep.EnoughSweepsSettleAll | internal/sportsbook/scheduler.go:44-83 | As many sweeps as there are resolvable bets leave none of them pending. |
| Sweep.OneSweepSufficesExactly | internal/sportsbook/scheduler.go:44-83 | One sweep is sure to settle everything resolvable if and only if at most 100 bets are pending. |
| Sweep.VisitsAreWindows | internal/sportsbook/scheduler.go:44-83 | The pages of the shrinking list are windows of the list as it stood: after each, as many bets are passed over as were settled on it. |
| Sweep.OneSweepLeavesExactly | internal/sportsbook/scheduler.go:44-83 | For every list and feed, a bet is pending after a sweep if and only if it was and is unresolvable or lies between the windows. |
| Sweep.SweepWhileKeeps | internal/sportsbook/scheduler.go:44-83 | However listings fail, a pass puts no bet on the list and takes no unresolvable one off it. |
| Sweep.VisitsOnce | internal/sportsbook/scheduler.go:44-83 | A pass looks at no bet twice although the list shrinks under its pages. |
| Scheduler.Scheduler.ResolveOutcomeStatus | internal/sportsbook/service.go:285-328 | Each feed failure and each missing answer has its error; otherwise the first offer's status: won, lost and cancelled give their outcome and any other text not yet. |
| Scheduler.Scheduler.SettlePage | internal/sportsbook/scheduler.go:56-76 | The inner loop takes off the pending list exactly the page's bets that the feed resolves and whose read and status write work; every failure leaves its bet for later. |
| Scheduler.Scheduler.SweepOnePage | internal/sportsbook/scheduler.go:46-82 | One page of the pass, which stops at a page that cannot be listed, and whether another follows. |
| Scheduler.Scheduler.RunOnce | internal/sportsbook/scheduler.go:44-83 | One pass ends, leaves exactly the list the sweep function gives whichever calls fail, gives each bet it changes the status the feed says, records its payment if those calls work, and keeps the books. |
| Scheduler.PendingListNoDuplicates | internal/sportsbook/memory_store.go:171-199 | The store's pending list has no bet twice, so the sweep theorems apply to it. |
| Scheduler.Scheduler.RunRepeatedly | internal/sportsbook/scheduler.go:28-42 | As many passes as there are resolvable bets leave no resolvable bet pending in the store. |
| TokenBucket.NewConfig | internal/gateway/ratelimit.go:41-47 | Rate and burst are the configured ones; 100 stands in for a rate and the rate for a burst that is not positive. |
| TokenBucket.Limiter.constructor | internal/gateway/ratelimit.go:41-47 | A new limiter has the configured rate and burst, or their defaults, and no bucket. |
| TokenBucket.Limiter.AllowRedis | internal/gateway/ratelimit.go:177-221 | The script refills what has not expired, takes a token if there is one, stores the rest and sets it to expire 120 seconds later. |
| TokenBucket.Limiter.Expire | internal/gateway/ratelimit.go:203-209 | A bucket past its deadline is gone, at the deadline it may be; no other key changes. |
| TokenBucket.Limiter.Serve | internal/gateway/ratelimit.go:177-221 | A request passes if and only if every window ending with it in which the key did not expire stays within burst + rate * length; with burst at most 120 * rate, every window. |
| TokenBucket.TokensAreTheTightestRoom | internal/gateway/ratelimit.go:190-212 | The tokens at a request are the least room any window ending there has left under burst + rate * length. |
| TokenBucket.AllowedExactly | internal/gateway/ratelimit.go:190-212 | A request is let through if and only if every window ending with it stays within burst + rate * length. |
| TokenBucket.NoWindowOverflows | internal/gateway/ratelimit.go:190-212 | No window lets through more than burst + rate * length. |
| TokenBucket.ConformingIsNeverRefused | internal/gateway/ratelimit.go:190-212 | A client within that bound on every window is never refused. |
| TokenBucket.ExpiryIsInvisible | internal/gateway/ratelimit.go:200-209 | With burst at most 120 * rate, dropping idle keys changes no answer on any run. |
| TokenBucket.ExpiryInvisibleExactly | internal/gateway/ratelimit.go:200-209 | Dropping idle keys changes no answer if and only if burst is at most 120 * rate. |
| Decimals.HalfEven | internal/wallet/rates/decimal.go:19-20 | The result is the nearest integer, the even one of two equally near. |
| Decimals.NearestIsUnique | internal/wallet/rates/decimal.go:19-20 | Only one integer is that. |
| Decimals.RoundingIsOdd | internal/wallet/rates/decimal.go:19-20 | Rounding a number and its opposite gives opposites. |
| Decimals.Mul | internal/wallet/rates/decimal.go:10-29 | Fails exactly when an operand does not read; otherwise the product at the longer operand's places, rounded to the nearest unit, half to even. |
| Decimals.WithinHalfUnit | internal/wallet/rates/decimal.go:10-29 | The product keeps the longer operand's places and is within half a unit of the last one. |
| Decimals.MulCommutes | internal/wallet/rates/decimal.go:10-29 | The product does not depend on the order of its operands, errors included. |
| Decimals.ExactExactly | internal/wallet/rates/decimal.go:10-29 | The product is exact if and only if the dropped digits are zeros. |
| Decimals.WholeFactorIsExact | internal/wallet/rates/decimal.go:10-29 | A whole factor makes it exact. |
| Decimals.TwoStageError | internal/wallet/server.go:101-107 | A balance b valued through dollars is off by at most half a unit of the value plus b times half a unit of the cross rate. |
| Rates.Cache.Get | internal/wallet/rates/cache.go:26-37 | The entry if it is no older than the time to live. |
| Rates.Cache.Set | internal/wallet/rates/cache.go:39-43 | Stores the value with the current time, touching no other key. |
| Rates.Cache.StaleValue | internal/wallet/rates/cache.go:45-56 | The entry if it is no older than five minutes. |
| Rates.KeysDiffer | internal/wallet/rates/aggregator.go:41 | A cache key belongs to one pair of currencies. |
| Rates.FirstOf | internal/wallet/rates/aggregator.go:58-67 | The answer of the first provider that answers, by position; none exactly when none answers. |
| Rates.Aggregator.GetRate | internal/wallet/rates/aggregator.go:31-89 | What is replied and cached in every case: unsupported, pegged, cached, manual, the first direct answer, through dollars, and the fallback to an entry up to five minutes old or its error. |
| Rates.Aggregator.CryptoToUSD | internal/wallet/rates/aggregator.go:91-108 | One for a stablecoin, else the cached dollar rate, else the first provider's answer, which is cached. |
| Rates.CacheIsTransparent | internal/wallet/rates/aggregator.go:31-108 | While answers do not change, every call replies as if there were no cache, for all requests and clock movements, and the stale fallback never serves. |
| Rates.StalenessIsBounded | internal/wallet/rates/cache.go:26-56 | No crypto quote behind a reply is older than two times to live and no forex quote older than one; on the stale path five minutes and one time to live, and five minutes. |
| Rates.BoundsAreReached | internal/wallet/rates/aggregator.go:91-108 | Runs that reach all four bounds, for every time to live below five minutes. |
| FeedStore.MemoryStore.PutSport | internal/oddsfeed/memory_store.go:54-71 | A sport that is there takes every given field and keeps its id; a new one is stored as given, under the drawn id if it has none. |
| FeedStore.MemoryStore.PutLeague | internal/oddsfeed/memory_store.go:73-91 | A league that is there takes every given field and keeps its id; a new one is stored as given, under the drawn id if it has none. |
| FeedStore.MemoryStore.PutEvent | internal/oddsfeed/memory_store.go:93-118 | An event that is there takes every given field and keeps its id; a new one is stored as given, under the drawn id if it has none. |
| FeedStore.MemoryStore.PutMarket | internal/oddsfeed/memory_store.go:120-141 | A market that is there takes every given field and keeps its id; a new one is stored as given, under the drawn id if it has none. |
| FeedStore.MemoryStore.PutOutcome | internal/oddsfeed/memory_store.go:143-163 | An outcome that is there takes every given field and keeps its id; a new one is stored as given, under the drawn id if it has none. |
| FeedStore.MemoryStore.GetEventStatusesByProvider | internal/oddsfeed/memory_store.go:217-227 | The status of exactly the provider's events, whatever order the map is walked in. |
| Normalizer.NormalizeSnapshot | internal/oddsfeed/normalizer.go:12-90 | Every entity field by field with the ids of what it refers to, or the first problem: an unknown sport, then an unreadable time, an unknown event, an unknown market. |
| Normalizer.NormalizesExactlyWhenResolved | internal/oddsfeed/normalizer.go:12-90 | Normalising succeeds if and only if every league's sport, market's event and outcome's market is in the snapshot and every time reads. |
| Azuro.CollectGames | internal/oddsfeed/providers/azuro/azuro.go:400-403 | The games mentioned, each as its last condition has it. |
| Azuro.AddStubs | internal/oddsfeed/providers/azuro/azuro.go:404-414 | One upcoming event per game, in some order. |
| Azuro.AddOutcomes | internal/oddsfeed/providers/azuro/azuro.go:432-444 | One outcome per selection: its key under the market's, title, odds, and the status its state reads as. |
| Azuro.BuildSnapshot | internal/oddsfeed/providers/azuro/azuro.go:398-448 | One market per condition and one outcome per selection in order, with the statuses their states read as, and one upcoming event per game as its last condition has it. |
| Azuro.BuiltSnapshotsNormalize | internal/oddsfeed/providers/azuro/azuro.go:398-448 | A conditions-only snapshot always normalises, to the same markets and outcomes whatever the order of the stubs. |
| FeedSync.SyncKeepsKeyed | internal/oddsfeed/service.go:31-72 | Every sync keeps events stored under their own keys. |
| FeedSync.Service.SyncProvider | internal/oddsfeed/service.go:31-72 | Store and error for every provider answer: conditions are asked for exactly the outdated events, and an answer that fails or cannot be read leaves the stored conditions alone. |
| FeedSync.Service.ChangedEventIDs | internal/oddsfeed/service.go:90-101 | The ids of the new, live and status-changed events, in order. |
| FeedSync.Service.StoreHierarchy | internal/oddsfeed/service.go:145-179 | Upserts sports, leagues and events in order. |
| FeedSync.Service.StoreMarkets | internal/oddsfeed/service.go:181-202 | Upserts markets and outcomes in order. |
| FeedSync.ChangedHas | internal/oddsfeed/service.go:90-101 | A game is asked for if and only if some event with its id is new, live or has changed status. |
| FeedTheorems.IncrementalSyncIsFullSync | internal/oddsfeed/service.go:31-101 | After every sync of a run the store is the one that refetching all conditions every time gives. |
| FeedTheorems.SyncIsSyncAllExactly | internal/oddsfeed/service.go:31-101 | A sync whose calls answer stores what refetching all conditions would if and only if every listed game not asked for already has its conditions stored. |
| FeedFailures.RunsAgreeExactly | internal/oddsfeed/service.go:31-101 | Over runs with failing fetches the incremental and the full run hold the same stores throughout if and only if no answering round misses anything. |
| FeedFailures.AskedAfterFailedFetch | internal/oddsfeed/service.go:54-101 | After a failed fetch any next hierarchy has a game asked for if and only if it lists it as live or under another status than the one the failed sync stored. |
| FeedFailures.FailedFetchIsNotRepeated | internal/oddsfeed/service.go:54-66 | So with the same hierarchy and nothing live the next sync asks for nothing and ends without error, the conditions still missing. |
| FeedFailures.LostUntilTheStatusChanges | internal/oddsfeed/service.go:54-101 | While a game that is not live is listed under its stored status only, no sync, however many follow, writes any market or outcome of it. |
| FeedFailures.ConditionsCanBeLost | internal/oddsfeed/service.go:54-66 | A run of a failing and an answering sync whose stores differ from those of the full run. |
| FeedHistory.StoreFollowsHistory | internal/oddsfeed/service.go:31-101 | After any run, with any hierarchies and fetches failing, the store has each game under its last listed status and holds the conditions last fetched for it. |
| FeedHistory.HeldExactly | internal/oddsfeed/service.go:31-101 | The store holds what a calm game has under a status if its last fetch that worked was for that status; if conditions tell statuses apart, only if. |
| FeedHistory.HistoryDecides | internal/oddsfeed/service.go:31-101 | Incremental and full run agree throughout if every game listed and not asked for was last fetched under that status; if conditions tell statuses apart, only if. Hierarchies and failures alone decide. |
| FeedHistory.SelectionIsStored | internal/oddsfeed/providers/azuro/azuro.go:432-444 | After a sync that asks for a game, each selection's stored outcome has its title, odds and state: one that won is stored as won. |
| FeedTheorems.ReapplyingChangesNothing | internal/oddsfeed/service.go:134-143 | Applying a snapshot twice is applying it once. |
| FeedTheorems.ReferencesAreStored | internal/oddsfeed/service.go:31-72 | After any run of syncs, failed ones included, every stored market points to a stored event and every stored outcome to a stored market. |

## Left out

- Transport and presentation: gRPC and HTTP handlers, authentication, generated protobuf and JSON encoding, the web app, scripts, configuration, metrics and logging.
- Exchange, forex, Azuro REST and WebSocket clients: answers are parameters. A validated webhook is an input; signatures and nonces are not modelled.
- Columns no decision depends on: transaction metadata and times, destination address, chain, hash and reviewer of withdrawals, creation and update times of wallets and feed entities.
- Pointer aliasing: the in-memory wallet store returns pointers into its maps; here replies name rows and requests.
- Deposit addresses, `ListTransactions`, `ListPendingWithdrawals` of the wallet, the feed's read-only listings and `paginate`: queries that change nothing.
- `NUMERIC(28,8)` in the Postgres schema: amounts with more than eight decimals are rounded by the database and are not modelled; nor is the schema's list of transaction types.
- Opening a Postgres wallet on its own (`CreateWallet`, a single upsert) and Postgres versions of the bet and feed stores.
- Ambiguous wallet failures, where the effect happened and the reply was lost: a failing call has no effect here.
- `AutoSettleFromEvents`: the same loop as the scheduler's `runOnce`, which is modelled.
- The in-memory backend of the rate limiter: the library behind it is not part of this model. Client keys and addresses are not modelled either.
- Decimal texts in exponent notation: a literal is a coefficient and the digits after its point.
- When a manual rate was set: it counts as quoted when it is read.
- Upper-casing of currency codes, `SupportedRates`, the forex chain's own fallbacks, loading manual rates from the environment.
- Several providers in one feed store: the feed theorems are about stores that one provider feeds. Provider, store and cache failures of upserts, live snapshots, `ApplyUpdate`, the live-odds cache and event publishing are not modelled.
- `buildSnapshot`'s walk over sports, leagues and games, which only copies fields; a hierarchy is any snapshot here.
