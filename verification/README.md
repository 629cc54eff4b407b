# A verified model of the payment system

The Dafny files here model how the service moves money: `send_money`, `top_up` and the
balance reads over PostgreSQL rows, row locks, a unique key and a Redis that may lose or
refuse anything. They prove what the service's own documentation promises of it, and where
the code does less, exactly what it does.

`dafny verify dfyconfig.toml` checks the whole project.

## How it is built

- `Money.dfy`: cents, the 28-digit decimal context and the `Numeric(18, 2)` column.
- `Ledger.dfy`: the tables, each committed operation as one indivisible change, and the
  tables as the replay of a log of commits. Versions, reconciliation and conservation are
  facts about that log.
- `Protocol.dfy`: one transition system. Any number of calls take one step per `await`, in
  any interleaving, over shared rows, row locks, open transactions, the unique key index,
  Redis and a clock. Other events: a call begins, a call dies (crash, dropped connection or any
  unexpected database error), a user registers, time passes, Redis loses entries.
- `Invariant.dfy`, `Preservation.dfy`: what every reachable state satisfies, and that every
  event keeps it.
- `Guarantees.dfy`, `Caching.dfy`, `Liveness.dfy`, `Erasure.dfy`: the promises, over all runs;
  `Caching.dfy` has those about what Redis holds.
- `Findings.dfy`: runs in which the code does less than its documentation says.
- `RateLimit.dfy`, `History.dfy`: the request counter and offset pagination over a growing ledger.
- `Platform.dfy`: the service as it is written, a class whose repositories and caches update
  maps in place and whose service methods have the retry loops and exception handlers of the
  source. At every await arbitrary events of the rest of the system run (`Await`); each
  method is proved to be a run of the protocol, so every promise about runs holds of it.

Isolation is PostgreSQL's READ COMMITTED: every statement reads the latest committed rows, a
locked select or an update waits for a row locked by another transaction and then looks at the
committed row, and an insert waits for another open transaction that inserted the same key.
On the first attempt a locked select may keep the session's already loaded copy of a row
(SQLAlchemy's identity map does, since nothing asks it to reload) or reload it; both are
possible steps. A rollback expires the session, so later attempts load current rows.

A session also holds balances assigned to its rows and not yet flushed; a commit would write
them without a version check. Only `get_wallet` assigns one, the balance it found in the cache.

Fields that only record history and steer nothing: `seen` and `at` in a read row, `born` in a call,
`checked` in a rejection, `ci` after a commit and in a top-up's answer, the log's `caller` and `at`,
`spanned` in a cache entry, and `purges`. What the last two record is proved from the events of the run
(`Caching.EntryHasFill`, `Caching.FateOfDeletes`).

## Where the code and its documentation differ

The model follows the code.

- `payment_service.py:206` says the balance is checked "with locked data (no race possible)". The
  check looks at the session's copy, which can be older than the lock: `Findings.StaleRejection`
  rejects a payment the locked row covers. `Guarantees.WhenTheCheckIsWrong` says exactly when the
  check errs, in terms of the commits between read and lock, and `Guarantees.WhenARejectionIsWrong`
  says it of a payment that was rejected. A stale copy never moves money (`Preservation.DebitOk`,
  `Preservation.CreditOk`).
- `payment_service.py:28` speaks of a transaction marked FAILED. No such row is ever written.
- `payment_service.py:16` says a missing Redis only slows the system down. The pipeline at lines
  123-126 is not guarded: if it gets no reply the call raises although the money has moved
  (`Findings.RaisedButCommitted`), and a call that commits and does not die raises exactly then
  (`Guarantees.RaisesAfterCommit`). A retry with the same key gets the committed row
  (`Guarantees.RetryGetsTheRow`).
- `idempotency_service.py:13` says a key can be reused after its TTL. The ledger lookup makes that
  false (`Guarantees.RetryGetsTheRow`).
- `cache_manager.py:216` calls the limiter a sliding window. It is a fixed one: what a sliding window
  promises is true exactly of limits of at most one (`RateLimit.SlidingOnlyUpToOne`). A window whose
  opening INCR got no reply, or whose EXPIRE was not carried out, never ends; those are all the causes
  (`RateLimit.LockOutCauses`), and any other window admits again (`RateLimit.AdmitsAgain`).
- `idempotency_service.py:42-65` and the ledger lookup compare only the key, before anything is known
  of the users: a success reports the row of that key, whoever asked for it first and with whatever
  amount (`Findings.SuccessForAnother`, `Guarantees.AnyoneGetsTheRow`). It answers the caller's own
  request exactly when that equals the request of the call that committed (`Guarantees.SuccessAnswers`).

## Model

| member | source | states |
|---|---|---|
| Guarantees.Serialisable | payment-system/app/services/payment_service.py:174-243 | In every run the tables equal the replay of the committed operations one by one in commit order, each legal alone, each as its call asked and made during it, none by a call that already committed |
| Guarantees.RealTimeOrder | payment-system/app/services/payment_service.py:239-243 | A call that returned before another began precedes it in commit order |
| Guarantees.RowsAreDated | payment-system/app/models/transaction.py:57-61 | A ledger row is dated not before the clock at any moment when its call had not begun, and not after its commit |
| Guarantees.DatesFollowCalls | payment-system/app/models/transaction.py:57-61 | Of two payments of which one had returned before the other began, the later one's row never carries an earlier date |
| Guarantees.RowIdsDiffer | payment-system/app/models/transaction.py:35-37 | Different ledger rows have different ids |
| Guarantees.ExactlyOnce | payment-system/app/services/payment_service.py:72-145 | A key moves money at most once; every success for it, from Redis, the ledger, a fresh transfer or a lost race, reports the same row, which stays for ever |
| Guarantees.OneTransferPerKey | payment-system/app/models/transaction.py:53-55 | No two committed transfers carry the same key |
| Guarantees.RetryGetsTheRow | payment-system/app/services/payment_service.py:72-84 | A payment that began after a transfer under its key was committed, however the call that committed it ended, returns that row unless it dies, and commits nothing |
| Guarantees.RaisesAfterCommit | payment-system/app/services/payment_service.py:114-134 | A payment that commits and does not die raises if and only if it has a Redis client and its pipeline gets no reply; otherwise it reports its row; the transfer is in the ledger as asked either way |
| Findings.RaisedButCommitted | payment-system/app/services/payment_service.py:123-126 | A run without deaths in which a payment raises although its row is in the ledger and both balances have changed |
| Guarantees.ErrorsExplained | payment-system/app/services/payment_service.py:164-170 | Every unexpected error of a payment is its death, or comes after its own commit, which did what was asked, or it has committed nothing and at some instant since it began the receiver's wallet could not hold the amount |
| Guarantees.SuccessAnswers | payment-system/app/services/payment_service.py:72-84 | The row a success reports was committed by one call `q` with the key, as `q` asked; it is what the reporting call asked for if and only if both requests are equal |
| Guarantees.SuccessAnswersRequest | payment-system/app/services/payment_service.py:72-84 | If all calls with a key ask for the same, every success carries the amount, sender and receiver its own call asked for |
| Guarantees.AnyoneGetsTheRow | payment-system/app/services/payment_service.py:80-84 | After any run, whoever sends a key of the ledger, with any amount and any parties, even unknown ones, is answered with its row and changes nothing |
| Findings.SuccessForAnother | payment-system/app/services/payment_service.py:80-84 | A run in which another user, asking for another amount under the same key, is told of the first user's transfer and has moved nothing |
| Guarantees.Reconciled | payment-system/app/services/payment_service.py:206-240 | In every reachable state each balance is top-ups plus received minus sent, non-negative and within the column, each version counts those writes, and all balances sum to all top-ups |
| Guarantees.PaymentExits | payment-system/app/services/payment_service.py:136-157 | A payment has at most one version conflict, never exhausts its attempts, and a unique-key violation always finds the row, so the duplicate error is unreachable |
| Guarantees.RejectionJustified | payment-system/app/services/payment_service.py:206-211 | Insufficient balance means a committed balance below the amount at an instant since the call began; the call has committed and will commit nothing; at any later time its key is in the ledger exactly when another call with the key has committed, and in Redis only then |
| Guarantees.KeysTaken | payment-system/app/services/payment_service.py:136-145 | The ledger has a key exactly when some call with the key has committed a transfer, and Redis has it only if the ledger has |
| Guarantees.RefusalJustified | payment-system/app/services/payment_service.py:86-98 | No wallet means one of the two users was not registered at an instant since the call began, self-transfer that they are the same user; neither call ever commits anything |
| Guarantees.NoWalletMeansUnregistered | payment-system/app/repositories/wallet_repo.py:18-22 | A payment, top-up or read that answers no wallet is about a user who was not registered at an instant since it began, and so not when it began: it never says so of registered users |
| Guarantees.WhenTheCheckIsWrong | payment-system/app/services/payment_service.py:189-211 | The check is off by the net of the commits to the sender's wallet between the read of the copy and the lock: with none it agrees with the locked row for every amount; some amount the row covers is turned away if and only if they raised the balance; after a rollback they add up to nothing |
| Guarantees.WhenARejectionIsWrong | payment-system/app/services/payment_service.py:206-211 | A rejected payment was covered by the row it had locked if and only if the commits between read and check brought at least what the copy lacked, and then one by another call raised the balance |
| Findings.StaleRejection | payment-system/app/services/payment_service.py:206-211 | A run in which a payment is rejected although the row it has locked covers it |
| Guarantees.ConflictsEarned | payment-system/app/services/wallet_service.py:107-143 | A top-up that gives up was beaten by at least three commits of others to its wallet during the call, and committed nothing |
| Guarantees.TopUpLands | payment-system/app/services/wallet_service.py:117-135 | A top-up that reports success was committed exactly once, for the amount and user asked, during the call, and reports a balance its wallet had after that commit |
| Caching.DeletesAreMade | payment-system/app/services/wallet_service.py:126-129 | The deletes after a commit, of a top-up or a payment, when Redis carries them out or answers, leave no cached balance of a wallet the commit wrote, and every other one as it was |
| Caching.FateOfDeletes | payment-system/app/services/payment_service.py:123-126 | Over every run, the deletes after a commit are never made if and only if its call has no Redis client, died while it owed them, or got neither an execution nor a reply; they are made if and only if Redis carried them out or answered; otherwise the call still owes them |
| Caching.OnlyWrittenRowsAreDeleted | payment-system/app/services/cache_manager.py:103-131 | No other delete is recorded as made or lost |
| Caching.ReadsTheRow | payment-system/app/repositories/wallet_repo.py:18-22 | Every unlocked read, of a payment, a top-up or a balance, finds the wallet of every registered user and takes its row as committed at that instant; without a Redis client a balance read shows just that |
| Caching.LocksLoadOrKeep | payment-system/app/repositories/wallet_repo.py:30-40 | The two locked selects, lower id first, lock the row and leave the session's copy as it was, on the first attempt only, or as the row committed at that instant |
| Caching.MissStoresItsRead | payment-system/app/services/wallet_service.py:84-88 | After a miss, the row the call itself read, committed since it began, is what it displays and, if Redis stores or answers, what the cache holds |
| Caching.EntryHasFill | payment-system/app/services/wallet_service.py:56-60 | Over every run, a cached balance was stored by a read that had itself read that row since it began; it counts as late if and only if by then a delete had been made for a commit that the read misses |
| Caching.QuietFillIsExact | payment-system/app/services/wallet_service.py:56-60 | A read that begins after the last commit to a wallet leaves an entry that is the committed row and not late |
| Caching.DeletedIsNotServed | payment-system/app/services/wallet_service.py:120-129 | An entry that is not late reflects every commit whose delete has been made |
| Caching.HitsExactlyTheFresh | payment-system/app/services/cache_manager.py:74-91 | A lookup is answered from the cache exactly when Redis replies and an entry less than 300 seconds old is there; otherwise it goes on with its own row |
| Caching.ClosingShowsTheHit | payment-system/app/services/wallet_service.py:53-62 | What `get_wallet` took from the cache is what it displays, and the session drops it |
| Caching.KeyIsRemembered | payment-system/app/services/idempotency_service.py:54-93 | Once a response has been stored, a payment with that key whose lookup is answered within the next 24 hours returns the row at its first await, unless Redis loses the key |
| Caching.KeysExpire | payment-system/app/services/idempotency_service.py:54-65 | The lookup is answered from Redis exactly until the key's expiry, never more than 24 hours away |
| Caching.ResponseIsSent | payment-system/app/services/payment_service.py:114-122 | A payment with a Redis client that commits and does not die sends its response to Redis before it returns |
| Caching.CacheExact | payment-system/app/services/wallet_service.py:48-60 | With no delete lost and no fill after a delete, a cached balance is the committed one whenever no writer is between commit and delete |
| Caching.HealthyCacheIsExact | payment-system/app/services/wallet_service.py:48-60 | An entry no late fill made is the committed row if every commit its read misses was made by a call with a Redis client that has neither lost nor still owes its deletes |
| Caching.StaleEntryTraceable | payment-system/app/services/wallet_service.py:117-132 | Every commit a cached balance misses has a delete still owed, a delete that was lost, or a delete that was carried out before a late fill; a different balance implies such a commit |
| Caching.ServedBalanceIsRecent | payment-system/app/services/cache_manager.py:74-101 | A balance served from the cache was the committed one less than 300 seconds plus the entry's read-to-fill delay ago |
| Caching.ShownWasCommitted | payment-system/app/services/wallet_service.py:44-94 | Every balance a read displays, from whichever tier, is one the wallet had committed, and without a Redis client one it had at an instant of the call |
| Caching.MissShowsCommitted | payment-system/app/services/wallet_service.py:84-88 | A balance shown after a miss was committed at an instant of the call |
| Caching.CachedBalanceIsNeverWritten | payment-system/app/services/wallet_service.py:53-55 | A session holding a balance taken from the cache belongs to a read about to close it, has written nothing, and its call commits nothing in any continuation of the run |
| Guarantees.LedgerExtends | payment-system/app/models/transaction.py:1-5 | What a later reader finds in the ledger extends what an earlier one found |
| Liveness.SomeoneCanStep | payment-system/app/services/payment_service.py:189-196 | From any call in flight the waiting leads to a call that can step: no deadlock |
| Liveness.NextFalls | payment-system/app/services/payment_service.py:101-157 | Every step or death of a call lowers the sum of remaining steps, and nothing but a new call raises it |
| Liveness.NoDeadlockAndTermination | payment-system/app/services/payment_service.py:101-157 | After any run, once no call begins, the number of steps is bounded, some call can step unless all have returned, and own steps alone return them all |
| Erasure.RedisErasure | payment-system/app/services/wallet_service.py:44-62 | Every run, in which `get_wallet` may assign cached balances to session rows that a commit would flush, has a twin in which Redis is always empty and no session ever holds such a balance, with the same tables, commits, callers, times and answers to payments and top-ups |
| Erasure.EventErased | payment-system/app/services/idempotency_service.py:42-93 | Each event is matched by one or two events of the run without Redis |
| Erasure.KeyHitIsDatabaseHit | payment-system/app/services/idempotency_service.py:54-65 | A hit in the idempotency cache gives the answer the ledger lookup would give |
| Ledger.VersionCountsWrites | payment-system/app/repositories/wallet_repo.py:47-63 | Versions rise by one per write of the row and by nothing else, and rows never disappear |
| Ledger.SameVersionSameRow | payment-system/app/repositories/wallet_repo.py:47-63 | A row read earlier has a version no newer than the current one, and the same version exactly when it is the same row |
| Ledger.BalanceMovesByNet | payment-system/app/repositories/wallet_repo.py:47-63 | A balance changes between two commits by what the commits in between add to it, and by nothing if none wrote its row |
| Ledger.Reconciles | payment-system/app/services/payment_service.py:206-240 | For every log of legal operations, balance and version of each wallet from its top-ups and the ledger rows naming it |
| Ledger.Conserves | payment-system/app/services/payment_service.py:213-225 | Transfers conserve money: all balances together are all top-ups together |
| Ledger.KeysAreUnique | payment-system/app/models/transaction.py:53-55 | A key names at most one ledger row |
| Ledger.LedgerOnlyGrows | payment-system/app/models/transaction.py:1-5 | Rows are only appended, and a user's wallet never changes |
| Ledger.RowsAreTransfers | payment-system/app/services/payment_service.py:227-240 | The ledger rows are exactly the committed transfers |
| Ledger.OneWalletPerUser | payment-system/app/models/wallet.py:27-32 | Different users have different wallets |
| Money.ExactOrRefused | payment-system/app/models/wallet.py:34-36 | For every stored balance and every amount, of any size, the column holds exactly the sum or, from 10^16 units on, refuses it |
| Money.RoundsToNearest | payment-system/app/services/payment_service.py:220-223 | A sum is rounded to a nearest multiple of its last kept digit, of two the even one, and is exact if and only if it is such a multiple, as all below 10^28 cents are |
| Preservation.RunKeeps | payment-system/app/services/payment_service.py:60-243 | The invariant holds after every run |
| Preservation.LockFirstOk | payment-system/app/services/payment_service.py:189-193 | The first locked select finds its row; after a rollback the copy it leaves is current |
| Preservation.LockSecondOk | payment-system/app/services/payment_service.py:194-211 | Both rows exist, and the check leads to the debit or to a rejection with a committed copy |
| Preservation.DebitOk | payment-system/app/services/payment_service.py:213-218 | The debit can fail only on a version conflict, and only on attempt 1 |
| Preservation.CreditOk | payment-system/app/services/payment_service.py:220-225 | The credit can fail only on a version conflict on attempt 1, or because the current balance plus the amount overflows the column |
| Preservation.InsertOk | payment-system/app/services/payment_service.py:227-237 | Of all constraints on the new row only the unique key can be violated, and exactly when a committed row has the key |
| Preservation.PayCommitIsLegal | payment-system/app/services/payment_service.py:239-243 | Committing the balances computed from the session's copies is the atomic transfer on the current rows |
| Preservation.ConflictIsEarned | payment-system/app/services/wallet_service.py:108-138 | Each failed compare-and-set of a top-up means one more commit of another call to the row |
| Protocol.Find | payment-system/app/repositories/transaction_repo.py:21-27 | Finds a row with the key, and none only if there is none |
| RateLimit.RateBound | payment-system/app/services/cache_manager.py:208-230 | Any L seconds admit at most max * (ceil(L / 60) + 1) requests on their count, whatever slips between INCR and EXPIRE |
| RateLimit.SlidingOnlyUpToOne | payment-system/app/services/cache_manager.py:215-219 | Any sixty seconds admit at most max requests in every run if and only if max <= 1; for larger limits the most sixty seconds can admit is exactly 2 * max - 1 |
| RateLimit.LockOutCauses | payment-system/app/services/cache_manager.py:221-226 | After any run from an empty counter the window never ends if and only if on the way an opening INCR was carried out without a reply or an EXPIRE was not carried out |
| RateLimit.BothCausesOccur | payment-system/app/services/cache_manager.py:221-226 | Each of the two causes locks a fresh counter |
| RateLimit.LostExpireLocksOut | payment-system/app/services/cache_manager.py:223-230 | Then only the rest of that window's quota is ever admitted on a count |
| RateLimit.AdmitsAgain | payment-system/app/services/cache_manager.py:221-227 | With its quota used up, some continuation admits a request on its count if and only if the window has not lost its EXPIRE |
| RateLimit.WindowLastsSixtySeconds | payment-system/app/services/cache_manager.py:221-226 | Over every run, a window whose EXPIRE is carried out at an instant counts answered requests for exactly sixty seconds more; after them the next one opens a new window and is admitted |
| RateLimit.AdmittedOnCount | payment-system/app/services/cache_manager.py:221-227 | An answered request is admitted on its count if and only if, itself included, at most max have been counted since the window opened, answered or not |
| RateLimit.RateLimiter.CheckRateLimit | payment-system/app/services/cache_manager.py:208-230 | Refuses exactly when Redis answered and more than max requests, this one included, have been counted since the window opened; lets through when Redis does not answer; another request's outstanding EXPIRE stays outstanding |
| History.RowsAreSorted | payment-system/app/repositories/transaction_repo.py:37-57 | The query returns exactly the ledger rows naming the wallet as sender or receiver, each as often as it is there, in descending order of date and then of id |
| History.LaterPaymentStandsFirst | payment-system/app/repositories/transaction_repo.py:50-58 | Of two payments of which one had returned before the other began, the later one stands first in the history, unless both rows carry the same instant |
| History.PagesPartition | payment-system/app/repositories/transaction_repo.py:50-60 | With no inserts the pages are the history, cut in order |
| History.RowsShift | payment-system/app/repositories/transaction_repo.py:37-57 | Inserts, wherever they land, only move a row to later positions |
| History.ScanMissesNothing | payment-system/app/repositories/transaction_repo.py:29-60 | A client reading pages 1, 2, 3, ... while rows are inserted, up to a page past the total, has seen every row there at the start |
| Platform.Platform.SendMoney | payment-system/app/services/payment_service.py:60-172 | The retry loop and its handlers: each answer is justified, a payment turned away has committed nothing, and one that raises has committed what was asked or nothing because the receiver's wallet was full |
| Platform.Platform.Admit | payment-system/app/services/payment_service.py:72-98 | Both idempotency tiers and the validation: a justified answer, or the start of attempt 1 with committed rows of both wallets |
| Platform.Platform.Validate | payment-system/app/services/payment_service.py:86-98 | Missing wallets, of users not registered at an instant of the call, and self-transfers are answered; otherwise committed rows of two different wallets, those of the two users, have been read |
| Platform.Platform.ExecuteTransfer | payment-system/app/services/payment_service.py:174-243 | Done with the transfer committed by this call as asked, or raised with its cause, nothing committed and everything still to roll back |
| Platform.Platform.AfterPayment | payment-system/app/services/payment_service.py:114-134 | Success after the pipeline answered, an exception if it did not |
| Platform.Platform.Handle | payment-system/app/services/payment_service.py:136-170 | Which cause leads to which answer; only a version conflict before the last attempt goes round again; an unexpected error comes after the commit or from a full wallet |
| Platform.Platform.TopUpWallet | payment-system/app/services/wallet_service.py:96-143 | Success has been committed by this call as asked and reports a balance committed after that; giving up means three commits of others and none of its own; an error means the wallet was too full, and nothing committed; no wallet that the user was not registered |
| Platform.Platform.FinishTopUp | payment-system/app/services/wallet_service.py:117-135 | Always a success: committed by this call as asked; the cached balance has been deleted by Redis after that commit unless there is no client or the delete was lost, each exactly then |
| Platform.Platform.ShowBalance | payment-system/app/services/wallet_service.py:33-94 | Both cache-aside reads: a balance the wallet had committed, without a client since the call began; no wallet only for a user not registered at an instant of the call; nothing committed, nothing left in the session |
| Platform.Platform.Await | payment-system/app/services/payment_service.py:191-196 | The others do exactly what the next turns of the script hold, as far as the protocol allows; the call itself is left as it was, and stays suspended only if it still waits for a lock when they have finished |

## The code, await by await

Each of these is proved to be exactly one step of the protocol, or one statement on the tables
or on Redis; what the steps add up to is the table above.

| member | source | what it does |
|---|---|---|
| RateLimit.RateLimiter.Do | payment-system/app/services/cache_manager.py:221-226 | INCR, EXPIRE and time on the counter, as the run says |
| Platform.Platform.LockLower | payment-system/app/services/payment_service.py:189-193 | One step: the row with the lower id is locked |
| Platform.Platform.LockHigherAndCheck | payment-system/app/services/payment_service.py:194-211 | One step: the other row is locked and the session's copy checked |
| Platform.Platform.DebitSender | payment-system/app/services/payment_service.py:213-218 | One step: the sender's compare-and-set |
| Platform.Platform.CreditReceiver | payment-system/app/services/payment_service.py:220-225 | One step: the receiver's compare-and-set |
| Platform.Platform.RecordTransaction | payment-system/app/services/payment_service.py:227-237 | One step: the ledger row is inserted, or the integrity error raised |
| Platform.Platform.CommitTransfer | payment-system/app/services/payment_service.py:239-240 | One step: debit, credit and row become durable together and both locks are free |
| Platform.Platform.PurgeBoth | payment-system/app/services/payment_service.py:123-126 | One step: the unguarded pipeline deletes both balances or raises |
| Platform.Platform.FindRaceWinner | payment-system/app/services/payment_service.py:140-145 | One step: the committed row, or the duplicate error |
| Platform.Platform.AddFunds | payment-system/app/services/wallet_service.py:112-115 | One step: the unlocked compare-and-set, its conflict or its overflow |
| Platform.Platform.GetByUserId | payment-system/app/repositories/wallet_repo.py:18-22 | The user's wallet and its committed row, if any |
| Platform.Platform.GetByIdForUpdate | payment-system/app/repositories/wallet_repo.py:30-40 | Locks the row for the call and returns the committed row, if any |
| Platform.Platform.UpdateBalance | payment-system/app/repositories/wallet_repo.py:47-63 | Writes balance and version + 1 in the open transaction exactly when the version matches and the constraints hold, and otherwise changes nothing |
| Platform.Platform.Create | payment-system/app/repositories/transaction_repo.py:16-19 | Adds the row to the open transaction exactly when no constraint is violated |
| Platform.Platform.GetByIdempotencyKey | payment-system/app/repositories/transaction_repo.py:21-27 | The ledger row of the key, none exactly when the key is not in the ledger |
| Platform.Platform.Commit | payment-system/app/services/payment_service.py:239-240 | The open transaction's writes become the tables and its locks are free |
| Platform.Platform.Rollback | payment-system/app/services/payment_service.py:159-162 | The open transaction's writes are gone, its locks are free, the tables unchanged |
| Platform.Platform.LookUpKey | payment-system/app/services/idempotency_service.py:42-65 | The stored response if Redis answers and the entry has not expired |
| Platform.Platform.SetKey | payment-system/app/services/idempotency_service.py:67-93 | Stores the response for 24 hours, or nothing |
| Platform.Platform.PurgeBalances | payment-system/app/services/cache_manager.py:114-131 | The loop that queues deletes: all the named balances go, or none |
| Platform.Platform.GetBalance | payment-system/app/services/cache_manager.py:74-91 | The cached balance if Redis answers and the entry is less than 300 seconds old |
| Platform.Platform.SetBalance | payment-system/app/services/cache_manager.py:93-101 | Caches the balance that was read, or nothing |
| Platform.Platform.Receive | payment-system/app/api/v1/payments.py:39-52 | A request starts a call at its first await |
| Platform.Platform.AssignBalance | payment-system/app/services/wallet_service.py:53-55 | The cached balance is held by the session, uncommitted |
| Platform.Platform.CloseSession | payment-system/app/core/database.py:41-45 | One step: the session is closed without a commit and what it held is gone |

## Left out

- Platform.Platform.SendMoney: the rest of the system is a finite script, so a call may still be waiting for a lock when it ends (answer `Waiting`); that every call returns is `Liveness.NoDeadlockAndTermination`. The call's own death is an event of the protocol, not an exit of this method.
- RateLimit.RateBound: Redis is taken to keep its counter; if it loses it, a new window may open early.
- History.RowsAreSorted: rows of the same instant are taken in a fixed order of ids; the query itself leaves their order open.
- Object-relational internals: after a rollback the session has expired its wallets, and reading
  `sender_wallet.id` (`payment_service.py:106`) on a second attempt makes SQLAlchemy load it outside the
  async context, so in the running service that attempt dies there. The model keeps the two ids as plain
  values, as the loop is written; that death is one of those a call can have at any step.
- Commands that Redis carries out only after the client has given up and moved on.
- uuid collisions: the id of a ledger row is unique to the call and attempt that drew it.
- Registration beyond adding one user with one empty wallet of version 1, passwords, tokens and login.
- Routes, middleware, error mapping, logging, configuration and health checks.
- JSON, pydantic and decimal text conversion: stored responses and cached balances are values.
- Currency, description, status and `updated_at`: recorded, never used in a decision; every row written is COMPLETED.
- `get_wallet_info`, `set_wallet_info`, `invalidate_wallet_info`, the cache manager's idempotency pair and `delete_key`: nothing reads what they write.
- The history's unused status filter, `is_active`, and the 32-bit width of `version`, which is unbounded here.
