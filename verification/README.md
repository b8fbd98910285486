# Verified model of the platform's money engine, streaming relay and channel selection

The Dafny files model the server of an AI gateway that resells model access: users recharge
credits, requests are relayed to providers' channels, every request is metered and charged,
and providers are paid after a delay. `dafny verify dfyconfig.toml` checks everything.

## What is modelled

- **Ledger** (`Ledger`, `LedgerTheorems`, `LedgerSessions`). The tables `accounts` and
  `transaction_entries` and any number of concurrent database transactions. A transaction is
  a private overlay over the committed rows, and it holds the rows it wrote until it commits
  or rolls back. Each statement (read, insert a missing account, update under the version
  that was read, commit, abort) is one step, and the steps of all transactions interleave in
  any order. `LedgerSessions` has the posting procedures themselves, written as the code
  writes them, with any steps of other sessions between any two statements.
- **Recharge** (`Recharge`). Concurrent order confirmations and direct recharges, statement
  by statement, with a failure possible at each; `UNIQUE(ref_type, ref_id)` is what makes an
  insert wait or fail.
- **Settlement records** (`Settlements`, `SettleSessions`) and **payout** (`Payout`).
  Submitting and settling records one call at a time, settling in a database that other
  sessions use, and the scans that credit and mark expired records.
- **Settlement pipeline** (`Pipeline`, `PipelineService`). The relay enqueues a task, workers
  take it, count tokens when upstream reported no usage, insert the records, retry a bounded
  number of times, debit the account and charge the quota. The tokenizer, every transaction
  and every enqueue may fail.
- **Overdraft** (`Overdraft`). API keys disabled after a debit that did not commit, for want of
  balance or for any other reason, and enabled again after a recharge: one joint machine of
  ledger steps and key updates.
- **Cost** (`Cost`) and **Quota** (`Quota`). Integer cost and revenue with their floors, and
  the two conditional counters that concurrent charges update one after the other.
- **Streaming** (`StreamLines`, `StreamScanner`, `StreamStatus`). What an upstream body
  carries, line by line; the scanner, data-handler and ping goroutines and the main loop as
  one step machine over a bounded data channel, a stop channel and a mutex.
- **Selection** (`Candidates`, `Scheduler`), **replace-all** (`TextReplace`) and the local
  node's **round-robin router** (`Router`).

State machines have a `Next` function, an invariant `Inv` kept by every step, and theorems
over `Run`, the state after an arbitrary schedule. Code that updates fields or loops is a
class or a method whose postcondition ties it to the machine or to a reference function. In
`LedgerSessions.Database` and `PipelineService.Service` a ghost history ties the fields to a
run, so that the theorems about runs apply to every object.

## What the code does not do

Some statements one would expect fail. Each is kept as the code has it, next to the exact
condition or an input that shows it.

- Only debits take balances into account. Whatever else is posted, an account is overdrawn in
  no run exactly when every posting that can be made takes nothing out of it, all its sides
  together (`NeverNegativeIffSpared`); settling a record spares its consumer exactly when the
  consumer is also the provider and gets all of the cost back, or pays nothing
  (`ConsumerSparedIff`).
- The reference of a payment recharge names the channel. An order notified through two
  channels can be recharged twice; it is recharged at most once exactly when all calls on its
  references come through one channel (`PaysOnceIffOneChannel`).
- A read error after the client's context was cancelled ends the stream as `eof`, so `eof`
  after a drained channel means that the handler saw the whole stream exactly when clients
  cannot cancel or the body carries nothing (`EofTellsCompleteIff`); `done` after a drained
  channel always means it (`ReasonTellsComplete`).
- A payout credits before it marks, so every failed mark pays a record once more
  (`RescanRow`). A provider is paid exactly its settled revenue when, and only when, no mark
  ever failed on a record it has revenue from (`PaidExactlyWhenMarksSucceed`).
- Caching never raises a cost exactly when the cached price is at most the other
  (`CachingNeverRaisesCost`); nothing in the code requires that of the prices.
- `computeCost` takes a negative cached-token count as 0 and the worker's columns take it as it
  is; the cost can be recomputed from the columns at all prices exactly when no negative count
  below the prompt tokens is reported (`CostFromColumns`).
- Keys are disabled after any failed debit, also one that lost a version race with enough
  balance (`CoveredDebitDisables`). A debit on an account that is left to it fails exactly when
  the balance does not cover it (`DebitConsumer`).
- Since failed debits take nothing, a recharge of any size enables the keys again. It always
  does so exactly when no posting that can be made takes anything out of the account, or the
  user is never recharged (`EndsOverdraftIffSpared`).
- A recharge from elsewhere may name the reference of an order. If it comes first, the
  confirmation finds it and marks the order credited; a credited order is posted for its own
  user and amount exactly when no such recharge can be made (`TrueToOrderIffReserved`).
- A share above 10000 basis points gives the provider more than the cost
  (`RevenueWithinCostIff`).

## Model

| member | source | states |
|---|---|---|
| LedgerTheorems.NoLostUpdate | server/internal/logic/settlement/ledger.go:75-144 | In every interleaving of postings, credits and debits an account's balance is the sum and its version the number of its committed entries, and every balance_after is the running sum: no update is lost |
| LedgerTheorems.LastEntryIsBalance | server/internal/logic/settlement/ledger.go:126-136 | The newest committed entry of an account carries its current balance |
| LedgerTheorems.LogIsPostings | server/internal/logic/settlement/ledger.go:44-147 | The entry log is exactly the requested sides of the committed postings, once each, in commit order and with the requested amounts; rollbacks leave nothing; all committed postings passed the checks |
| LedgerTheorems.CommittedDebitWasCovered | server/internal/logic/billing/billing.go:335-373 | A debit about to commit finds at least its amount in the committed account, whatever ran between its read and its commit, and takes exactly its amount |
| LedgerTheorems.NeverNegative | server/internal/logic/billing/billing.go:306-402 | An account is not overdrawn in any reachable state if every committed posting was a debit or took nothing out of it, all its sides together |
| LedgerTheorems.NeverNegativeIffSpared | server/internal/logic/settlement/ledger.go:108-124 | For any set of postings that may be made: no run that commits only these overdraws the account, iff each that passes the checks is a debit or takes nothing out of it |
| LedgerTheorems.SettleCanOverdraw | server/internal/logic/settlement/ledger.go:108-124 | Every other posting that passes the checks overdraws the account in the run that makes it first |
| LedgerTheorems.CommitMoves | server/internal/logic/settlement/ledger.go:75-144 | A commit in any reachable interleaving moves every account by the sum of the posting's sides for it, also when one account appears twice |
| LedgerTheorems.PostingAlone | server/internal/logic/settlement/ledger.go:44-147 | A posting that passes the checks and meets no other can always commit, creating accounts as needed, and moves each account by its sides |
| LedgerTheorems.CreditsConserved | server/internal/logic/settlement/ledger.go:49-60 | Over every run all credits balances together equal recharges plus credits minus debits; settle postings add and remove nothing |
| Ledger.NextKeepsInv | server/internal/logic/settlement/ledger.go:75-144 | Every statement of every transaction keeps the tables a summary of the log, every overlay a continuation of it, and the written rows of live transactions disjoint |
| LedgerSessions.PostEntry | server/internal/logic/settlement/ledger.go:75-144 | One round of the posting loop, amid any steps of others, either posts its entry and leaves the transaction ready for the next or rolls the transaction back; if the account was free at its statements, only a debit that the balance does not cover is rolled back |
| LedgerSessions.PostLedger | server/internal/logic/settlement/ledger.go:44-147 | No entries, or a settle posting whose credits do not sum to zero, change nothing; otherwise the transaction ends holding all its entries, ready to commit, or is gone; it never commits by itself; if its accounts were free at its statements it succeeds iff the checks pass |
| LedgerSessions.CalmStatement | server/internal/logic/settlement/ledger.go:83-124 | A statement on a free account goes through, unless it is the update of a debit that the balance does not cover |
| LedgerSessions.RolledBackIff | server/internal/logic/settlement/ledger.go:93-124 | Exactly which statements end their transaction: an insert that came too late, an update whose row is not the one read, a debit that what was read does not cover; only a row another transaction holds makes one wait |
| LedgerSessions.AwayIsCalm | server/internal/logic/settlement/ledger.go:108-124 | An account is free at every statement of a transaction if no other live transaction names it and none that others begin does |
| LedgerSessions.ChangeAccount | server/internal/logic/billing/billing.go:206-408 | On success the last step is the commit of this call's posting, its only commit, and moves exactly its account by exactly its amount relative to the state it commits on, where a debit was covered; a failed call never commits; if the account was free at its statements, only a debit that the balance does not cover fails |
| LedgerSessions.CommitOne | server/internal/logic/billing/billing.go:359-402 | Committing a one-entry transaction in any reachable state moves that account only, and a debit leaves it non-negative |
| Recharge.AtMostOncePerRef | server/internal/logic/settlement/settlement.go:283-364 | Whatever interleaves and fails, two recharge postings for one (ref_type, ref_id) are the same posting, of a positive amount |
| Recharge.CreditedIsPostedOnce | server/internal/logic/payment/payment.go:471-483 | A credited order has, on some channel, exactly one recharge posting, for its user and amount if no recharge from elsewhere used the order's references |
| Recharge.TrueToOrderIffReserved | server/internal/logic/payment/payment.go:471-483 | For any set of recharges from elsewhere that may be made: a credited order is posted for its own user and amount in every run, iff none of them with a positive amount names one of its references |
| Recharge.OneChannelPaysOnce | server/internal/logic/payment/payment.go:448-486 | An order whose references are used through one channel, by any number of concurrent calls, is recharged at most once, and exactly once when credited |
| Recharge.PaysOnceIffOneChannel | server/internal/logic/payment/payment.go:457-475 | Calls on the order's references through a set of channels recharge it at most once in every run exactly when the set has at most one channel |
| Recharge.TwoChannelsPayTwice | server/internal/logic/payment/payment.go:471-472 | A run in which two channels confirm one order and both recharges are posted |
| Recharge.CreditedStaysIff | server/internal/logic/payment/payment.go:457-469 | A credited order stays credited in every continuation, whatever notifications follow, iff no confirmation of it is about to mark it paid |
| Recharge.NotPendingIsDone | server/internal/logic/payment/payment.go:457-459 | A confirmation that loads an order which is not pending ends with success and changes no table |
| Recharge.PostedIsFound | server/internal/logic/settlement/settlement.go:285-330 | A call that finds its reference posted, by its lookup or at its insert, goes on as if it had posted it, and changes no table |
| Recharge.SuccessIsGrounded | server/internal/logic/payment/payment.go:461-485 | A recharge that ended with success is posted on its reference, and the order of a confirmation that did, or that has begun to recharge, is past pending |
| Recharge.ConfirmAlone | server/internal/logic/payment/payment.go:448-486 | An undisturbed confirmation of a pending order on an unused reference posts its amount to its user and leaves it credited |
| Recharge.PostingIsFinal | server/internal/logic/settlement/settlement.go:302-358 | A committed recharge posting and its record never change afterwards |
| Recharge.NextKeepsInv | server/internal/logic/settlement/settlement.go:302-358 | Every statement of every call keeps references unique, records and postings linked one to one, and orders, records and calls in agreement |
| Settlements.EntriesBalance | server/internal/logic/settlement/settlement.go:209-222 | The entries of a record pass the zero-sum check iff cost is revenue plus commission; of credits they move cost, revenue and commission between the three accounts, also when consumer and provider are one, and of points they issue to each exactly its award |
| Settlements.SettledIffOneTransaction | server/internal/logic/settlement/settlement.go:226-253 | A record is settled iff exactly one ledger transaction refers to it, and otherwise none does |
| Settlements.Store.Submit | server/internal/logic/settlement/settlement.go:156-188 | A new pending record, or the existing one with the same reference and no change; a failed insert changes nothing |
| Settlements.Store.Settle | server/internal/logic/settlement/settlement.go:191-270 | A settled record returns its transaction and moves nothing; another is posted and marked together iff its amounts balance and nothing fails; a failure leaves the ledger alone and the record open |
| Settlements.Store.BuildEntries | server/internal/logic/settlement/settlement.go:209-222 | The three credit sides, and a points side for each non-zero award |
| Settlements.Store.SubmitAndSettle | server/internal/logic/settlement/settlement.go:273-279 | Succeeds iff the record was settled, or is found or inserted and its posting balances and goes through, and then one new transaction posts it; an error leaves the ledger alone; a repeat returns the stored transaction and changes nothing |
| Settlements.Store.CreateRecharge | server/internal/logic/settlement/settlement.go:283-364 | One settled record and one posting for a new reference; for a known one its transaction, or an error if it has none, and no change |
| SettleSessions.PostAndLink | server/internal/logic/settlement/settlement.go:226-253 | The settle transaction amid any steps of other sessions: its last step is the commit of this posting, which moves every account by it relative to the state it commits on, or it never commits; if its accounts were free it commits iff the checks and the record's update pass |
| SettleSessions.SettleInSession | server/internal/logic/settlement/settlement.go:191-270 | A successful settle commits the record's posting, as its last step, together with the mark, and moves consumer, provider and platform by cost, revenue and commission relative to the state it commits on; a failure commits nothing and leaves the record open; if its accounts were free it succeeds iff the amounts balance and the update passes |
| SettleSessions.ConsumerSparedIff | server/internal/logic/settlement/settlement.go:212-216 | Settling a record cannot overdraw its consumer iff the cost is at most what the consumer gets back as provider |
| Payout.Settlements.PayRow | server/internal/relay/handler/queue.go:190-219 | One row of a scan: credited if it has revenue, settled only if also marked, and with a failed mark counted as one more payment owed to the record |
| Payout.Settlements.ProcessSettlements | server/internal/relay/handler/queue.go:173-225 | A scan touches exactly the pending records whose day has come, once each, and returns how many it settled; after every sequence of scans each record was paid once for being settled and once per failed mark, and each provider the sum |
| Payout.Settlements.Insert | server/internal/relay/handler/queue.go:321-369 | A record's day comes seven days after it was made |
| Payout.OneMorePayment | server/internal/logic/billing/billing.go:205-303 | A credit for a record keeps per-record and per-provider totals equal to revenue times payments |
| Payout.PaidExactlyWhenMarksSucceed | server/internal/relay/handler/queue.go:207-218 | A provider's credits are at least the revenue of its settled records, and equal to it iff no mark ever failed on a record it has revenue from |
| Payout.RescanRow | server/internal/relay/handler/queue.go:190-219 | A record whose mark fails n times before it succeeds is credited n + 1 times |
| Payout.OutcomeSettlesIff | server/internal/relay/handler/queue.go:190-218 | A row is settled iff its mark succeeds after its credit, if it has revenue, did; nothing else of it changes |
| Pipeline.EachTaskInOnePlace | server/internal/relay/handler/queue.go:240-261 | In every run with any failures each request that became a task is in exactly one of queued, in hand, recorded, dropped |
| Pipeline.RecordedOnce | server/internal/relay/handler/queue.go:319-389 | A request is recorded at most once and attempted at most maxSettlementRetries + 1 times |
| Pipeline.DroppedIffSpent | server/internal/relay/handler/queue.go:375-389 | If every push of a task succeeds, its request is dropped iff it was attempted four times and is not recorded |
| Pipeline.PositiveCostIsFixed | server/internal/relay/handler/queue.go:375-389 | Once positive, a cost is the same in the retried task and in the record |
| Pipeline.RecordsAddUp | server/internal/relay/handler/queue.go:298-366 | A record's cost can be recomputed from its token columns and the request's prices on both paths, and revenue and commission split it without rest |
| Pipeline.ChargedExactlyOnce | server/internal/relay/handler/queue.go:391-413 | For a recorded request of positive cost exactly one debit and one quota update are owed or submitted, and submitted once nothing is owed, both of that cost, the update by the request path iff upstream reported usage |
| Pipeline.ProcessSpendsBudget | server/internal/relay/handler/queue.go:375-389 | The sum of (4 - retries) over live tasks is never negative and drops with every attempt |
| Pipeline.AttemptKeeps | server/internal/relay/handler/queue.go:267-316 | An attempt keeps the task true to its request and never changes a positive cost; what it records follows from the request |
| Pipeline.OnlyUncountedAreCounted | server/internal/relay/handler/queue.go:271-296 | A task is recorded or retried as it is, unless it has text and upstream reported no tokens; then it is recorded iff its tokens could be counted and the transaction commits |
| PipelineService.Service.Relay | server/internal/relay/handler/handler.go:682-725 | Enqueueing puts the request's task last in the queue if the push succeeds, returns the cost of a reported usage and 0 otherwise, and submits the request path's quota update iff that cost is positive: exactly the protocol's steps |
| PipelineService.Service.BuildTask | server/internal/relay/handler/handler.go:689-721 | A usage-bearing task carries its cost and no text, another the text and the output price |
| PipelineService.Service.ProcessSettlement | server/internal/relay/handler/queue.go:267-434 | What one attempt requeues, records and charges, for every outcome of tokenizer, transaction and enqueue |
| PipelineService.Service.Work | server/internal/relay/handler/queue.go:237-263 | A worker round does exactly one take, attempt and submit of the protocol, so the theorems hold of it |
| PipelineService.Service.EnqueueSettlement | server/internal/relay/handler/queue_redis.go:38-45 | A successful push puts the task last in the queue; a failed one changes nothing |
| PipelineService.Service.Dequeue | server/internal/relay/handler/queue_redis.go:47-71 | A pop takes the oldest task, so the list is first in, first out |
| PipelineService.ReversedInit | server/internal/relay/handler/queue_redis.go:38-71 | Popping the right end of a list pushed on the left takes the oldest element |
| PipelineService.WorkedIsIdle | server/internal/relay/handler/queue.go:237-263 | Protocol steps of one undisturbed round give the queue, records and charges the worker leaves |
| Overdraft.RestoreAfterRecharge | server/internal/logic/settlement/settlement.go:366-404 | After the restore that follows a committed recharge, which always finds the account, an undeleted key of the user is inactive iff it was before and the balance is negative; it keeps its owner and is not deleted, and other keys stay as they are |
| Overdraft.RechargeEndsOverdraft | server/internal/logic/billing/billing.go:412-430 | A recharge of any amount reactivates every undeleted key of the user when every committed posting spared the account |
| Overdraft.EndsOverdraftIffSpared | server/internal/logic/settlement/settlement.go:382-398 | For any set of postings that may be made: in every joint run of ledger and keys a recharge ends the overdraft, iff all that pass the checks spare the account or none recharges the user |
| Overdraft.RechargeFindsAccount | server/internal/logic/settlement/settlement.go:374-381 | A user with a committed recharge has an account row, so the restore does not end in its query error |
| Overdraft.InactiveOnlyAfterRefusal | server/internal/relay/handler/queue.go:394-407 | A key is inactive only if some debit of its user's credits ended without committing |
| Overdraft.KeyTable.DisableOverdraftKeys | server/internal/relay/handler/queue.go:434-451 | Unless the update fails no key of the user is active afterwards; keys of others and inactive ones are as before |
| Overdraft.KeyTable.RestoreOverdraftKeys | server/internal/logic/settlement/settlement.go:368-404 | Succeeds iff the account exists and either is overdrawn, with no change, or the update goes through |
| Overdraft.DebitConsumer | server/internal/relay/handler/queue.go:391-407 | Amid any steps of other sessions this call commits the debit, covered and of exactly the cost, and no key changes, or it never commits, for whatever reason, and the user's keys are disabled; left undisturbed on the account it commits iff the balance covers the cost |
| Overdraft.CoveredDebitDisables | server/internal/relay/handler/queue.go:395-407 | A run in which a debit covered all along fails its version check, and the user's key is disabled with a positive balance |
| Overdraft.RechargeCredits | server/internal/logic/billing/billing.go:412-430 | Amid any steps of other sessions this call commits a positive amount to the user, or it commits nothing and changes no key; after a commit the user's undeleted keys are active, all else the same, unless the balance read by then is negative, and then nothing changed; left undisturbed it commits iff the amount is positive |
| Cost.ComputeCost | server/internal/relay/handler/handler.go:730-768 | The accumulated cost is the sum of the three floored parts on the hit/miss split |
| Cost.UsageColumns | server/internal/relay/handler/queue.go:298-316 | The hit column is the cached count whenever that is at most the prompt count, and 0 when it is more; hit and miss sum to the prompt tokens, and the other columns are the usage's own counts |
| Cost.CostFromColumns | server/internal/relay/handler/queue.go:304-316 | The cost computed on the request path is the cost of the recorded columns, at all prices, iff the usage claims no negative cached count below its prompt count |
| Cost.CountedCost | server/internal/relay/handler/queue.go:290-294 | The worker's own formula for counted tokens agrees with computeCost on the usage it makes up |
| Cost.CostRounds | server/internal/relay/handler/handler.go:744-767 | 1000 times the cost is at most the exact price sum, cached tokens at their price if they are at most the prompt's, and short of it by at most 2997 |
| Cost.CachingNeverRaisesCost | server/internal/relay/handler/handler.go:744-767 | Caching never raises a cost iff the cached price is at most the other |
| Cost.CalcRevenue | server/internal/relay/handler/queue.go:229-234 | Revenue is the share rounded down, and lies between 0 and the cost for shares up to 10000 |
| Cost.RevenueWithinCostIff | server/internal/relay/handler/queue.go:229-234 | Revenue lies between 0 and the cost for every cost iff the share is at most 10000 basis points |
| Cost.RoundingFavoursPlatform | server/internal/relay/handler/queue.go:229-234 | Over n costs the individually floored revenues fall short of the share of the total by 0 to n - 1 |
| Quota.LimitsHold | server/internal/relay/handler/handler.go:778-796 | No interleaving of conditional updates takes a limited counter past its limit, at either level |
| Quota.KeyIsSumOfBindings | server/internal/relay/handler/handler.go:773-797 | A key's counter and the sum of its bindings differ by exactly the half-done charges and what only one level refused; with no refusal and nothing half done they are equal |
| Quota.UndisturbedCharge | server/internal/relay/handler/handler.go:773-797 | The two steps of an undisturbed charge update both counters, each on its own condition |
| Quota.Tables.UpdateQuotaSync | server/internal/relay/handler/handler.go:773-797 | A positive cost is added to each of the two counters iff its own update does not fail and the cost fits it, the second whatever became of the first; other costs and missing rows change nothing |
| Quota.Charged | server/internal/relay/handler/handler.go:779-781 | A conditional update keeps a counter within its limit, and adds the cost or nothing |
| Quota.AppliedIffFits | server/internal/relay/handler/handler.go:779-791 | A charge is applied iff its update does not fail and the counter has no limit or stays within it |
| StreamScanner.DeliveredInOrder | server/internal/relay/helper/stream_scanner.go:88-174 | In every interleaving, payloads handled, in the channel and in the scanner's hand are in order exactly those of the lines parsed; the handler sees a prefix of the stream's payloads, none an end mark |
| StreamScanner.CleanExitIsComplete | server/internal/relay/helper/stream_scanner.go:232-246 | When main leaves after all goroutines ended and the handler neither stopped nor panicked, every payload sent was handled, and all of the stream if the scanner reached its end |
| StreamScanner.ReasonTellsComplete | server/internal/relay/helper/stream_scanner.go:147-151 | After a drained channel, done means that the whole stream was handled, and so does eof when the client is not gone |
| StreamScanner.EofTellsCompleteIff | server/internal/relay/helper/stream_scanner.go:147-151 | For every body: eof means in every run that the whole stream was handled, iff the client cannot cancel or the body carries nothing |
| StreamScanner.ReasonIsFinal | server/internal/relay/common/stream_status.go:40-47 | From any state the end reason, once set, never changes |
| StreamScanner.ReasonIsTrue | server/internal/relay/helper/stream_scanner.go:75-218 | In every run the end reason names what did happen: a timeout of main, a client gone, a failed read, ping or callback, a stop, an end |
| StreamScanner.ReasonBeforeSignal | server/internal/relay/helper/stream_scanner.go:75-215 | Whoever ends the stream sets its reason before it signals: a signal, a returned goroutine or a main loop that was left comes with a reason, unless the scanner is panicking |
| StreamScanner.SignalsAreSent | server/internal/relay/helper/stream_scanner.go:91-94 | Signals that wait or stopped the scanner are at most those that were sent |
| StreamScanner.EndsWithSignal | server/internal/relay/helper/stream_scanner.go:260-267 | A goroutine that ends the stream leaves a signal behind, also when the channel is full |
| StreamScanner.NothingAfterStop | server/internal/relay/helper/stream_scanner.go:165-173 | Nothing is delivered after a callback has stopped the stream |
| StreamScanner.NothingReadOnceGone | server/internal/relay/helper/stream_scanner.go:90-97 | Once the client is gone the scanner parses at most the line it was about to parse |
| StreamScanner.NothingReadInShutdown | server/internal/relay/helper/stream_scanner.go:90-97 | So it does in the shutdown, once the signal left is one that only the scanner can take |
| StreamScanner.NoBlameOnceGone | server/internal/relay/helper/stream_scanner.go:147-195 | Once the client is gone, failing reads and pings do not become the end reason |
| StreamScanner.WritesExclude | server/internal/relay/helper/stream_scanner.go:165-191 | The callback and a ping never write at the same time, and no ping is written after a panicking callback |
| StreamScanner.NextKeepsInv | server/internal/relay/helper/stream_scanner.go:74-230 | Every step of every goroutine keeps payloads conserved, channels bounded, the mutex exclusive and the end reason true |
| StreamLines.FramesRoundTrip | server/internal/relay/helper/stream.go:68-81 | Payloads framed as data lines and closed with the end mark are what the scanner extracts, and nothing after the mark is |
| StreamLines.ClassifyIff | server/internal/relay/helper/stream_scanner.go:105-131 | A line carries a payload iff it is a data field of it, spaces around it aside, and the payload is neither empty nor the end mark; it is an end mark iff it is the bare mark or a data field of it |
| StreamLines.PayloadsAreProper | server/internal/relay/helper/stream_scanner.go:106-131 | No extracted payload is empty or the end mark |
| StreamLines.CarriedConcat | server/internal/relay/helper/stream_scanner.go:114-131 | More lines only extend what was carried, by what they carry, and by nothing after an end mark |
| StreamStatus.Status.SetEndReason | server/internal/relay/common/stream_status.go:40-47 | Of all attempts to set the end reason the first one and its error win |
| StreamStatus.Status.RecordError | server/internal/relay/common/stream_status.go:56-64 | All messages are counted and the first 20 kept, in order |
| StreamStatus.Result.Stop | server/internal/relay/helper/stream_result.go:27-33 | Stops the callback loop and attempts handler_stop |
| StreamStatus.Result.Finish | server/internal/relay/helper/stream_result.go:35-41 | Stops the callback loop and attempts done |
| StreamStatus.Result.Fail | server/internal/relay/helper/stream_result.go:20-25 | Reports one message and stops nothing |
| StreamStatus.HandleData | server/internal/relay/helper/stream_scanner.go:165-173 | The loop handles the payloads up to and including the first whose callback stops, however the control object was left before; only that callback attempts to end the stream, and its first reason wins |
| Scheduler.WeightedRandomSelect | server/internal/relay/scheduler/scheduler.go:70-102 | The loop returns the index on whose weight interval the draw lands, and never reaches its fallback; the first index when all weights are 0 |
| Scheduler.DrawsMatchWeight | server/internal/relay/scheduler/scheduler.go:92-100 | As many of the possible draws select a candidate as its degraded weight says |
| Scheduler.EveryDrawLands | server/internal/relay/scheduler/scheduler.go:92-101 | Every draw selects exactly one candidate |
| Scheduler.GroupByPriority | server/internal/relay/scheduler/scheduler.go:42-68 | A partition of the candidates into non-empty layers of one priority each, strictly increasing |
| Scheduler.LayersIncrease | server/internal/relay/scheduler/scheduler.go:58-66 | Any two layers are uniform and ordered by priority |
| Scheduler.LastLayerIsHighest | server/internal/relay/scheduler/scheduler.go:34-35 | The last layer holds exactly the candidates of the highest priority |
| Scheduler.Select | server/internal/relay/scheduler/scheduler.go:17-40 | For every non-empty input the candidate of the top layer on which the draw lands: of maximal priority among those with health at least 20, or among all when there is none; of weight 0 only if all its rivals are |
| Scheduler.SelectMatchesWeight | server/internal/relay/scheduler/scheduler.go:17-40 | With the sort order given, as many draws make Select return the top-layer candidate at an index as its weight, half of it or a quarter, by its health |
| Scheduler.DrawnIsBest | server/internal/relay/scheduler/scheduler.go:34-39 | Whatever the draw, the candidate it lands on is in play and of maximal priority, and has weight 0 only if all its rivals have |
| Scheduler.HealthKeepsWeight | server/internal/relay/scheduler/scheduler.go:74-85 | Of equal weights the healthier candidate is never drawn less often: from health 80 by its weight, from 50 by half, less by a quarter, no weight counting as 1 |
| Candidates.LoadActiveCandidates | server/internal/relay/handler/handler.go:597-611 | Exactly the rows with quota left at both levels and a protocol, in order |
| Candidates.KeptConcat | server/internal/relay/handler/handler.go:597-611 | Available rows are kept in order, each as often as it is there |
| Candidates.BuildChannelCandidates | server/internal/relay/handler/handler.go:614-651 | One candidate for each row with a matching protocol, with its health score |
| Candidates.HealthScore | server/internal/relay/handler/handler.go:653-668 | 100 less 20 for each of up to four consecutive failures, 10 from the fifth; which numbers of failures meet the scheduler's thresholds of 20, 50 and 80 |
| Candidates.AvailableIffCharges | server/internal/relay/handler/handler.go:597-608 | With limits that are not negative a row is available iff it declares protocols and the smallest charge would still be admitted at both levels |
| Candidates.Preferred | server/internal/relay/handler/handler.go:143-155 | The candidates of the affinity channel if it has any, all otherwise; never none of some |
| Candidates.PickChannel | server/internal/relay/handler/handler.go:141-158 | A channel is picked iff some row can serve; it has quota left, is the affinity channel's if that can serve, and is outranked only by rows with five or more failures |
| TextReplace.IndexOfStr | server/internal/relay/override/override.go:492-499 | The first occurrence, or -1 iff there is none |
| TextReplace.ContainsStr | server/internal/relay/override/override.go:464-475 | True iff the substring occurs |
| TextReplace.ReplaceAllStr | server/internal/relay/override/override.go:477-490 | Terminates with the leftmost non-overlapping cut of s around old, joined with new |
| TextReplace.CutIsUnique | server/internal/relay/override/override.go:477-490 | There is one such cut, and joining it with old gives s back |
| TextReplace.ReplaceEffects | server/internal/relay/override/override.go:477-490 | Identity when old does not occur or equals new; otherwise the length changes by the number of replacements times the difference |
| TextReplace.ForeignByteRoundTrip | server/internal/relay/override/override.go:477-490 | Replacing old by a byte foreign to s is undone by replacing back |
| Router.Pool.Register | server/cmd/node/internal/router/router.go:21-25 | Adds one key at the end of the model's list, and touches no other list |
| Router.Pool.Unregister | server/cmd/node/internal/router/router.go:28-38 | Removes the first occurrence, one key of the multiset, and keeps the order of the rest; no change without one |
| Router.Pool.Pick | server/cmd/node/internal/router/router.go:41-56 | Serves the first key and moves it to the end; an error and no change on an empty list |
| Router.ServedAt | server/cmd/node/internal/router/router.go:41-56 | Since the list last changed, the k-th pick serves element k mod n |
| Router.PickInTurn | server/cmd/node/internal/router/router.go:41-56 | n picks for a model, with any calls for other models between them, serve what ServedAt and WindowServesAll describe and leave the list rotated n times |
| Router.WindowServesAll | server/cmd/node/internal/router/router.go:48-52 | Any n consecutive picks serve each key exactly as often as it is registered |

## Left out

- Integer width: amounts, versions and counters are unbounded; int64 overflow is not modelled.
- Row of `transactions` and the entry insert: each is merged with the account update beside it, and a failure between them is the abort that may follow any step.
- PostLedger: the outcome of a statement that would wait for a row lock is a failure of the call, which is one of the outcomes the database can produce.
- ChangeAccount: negative amounts are accepted, as `CreditAccount` accepts them; NeverNegativeIffSpared counts them among the postings that do not spare an account.
- CalcRevenue: the service that sets shares does not enforce the bound of 10000 basis points.
- ReplaceAllStr: an empty `old` is excluded, because the loop does not end on it; the engine's callers skip empty patterns.
- Settle: concurrent calls for one record are not modelled, because the status is not read again inside the transaction; `SettleInSession` lets other sessions run any ledger steps meanwhile.
- RechargeCredits: for a new reference; what a repeated reference returns is in `Settlements` and `Recharge`.
- Select: the draw is a function of the total, so that its distribution is a count of draws, not a probability.
- ProcessSettlements: scans do not overlap, because a scan credits and marks separately.
- Pick: calls are taken one at a time; the original releases its lock between reading and writing.
- Records marked settled by a payout have no ledger transaction; `Settlements` and `Payout` model separate sets of records.
- StreamScanner: goroutines are modelled as steps of a state machine, not as procedures; a line is represented by what it carries, and `StreamLines` relates lines to that. Lines are sequences of characters, not bytes.
- Expired or deleted orders, refunds and the creation of payment requests.
- Order of equal priorities: `sort.Slice` is any function that returns a sorted permutation, and `rand.IntN` any function with results in range.
- BuildChannelCandidates: protocol matching is a column of the row, and candidate fields that selection does not use are dropped.
- ProcessSettlement: chat logs and logging.
- Quota limits changed by an administrator while charges run, and the unconditional increments of the proxy path that is not routed.
- Liveness: an order can stay paid and a goroutine can outlive the shutdown wait; only safety is stated.
- The cache hash and the numeric comparison of the override engine, whose code differs from its comments.
- JSON, Redis transport, SQL, HTTP, WebSocket, cryptography, provider adaptors, tokenizers (any non-negative count, or failure), configuration and user interfaces.
