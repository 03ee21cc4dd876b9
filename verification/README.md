# PayFlow money core and webhook delivery

A Dafny model of the part of `payflow-app` that moves money and tells merchants about it: payment
and refund creation with idempotency keys, mock settlement, the ledger, the transactional outbox,
the worker loop and webhook delivery.

## What is modelled, and how

* **Tables.** `Tables` holds payments, refunds, ledger and outbox with their unique indexes, and one
  function per SQL statement. `Operations` composes them into the service calls and worker
  transactions, each one atomic function from tables and call to tables and response, with every
  error branch. Generated ids, sequence values and the row a claim returns are inputs, required to
  be new only when the call uses them.
* **Rules.** `Rules` says again what each call does, as a rule over rows and characters that uses none
  of the operations and their helpers, and proves that every call of every run follows it. `Wording`
  does the same for trimming, capitals and the checks on request texts.
* **History.** `History` is an independent definition of what a ledger may say: a replay that accepts
  only legal orders of events. `Invariant` ties the tables to it.
* **Statements.** `Statements` runs the same calls one SQL statement at a time, any number of
  transactions at once, under READ COMMITTED with row locks, waits on uncommitted unique keys, and an
  abort (or a crash) possible between any two statements. `Isolation`, `Serializability` and
  `Interleaving` prove that this system does only what the atomic calls do in some serial order:
  writers at their commit, replays and refusals at the read that decides them (`RealTimeOrder`).
  `ConcurrentKeys` says what callers racing on one key are told, `Progress` proves that it never
  deadlocks, and `Realisation` that every serial run is one of its interleavings.
* **Tenants.** `Tenancy` compares two states call by call, and `Separation` a shared run with the run
  of one tenant alone.
* **Code.** `Database` is the same code written as methods over mutable tables, and `Worker` the
  dispatch loop over that database and three FIFO job lists. Each service method of
  `Database` is proved equal to its atomic function; the loop's methods are proved against `Drain`.
* **Webhooks.** `Webhooks` and `Notifications` cover the delivery table over every interleaving of
  enqueue reads, enqueue inserts, publications, write-backs and retries, and `Publication` says which
  deliveries can still be made; `DeliveryLoop` races any number of workers on one delivery, including
  lost updates of the attempt counter; `Attempts` and `Backoff` give the exact outcome of an
  undisturbed delivery, which `LoneWorker` shows to be the race of one worker.

Amounts are int64 with wrap-around where the code adds them. SHA-256 fingerprints are represented by
the request bodies they digest, so two fingerprints are equal exactly when the bodies are. Characters
are ASCII.

## Where the code and its documentation differ

* `docs/contracts/idempotency.md` promises a retried refund the outcome of the first. The code tests
  the headroom before it looks for the key, so a retry is answered "exceeded" once the amount no longer
  fits a second time (`FullRefundRetryRefused`; the exact condition is `RefundReplaySafe`).
* The headroom test adds in int64 and payment amounts have no upper bound, so payments of 2^62 cents
  or more can be refunded twice (`OverRefundRun`; the exact condition is `ConservedIffSafe`, and for
  interleavings `InterleavingsConserveIffSafe`).
* A delivery is enqueued after the settlement has committed, so a crash in between loses it
  (`CrashesLoseDeliveries`, `SettledWithoutDelivery`; the exact condition is
  `DeliveredIffWorkerSurvived`).
* The same contract promises a conflict when a key is reused with another body. For refunds the earlier
  checks come first, so the caller may be told "exceeded" instead (`UsedKeyToldExceeded`; the
  exact condition is `MismatchIffChecksPass`).
* A delivery is published after its row has committed, so a crash in between leaves a pending row that
  is never posted, that enqueueing again does not publish and that a retry refuses
  (`SettledButForgotten`, `ForgottenForEver`; the exact condition is `DeliverableIffNotForgotten`).
* `payflow-app/README.md` and `docs/runbooks/webhook-target-unavailable.md` offer WEBHOOK_MAX_ATTEMPTS
  for tuning. `max_attempts` is 5 in every row there can be, so the configured value never applies
  (`DefaultNeverApplies`).

## Model

| member | source | states |
|---|---|---|
| Interleaving.SerialEquivalence | payflow-app/internal/refund/refund.go:77-176 | For every interleaving of the single statements of any number of payment creates, refund creates, settlements and outbox claims, with row locks, waits on uncommitted unique keys and aborts anywhere: the committed tables are those of a serial run of the recorded calls, each answered transaction appears in that run exactly once, and its answer is the one it gets there. |
| Interleaving.ReservedHeldUntilCommit | payflow-app/internal/refund/refund.go:87-135 | From the SUM until the commit, in every interleaving, the reserved total a refund create has read equals the committed total and the headroom test still passes on it. |
| Interleaving.EveryInterleavingSafe | payflow-app/internal/refund/refund.go:87-176 | In every reachable state of every interleaving the full table invariant holds, refunds of each payment are bounded, and no transaction was answered with a poison-row error. |
| Interleaving.ExecuteOk | payflow-app/internal/payment/payment.go:78-138 | The lock and buffer invariant of the statement-level system survives every action, aborts included. |
| Interleaving.RealTimeOrder | payflow-app/internal/refund/refund.go:137-176 | That order respects real time: a call keeps the place it gets at its commit, or at the read that answers it, and comes before every call not yet decided then. |
| Progress.NoDeadlock | payflow-app/internal/refund/refund.go:87-135 | From every good state with a transaction in flight, some transaction can execute a statement: no transactions ever wait for each other in a circle. |
| Progress.EveryoneCanFinish | payflow-app/internal/refund/refund.go:77-176 | After any interleaving, all transactions in flight can be brought to their end by executing their statements, without aborting one. |
| Progress.ExecuteHolders | payflow-app/internal/payment/payment.go:78-138 | Every lock is always held by a transaction on its way to release it, of a kind its statement can hold. |
| Realisation.EverySerialRunHappens | payflow-app/internal/refund/refund.go:77-176 | The converse of serial equivalence: every serial run of calls is some interleaving, with the same answers in the same order and the same tables up to ledger ids. |
| Sequence.ExecSame | payflow-app/internal/ledger/ledger.go:27-31 | The ids the sequence hands out influence no answer and no other table. |
| Realisation.InterleavingsConserveIffSafe | payflow-app/internal/refund/refund.go:103-135 | Over all interleavings, aborts included, a payment of a given amount is never over-refunded if and only if that amount is at most 2^62-1 cents. |
| Realisation.FullRefundRetryRefusedInterleaved | docs/contracts/idempotency.md:8-9 | An interleaving in which the retry of an accepted full refund is refused, for every safe amount. |
| Isolation.CommitRespectsLocks | payflow-app/internal/refund/refund.go:87-89 | The writes one transaction commits leave untouched everything that another transaction has locked and read. |
| Isolation.TxStable | payflow-app/internal/refund/refund.go:111-135 | What a transaction knows stays true while others commit, because of the locks it holds. |
| Headroom.ExactIffNoWrap | payflow-app/internal/refund/refund.go:119-121 | One call of the int64 test agrees with exact arithmetic if and only if the sum fits in int64. |
| Headroom.ExactIffSafeAmount | payflow-app/internal/refund/refund.go:103-121 | The test is exact for every reachable balance and amount if and only if the payment is at most 2^62-1 cents. |
| Headroom.AcceptedStaysBounded | payflow-app/internal/refund/refund.go:107-121 | Whatever the test accepts, for payments of any size, keeps the balance within the payment, or at most one wrap beyond it for payments of 2^62 cents or more. |
| Guarantees.ConservedIffSafe | payflow-app/internal/refund/refund.go:103-135 | No run at all can refund more than a payment of a given amount if and only if that amount is at most 2^62-1 cents. |
| Guarantees.OverRefundRun | payflow-app/internal/refund/refund.go:119-121 | For every larger amount, the run of calls that refunds the payment twice in full. |
| Invariant.RefundsBounded | payflow-app/internal/refund/refund.go:111-135 | Conservation read off the ledger: the replayed running total bounds the sum over the refunds table. |
| Guarantees.LedgerExplainsRun | payflow-app/internal/ledger/ledger.go:19-45 | After every run, replaying the ledger rows of a payment in order rebuilds its amount, currency, status and every refund, and every prefix of them is a legal history. |
| History.PrefixLegal | payflow-app/internal/ledger/ledger.go:38-45 | A history that replays without error is legal at every prefix. |
| History.HasKeyIffHappened | payflow-app/internal/migrate/sql/000002_payments_ledger.up.sql:29 | The dedupe index holds a key exactly when the replayed account says that event has happened. |
| Invariant.HasKeyFromTables | payflow-app/internal/ledger/ledger.go:27-35 | An append is a no-op exactly when the payment and refund tables already show the event. |
| Text.DedupeTextInjective | payflow-app/internal/refund/refund.go:161 | The dedupe strings of different logical events never collide, whatever the ids. |
| Tenancy.ListInIdOrder | payflow-app/internal/ledger/ledger.go:38-62 | The ledger listing holds exactly the rows of that tenant and payment, by strictly increasing id, although ids are drawn before commit. |
| Tenancy.ListRebuildsAccount | payflow-app/internal/ledger/ledger.go:38-62 | The listing the owner gets replays to exactly the account in the tables; any other tenant gets an empty one. |
| Runs.ExecInv | payflow-app/internal/refund/refund.go:77-176 | Every call keeps the whole invariant: unique indexes, refund against payment, ledger against tables, ids rising per payment, one outbox row per subject. |
| Runs.RunInv | payflow-app/internal/payment/payment.go:78-138 | Every serial run keeps it. |
| Growth.ExecGrows | payflow-app/internal/refund/refund.go:230-234 | No call deletes a row or changes anything but a status or a processed flag, and these only forward; the ledger is only appended to. |
| Growth.RunGrows | payflow-app/internal/payment/payment.go:188-192 | Every later state of a run extends every earlier one. |
| Growth.ReservedGrows | payflow-app/internal/refund/refund.go:111-115 | The reserved balance of a payment never goes down. |
| Tables.SumInsert | payflow-app/internal/refund/refund.go:111-115 | Adding a refund row adds its amount to the sum, in whatever order the sum visits the rows. |
| Rules.EveryCallFollows | payflow-app/internal/refund/refund.go:71-183 | Every call of every run does exactly what a rule over the rows it finds says: which requests are refused and with which error, and which rows with which contents the others write. The rule for a refund: 0 asks for the whole payment, any other amount for itself, one below 0 or above the payment is invalid. |
| Rules.EveryAnswerFollows | payflow-app/internal/refund/refund.go:71-183 | The same for every transaction answered in any interleaving. |
| Rules.RefundFollows | payflow-app/internal/refund/refund.go:73-182 | The rule for refund requests, on any state the invariant allows. |
| Rules.PaymentFollows | payflow-app/internal/payment/payment.go:71-146 | The rule for payment requests: refused for a blank or long key, an amount that is not positive or a currency that has not three characters; a used key replays for the same amount and currency up to case and outer white space; otherwise these rows are written, the job with the creation time of the call. |
| Rules.SettleFollows | payflow-app/internal/refund/refund.go:204-235 | A pending subject succeeds and one ledger row says so; anything else is left alone. |
| Rules.PassFollows | payflow-app/cmd/worker/main.go:58-99 | A pass settles the subject its row names, marks that row and reports the subject. |
| Guarantees.NoSettlementLost | payflow-app/internal/payment/payment.go:133-138 | After every run each payment and each refund has exactly one outbox row, and a processed row has a succeeded subject. |
| Guarantees.NoPoisonRows | payflow-app/cmd/worker/main.go:58-91 | In no run does a settlement or an outbox pass end in the decode, unknown-kind or payment-status error. |
| Runs.RowNotPoison | payflow-app/cmd/worker/main.go:58-91 | Every outbox row decodes to an existing subject whose settlement cannot fail. |
| Runs.ProcessOutboxInv | payflow-app/cmd/worker/main.go:32-99 | Claiming, settling and marking a row keeps the invariant and never fails. |
| Redelivery.RedeliveryConfluent | payflow-app/internal/payment/payment.go:167-206 | Two sequences of settlement jobs with the same set of ids, in any order and with any duplicates, end with equal tables and, per payment, equal multisets of ledger events. |
| Redelivery.SettleAllTables | payflow-app/internal/refund/refund.go:204-248 | The tables after any job sequence are those in which each named subject was settled once. |
| Redelivery.EventsDetermined | docs/contracts/async-plane.md:16 | A legal history holds each event once, and which events it holds is decided by the account alone. |
| Wording.NormalIdentifies | payflow-app/internal/payment/fingerprint.go:16-25 | Two currencies normalise to the same text if and only if, without the white space around them, they have equal length and agree position by position up to ASCII case. |
| Wording.NormalMeans | payflow-app/internal/payment/fingerprint.go:17 | The normalised currency is the trimmed one in capitals, with no lower-case letter and no white space around it. |
| Wording.KeyRefused | payflow-app/internal/payment/payment.go:57-59 | A key is refused if and only if it is blank or longer than 200 characters. |
| Wording.PaymentRefused | payflow-app/internal/payment/payment.go:56-68 | A payment request is refused if and only if its key is, its amount is not positive, or its currency has not three characters between its white space. |
| Headroom.AddIsModular | payflow-app/internal/refund/refund.go:119 | The sum the test compares is the one int64 that differs from the exact sum by a multiple of 2^64. |
| Idempotency.SameBodies | payflow-app/internal/payment/fingerprint.go:16-25 | Two requests have equal fingerprints if and only if they ask for the same amount in the same currency up to case and outer white space. |
| Text.NormalIdempotent | payflow-app/internal/payment/fingerprint.go:16-25 | Normalising a currency twice changes nothing, so the fingerprint of a normalised request is that of the request. |
| Idempotency.SubmissionRefines | payflow-app/internal/payment/payment.go:71-146 | A valid create does to the payments table, and answers, what a first-writer-wins map does; a replay or a mismatch changes nothing. |
| Idempotency.RunRefinesBook | payflow-app/internal/payment/payment.go:71-146 | Over every run, with refunds and settlements in between, the payments table equals that map fed with the submissions alone. |
| Idempotency.FirstWriterWins | payflow-app/internal/payment/payment.go:97-117 | Of two submissions under one tenant and key the later gets the same id, amount and currency if it asks for the same amount and the same currency up to case and outer white space, a mismatch if not, and never writes. |
| Idempotency.OnePaymentPerSlot | payflow-app/internal/migrate/sql/000002_payments_ledger.up.sql:14 | One tenant and key never hold two payments. |
| Idempotency.OtherCallsKeepBook | payflow-app/internal/payment/payment.go:56-74 | An invalid create and every other call leave the map alone. |
| Idempotency.RefundReplay | payflow-app/internal/refund/refund.go:103-156 | Re-issuing the intent of a stored refund never writes, and returns the original exactly while the headroom test passes for it once more. |
| Idempotency.RefundReplaySafe | payflow-app/internal/refund/refund.go:119-156 | For payments of at most 2^62-1 cents the replay succeeds if and only if reserved plus amount is within the payment, and otherwise is answered "exceeded". |
| Guarantees.FullRefundRetryRefused | docs/contracts/idempotency.md:8-9 | The documented promise of the same outcome fails: for every safe amount, the run in which the retry of an accepted full refund is refused. |
| Idempotency.RefundReplayInRun | payflow-app/internal/refund/refund.go:137-156 | The same, between any two points of any run: the later call changes nothing and its answer is fixed by the headroom at that point. |
| Idempotency.ExceededUntilWrap | payflow-app/internal/refund/refund.go:119-121 | An "exceeded" answer repeats later exactly while balance plus amount fits in int64. |
| Idempotency.ExceededForEver | payflow-app/internal/refund/refund.go:119-121 | For safe amounts "exceeded" is for ever. |
| Idempotency.UsedKeyCreatesNothing | payflow-app/internal/refund/refund.go:129-146 | A used key creates no second refund, whatever payment or amount comes with it, and is answered with a refund only for the same intent. |
| Idempotency.MismatchIffChecksPass | docs/contracts/idempotency.md:18-19 | A used key with another payment or amount writes nothing and is answered with a mismatch if and only if the payment and balance checks would have admitted the request. |
| Guarantees.UsedKeyToldExceeded | docs/contracts/idempotency.md:18-19 | For every safe amount above one cent, a run after which a used key with another amount is told "exceeded" and not "mismatch". |
| ConcurrentKeys.RacingSubmissions | docs/contracts/idempotency.md:18-19 | Two submissions under one tenant and key, in any interleaving: each gets a payment or a mismatch; when they ask for the same payment both get the same, and at most one is told it was created; otherwise at most one gets a payment. |
| ConcurrentKeys.RacingRefunds | docs/contracts/idempotency.md:18-19 | Two refund requests under one key, in any interleaving: those answered with a refund get the same one, and at most one created it. |
| ConcurrentKeys.OneRefundPerKey | payflow-app/internal/refund/refund.go:129-156 | The same for two points of a run: the later names the refund and payment of the earlier. |
| Tenancy.OwnCallsSeparated | payflow-app/internal/refund/refund.go:87-98 | Two states that agree on tenant A answer each of A's creates alike and still agree afterwards. |
| Tenancy.ReadsSeparated | payflow-app/internal/payment/payment.go:149-165 | They answer A's reads alike. |
| Tenancy.ForeignCallsInvisible | payflow-app/internal/payment/payment.go:71-146 | A call of another tenant changes nothing that A can see. |
| Tenancy.ForeignLooksMissing | payflow-app/internal/refund/refund.go:90-98 | Another tenant's payment is answered exactly like one that does not exist. |
| Tenancy.SettlementSeparated | payflow-app/internal/payment/payment.go:168-193 | A settlement keeps agreeing states in agreement. |
| Webhooks.RetrySeparated | payflow-app/internal/httpapi/refunds_webhooks.go:121-159 | A retry depends on and changes only the caller's own deliveries; a foreign delivery is answered as missing. |
| Separation.OwnRunSame | payflow-app/internal/refund/refund.go:87-98 | The calls of any run that concern one tenant, with the answers they got, are a run by themselves in a system where no other tenant ever called, and leave that tenant the same payments, refunds, keys and ledger. |
| Separation.NonInterference | payflow-app/internal/payment/payment.go:149-165 | Two runs that put the same requests of one tenant, with nothing assumed about the answers: it gets the same answers in both and ends with the same payments, refunds, keys and ledger, but for the ids the shared sequence gives its ledger rows. |
| Separation.ForeignInvisible | payflow-app/cmd/worker/main.go:32-99 | Every call that does not concern a tenant, outbox passes included, leaves its view as it was. |
| Text.MerchantTextInjective | payflow-app/internal/webhook/webhook.go:94 | The two families of merchant keys never meet, whatever the ids. |
| Webhooks.OneDeliveryPerSubject | payflow-app/internal/migrate/sql/000003_refunds_webhooks.up.sql:42 | Two deliveries have the same subject if and only if they are the same row. |
| Webhooks.InsertOk | payflow-app/internal/webhook/webhook.go:113-129 | Inserting an earlier read, however late, keeps every delivery in agreement with its succeeded source row and adds one exactly when the subject had none. |
| Webhooks.EnqueueOk | payflow-app/internal/webhook/webhook.go:73-130 | The read and the insert of one enqueue, with any growth of the tables in between. |
| Webhooks.WantedMeans | payflow-app/internal/webhook/webhook.go:78-92 | A delivery is wanted if and only if the subject has succeeded and its tenant has a URL and a secret, neither empty, and it is then addressed to that URL. |
| Webhooks.EnqueueFollows | payflow-app/internal/webhook/webhook.go:73-191 | Enqueueing as a rule over the hook and the rows: made and published exactly when wanted and the subject has no delivery yet, addressed to the URL, with the stored merchant key and no attempt spent. |
| Webhooks.RetryOk | payflow-app/internal/httpapi/refunds_webhooks.go:121-159 | A retry keeps the attempt bookkeeping of the table. |
| Webhooks.RacingRetries | payflow-app/internal/httpapi/refunds_webhooks.go:131-156 | Two retries that both read the dead letter both answer that they queued it; the second update resets the row again if and only if it finds a dead letter, changes no other row, and does nothing right after the first. |
| Notifications.DeliveriesAgree | payflow-app/internal/webhook/webhook.go:78-130 | Over every interleaving of calls, hook changes, enqueue reads, enqueue inserts, write-backs and retries: one delivery per subject, its source has succeeded, tenant, payment, amount and currency agree. |
| Notifications.DeliveredIffInserted | payflow-app/cmd/worker/main.go:177-192 | A subject has a delivery if and only if some enqueue got as far as its insert. |
| Notifications.DraftedIffRead | payflow-app/internal/webhook/webhook.go:78-95 | An insert can be pending if and only if somebody read the subject after it succeeded, while its tenant had a URL and a secret. |
| Notifications.DeliveredIffWorkerSurvived | payflow-app/cmd/worker/main.go:177-192 | A settled subject has a delivery if and only if some worker that read it, after it succeeded and while its tenant had a URL and a secret, survived to its own insert. |
| Notifications.CrashesLoseDeliveries | payflow-app/cmd/worker/main.go:177-192 | In every serial run of calls, any subject that succeeds, of a tenant whose hook is ready throughout, can end wanted and without a delivery, when workers crash between commit and enqueue. |
| Notifications.SettledWithoutDelivery | payflow-app/cmd/worker/main.go:177-192 | Such a run for every amount: one payment accepted and settled, its delivery wanted and never made. |
| Notifications.TargetIsTenantsUrl | payflow-app/internal/webhook/webhook.go:120 | Over every run, every delivery goes to the URL its own tenant had when the settled subject was read for it, and no later change of the hook, attempt or retry moves it. |
| Notifications.DefaultNeverApplies | payflow-app/internal/webhook/webhook.go:218-220 | For every row of every run and every configured default, the limit of the loop is 5. |
| Notifications.LoopMakesChanges | payflow-app/internal/webhook/webhook.go:215-275 | Every statement of a racing execution leaves the row or makes one of the changes over which the results about all runs range. |
| Publication.HandedOver | payflow-app/internal/webhook/webhook.go:113-129 | Right after the insert that makes it, and after a retry resets it, a delivery is in the hands of a process that will publish it. |
| Publication.PublishedIsQueued | payflow-app/internal/webhook/webhook.go:126-129 | Publishing makes the row a job, and only then can an execution write to it. |
| Publication.ForgottenForEver | payflow-app/internal/webhook/webhook.go:126-129 | A pending delivery that no live process will publish and no job names never changes again, whatever enqueues, retries, crashes and redeliveries follow. |
| Publication.DeliverableIffNotForgotten | payflow-app/internal/webhook/webhook.go:126-129 | From any state of any run a delivery can still succeed, or has, if and only if it is not forgotten in that way and a request can be built for its URL. |
| Publication.SettledButForgotten | payflow-app/internal/webhook/webhook.go:126-129 | For every amount, a run in which a settled payment has a wanted delivery that is forgotten: the process crashed between the commit and the publication. |
| DeliveryLoop.RaceInvariant | payflow-app/internal/webhook/webhook.go:194-286 | Any number of workers on one delivery, with retries and changing secrets: pending implies attempts left, the count never passes the maximum, a dead letter has used its attempts or lacked a secret. |
| DeliveryLoop.DeliveredIsFinal | payflow-app/internal/webhook/webhook.go:258-261 | Succeeded is absorbing: no event changes the row again. |
| DeliveryLoop.DeadLetterNeedsRetry | payflow-app/internal/httpapi/refunds_webhooks.go:143-151 | A dead letter changes only by a retry. |
| DeliveryLoop.OutsideEvents | payflow-app/internal/httpapi/refunds_webhooks.go:147-151 | A retry in the race resets a dead letter and nothing else. |
| DeliveryLoop.BudgetBounds | payflow-app/internal/webhook/webhook.go:198-285 | Along every schedule without retries, what is spent plus what may still be spent never exceeds the initial potential, lost updates of the counter included. |
| DeliveryLoop.RaceTerminates | payflow-app/internal/webhook/webhook.go:198-285 | n workers on a fresh delivery make at most n+n^2+...+n^5 POSTs and three times as many statements; when those are spent every worker has returned. |
| DeliveryLoop.BusyEnds | payflow-app/internal/webhook/webhook.go:198-285 | From any good state, stale workers after a retry included, no schedule keeps the workers busy for more statements than the potential they start with. |
| DeliveryLoop.FreshBusyEnds | payflow-app/internal/webhook/webhook.go:198-285 | For n workers on a fresh delivery that is 3*(n+n^2+...+n^5) statements. |
| DeliveryLoop.PostsCounted | payflow-app/internal/webhook/webhook.go:243 | The POSTs charged to the potential are the POSTs made. |
| Attempts.AttemptEnds | payflow-app/internal/webhook/webhook.go:194-286 | One undisturbed run from count c makes min(position of the first 2xx, max-c) POSTs, ends succeeded if and only if one of the first max-c answers is a 2xx, and dead-lettered with the counter at the maximum otherwise. |
| Attempts.AttemptProcesses | payflow-app/internal/webhook/webhook.go:194-286 | Every case of one run, without the loop: not pending, left alone; no secret, dead-lettered with the missing-secret error and no POST; unusable URL, unchanged; otherwise POSTs up to the first success or the last attempt, failures counted, the last error kept, and the pauses doubling. |
| LoneWorker.LoneRunIsAttempt | payflow-app/internal/webhook/webhook.go:198-285 | An execution of the racing loop that is alone ends with the row, and after the POSTs, of an undisturbed run. |
| Attempts.FreshAllFail | payflow-app/internal/webhook/webhook.go:115-117 | A fresh delivery that always fails makes five POSTs and sleeps 1500 ms. |
| Attempts.RetryStartsOver | payflow-app/internal/httpapi/refunds_webhooks.go:143-151 | A retried dead letter gets the full budget again: it succeeds exactly when one of the next five answers is a 2xx, and makes all five POSTs otherwise. |
| Backoff.TotalPause | payflow-app/internal/webhook/webhook.go:279 | The total backoff of m failing attempts is 50*(2^m-2) ms for m up to 7. |
| Backoff.LongPause | payflow-app/internal/webhook/webhook.go:279 | Every attempt beyond the seventh adds 3200 ms. |
| Backoff.FailuresIsFirst | payflow-app/internal/webhook/webhook.go:247-261 | The number of failures counted is the position of the first success. |
| Database.Store.constructor | payflow-app/internal/migrate/sql/000002_payments_ledger.up.sql:2-30 | The empty database is valid. |
| Database.Store.Append | payflow-app/internal/ledger/ledger.go:18-36 | The insert appends or does nothing by the unique index, the sequence advances either way, and the result says which. |
| Database.Store.WritePayment | payflow-app/internal/payment/payment.go:88-135 | The three inserts of a new payment leave exactly the tables of the atomic addition, whether or not its ledger key was taken. |
| Database.Store.WriteRefund | payflow-app/internal/refund/refund.go:129-173 | The three inserts of a new refund, likewise. |
| Database.Store.CreatePayment | payflow-app/internal/payment/payment.go:71-146 | The code on mutable tables leaves exactly the tables and the answer of the atomic operation, and the database valid. |
| Database.Store.SumReserved | payflow-app/internal/refund/refund.go:111-118 | The loop over the rows computes the sum, whatever order it visits them in. |
| Database.Store.CreateRefund | payflow-app/internal/refund/refund.go:71-183 | As for payments, with the int64 headroom test and all refusals. |
| Database.Store.InsertRefundRow | payflow-app/internal/refund/refund.go:123-182 | The insert-or-replay half, once the checks have passed. |
| Database.Store.SettlePaymentTx | payflow-app/internal/payment/payment.go:167-193 | Leaves exactly the tables of the atomic settlement. |
| Database.Store.SettleRefundTx | payflow-app/internal/refund/refund.go:204-235 | The same, and fails exactly when the refund's payment has not succeeded. |
| Database.Store.SettleJob | payflow-app/internal/refund/refund.go:237-248 | On a valid database a settlement job never fails. |
| Database.Store.OldestJob | payflow-app/cmd/worker/main.go:43-56 | Returns an unprocessed row with the least creation time, or nothing exactly when all are processed. |
| Database.Store.ProcessOutbox | payflow-app/cmd/worker/main.go:32-99 | Settles and marks an unprocessed row than which none is older; on a valid database never an error. |
| Database.Store.Enqueue | payflow-app/internal/webhook/webhook.go:73-191 | Inserts and publishes exactly when the subject has succeeded, its tenant has URL and secret, and no delivery exists yet; the row is addressed to that URL. |
| Database.Store.DeliveryLoop | payflow-app/internal/webhook/webhook.go:198-285 | The read, POST, write-back loop leaves exactly the row, the number of POSTs and the total sleep that Attempt gives. |
| Database.Store.ProcessDelivery | payflow-app/internal/webhook/webhook.go:193-286 | Exactly the cases of AttemptProcesses on the stored row, and nothing for a missing one; the database stays valid and no NULL secret is ever scanned. |
| Database.Store.CheckRetry | payflow-app/internal/httpapi/refunds_webhooks.go:131-146 | The status check: not found, not dead-lettered, or to be queued. |
| Database.Store.ResetRetry | payflow-app/internal/httpapi/refunds_webhooks.go:147-151 | The guarded update resets a dead letter of that tenant and nothing else, whatever happened since the check. |
| Database.Store.RetryDelivery | payflow-app/internal/httpapi/refunds_webhooks.go:120-159 | Check and update with nothing in between. |
| Database.Store.SetWebhook | payflow-app/internal/httpapi/refunds_webhooks.go:24-47 | Both columns are overwritten unless the trimmed URL is empty; the secret is never NULL again. |
| Database.Store.ListLedger | payflow-app/internal/ledger/ledger.go:38-63 | The loop returns exactly the rows of that tenant and payment, by strictly increasing id. |
| Drain.SettleAndEnqueueAdvances | payflow-app/cmd/worker/main.go:177-192 | A settlement with its enqueue is progress from whichever queue it came: no row lost, the subject delivered if wanted, nothing stranded. |
| Drain.DeliveryAdvances | payflow-app/cmd/worker/main.go:219-224 | A popped delivery leaves the queue finished, unless no request can be built for its URL. |
| Drain.AdvancesTransitive | payflow-app/cmd/worker/main.go:170-240 | Progress adds up over passes of the loop. |
| Drain.AllProcessedMeansSettled | payflow-app/cmd/worker/main.go:93-99 | When every outbox row is processed, every payment and refund has succeeded. |
| Drain.OrderGoesOn | payflow-app/cmd/worker/main.go:43-50 | Taking the oldest unprocessed row each time processes the rows in the order of their creation. |
| Drain.JobsServedStays | payflow-app/cmd/worker/main.go:207-239 | A served job, whose subject has succeeded and has its delivery if that is wanted, stays served. |
| Worker.Loop.Pass | payflow-app/cmd/worker/main.go:170-240 | One pass takes the oldest unprocessed outbox row, else the first settlement, webhook or refund job in that order, and serves it; it is idle exactly at rest, and otherwise lowers 2*(unprocessed rows + settlement jobs + refund jobs) + webhook jobs. |
| Worker.Loop.OutboxAndEnqueue | payflow-app/cmd/worker/main.go:170-192 | The outbox branch finds work exactly when a row is unprocessed, and marks the oldest one and no other. |
| Worker.Loop.SettleAndEnqueue | payflow-app/cmd/worker/main.go:208-217 | A settlement job, wanted or stale, is progress, touches no outbox row, and leaves its subject succeeded and, if wanted, with a delivery. |
| Worker.Loop.Deliver | payflow-app/cmd/worker/main.go:219-224 | A webhook job processes the delivery it names and no other, and shortens its list. |
| Worker.Loop.RunUntilIdle | payflow-app/cmd/worker/main.go:170-240 | Fault-free draining: the loop comes to rest within that measure, everything is processed and succeeded, the waiting outbox rows in the order of their creation, every settlement and refund job served, each subject settled on the way that wants a webhook has exactly one delivery, and a delivery still pending has an unusable URL or was in no queue at the start. |

## Left out

- HTTP routing, JSON encoding, middleware, logging, metrics and tracing: the model starts at the service methods.
- API keys, JWT, bcrypt and HMAC signatures: tenants are authenticated ids, and a signature is not part of a delivery's state.
- SHA-256 itself: collisions are taken not to exist.
- Audit rows, which nothing reads back, and tenant onboarding; a tenant is an id with or without a hook setting.
- Database and broker failures that surface as an error to the caller, and context cancellation: at statement level they are aborts.
- Redis and Service Bus internals: `Worker` uses FIFO lists that lose nothing; lost, duplicated and reordered jobs are covered by `Redelivery`, by the unordered calls of a serial run, and by the missing inserts of `Notifications`.
- Real time: `created_at` only orders claims of a single worker, several workers with SKIP LOCKED may claim in any order; `updated_at` is dropped and `next_attempt_at` is written but never read.
- Foreign-key locks inside PostgreSQL: `NoDeadlock` is about the row locks and unique keys that the statements of these files take, in the order they take them; a deadlock through others would be an abort.
- The order in which one SELECT ... FOR UPDATE locks several rows: a refund settlement takes its refund and payment rows together, or waits holding neither.
- Waits on an uncommitted ledger row: every append happens under the row lock of its payment, so two transactions never race for one ledger key.
- Database.Store.RetryDelivery: runs its check and its update together; two racing retries, where both answer ok and both publish, are in `RacingRetries`, and the update alone is an event of `DeliveryLoop`.
- Listing deliveries and the limits of that list: a filtered read.
- Unicode in currencies and keys: lengths and case folding are those of ASCII text.
- Several workers draining together: `Worker` drains with one; safety with many is in `Interleaving`, `Notifications` and `DeliveryLoop`.
