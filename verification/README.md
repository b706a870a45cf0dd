# Verification of the payment ledger

A Dafny model of a payments service on a double-entry ledger, with proofs of what the service promises.
The core is the concurrent protocol of `app/domain/payments/services.py` and
`app/domain/ledger/services.py`: clients initiate, authorise, settle, reverse and fail payments at the same
time, each attempt is one database transaction, and versions that are compared and set keep the attempts
apart. Around it stand the webhook outbox and its worker, the SGQR payload with its checksum, the
reconciliation matcher with its windows, the validation of journal entries and the currency conversion.

`dafny verify dfyconfig.toml` checks everything.

## How it is built

Three layers describe the protocol.

1. **`Machine`** is the state machine. Its state is the committed database plus, for each client, what its
   open transaction has read and written so far. A step is one statement, or a few that no other transaction
   can tell apart; an attempt can abort at any point. Statements see the latest committed data and the
   writes of their own transaction, a guarded UPDATE waits while another transaction holds the row, and only
   a commit step changes committed data. `Machine.Reachable` covers every interleaving of any number of
   clients, from an empty database, with aborts and lost processes anywhere.
2. **`Invariant`, `Frame`, `LocalSteps`, `Commits` and `Runs`** prove one invariant of all reachable states,
   and that committed data only grows. **`Guarantees` and `Promises`** draw the results from it.
3. **`Transactions`, `LedgerService`, `PaymentService` and `Initiation`** are the service calls as
   imperative methods with the loops of the services. Before each statement the rest of the system takes a turn
   of an arbitrary schedule, so each contract holds under every interference. Every change of the state is a
   step of the machine: `Interference.Follows` carries reachability through a call, so the results of the
   second layer apply to the state any call leaves behind. `Dispatcher` does the same for the webhook worker.

`Columns` says what the text columns take. The remaining modules stand alone: `Ledger`, `Conversion`, `Crc16` with
`Division` and `CheckValue`, `Tlv`, `Sgqr`, `Webhooks`, `Reconciliation` and `Windows`. `Deadlock`, `Schedules` and
`StaleSettlement` study the locks of the machine, and `LateListing` its history.

Amounts are whole cents, except in a request, which carries any real number; rates are integers scaled by 10^8.
UUIDs are natural numbers, of which only the identity matters. Clocks, replies of subscribers and new payment ids
are arbitrary values. Some fields only record what happened, so that a property can speak about it: `log`,
`answers`, `sends` and `claims` of a state, `order` and `source` of a journal entry, `after`, `seen` and `key` of
a history row.

## Where the code and its documents differ

- `docs/adr/0003-optimistic-locking.md:25-30` says that nothing blocks and that transfers cannot deadlock.
  Row locks do block. `Schedules.DeadlockIffChain` says exactly when settlements, reversals and direct postings
  can wait for each other for ever: when a ring of shared accounts runs through some of them, no two of which
  convert for the same payment; for two of them, when they share two accounts (`Schedules.PairDeadlock`).
  Bumping accounts in one order would not be enough: `StaleSettlement.StaleSettlementMeetsReversal` is a
  schedule along which all accounts are bumped in ascending order, in every state, and which still ends in a
  circle, because a converting settlement locks its payment row before its accounts and a reversal after them. One order of all rows, payments included, would be enough
  (`Deadlock.CommonOrderPreventsDeadlock`).
- `docs/adr/0002-idempotency-key-storage.md:47-54` says that only a crash at a specific instant leaves a key
  in progress. Every failure of the second transaction does (`Promises.RolledBackClaimOrphans`), and without a
  crash it fails exactly when the creditor account does not exist, a column refuses the amount or the end-to-end
  id, or the new id is in use (`Promises.ClaimCanComplete`, `Initiation.CreateClaimed`). The amount is one of the
  reasons because requests are only checked to be positive: one cent's hundredth rounds to nothing, and a huge
  amount overflows. The end-to-end id is one because its column is VARCHAR(35) and holds no U+0000
  (`app/infra/db/models.py:79`): the payments route checks the length but not the character. The pain.001 route,
  which needs no key, does not check the length (`Initiation.InitiatePayment`).
- The conversion promises half-up rounding but rounds twice. `Conversion.EarlyRoundingCanShow` gives an amount
  and a rate for which the result is not the nearest number of cents, and `Conversion.ConversionIsNearest` says
  exactly for which products it is: all of at most 28 digits, and longer ones depending on their remainder.
  `Conversion.ConversionIsExact` shows that no result that fits its column suffers.
- A reconciliation window lists payments by the time at which their settling transaction began.
  `LateListing.LateSettlementUnlisted` settles a payment that no window lists: its settlement is open when the
  window is listed and commits afterwards. `Windows.WindowsOverRun` says exactly which payments are listed, each
  once.
- The matcher calls a payment and a record with one reference a match, but nothing makes references distinct:
  of the rows that share one, only the last is compared. `Reconciliation.BreaksAndReplacedRows` says how far the
  breaks are from the totals of all rows, and that with positive amounts they leave nothing out exactly when the
  references of each side are distinct.

## Model

| member | source | states |
|---|---|---|
| Entities.WalkLength | app/domain/payments/state_machine.py:6-12 | a walk along the allowed edges has at most three steps, and its end determines how many (one or two for a failed payment) |
| Entities.WalkExists | app/domain/payments/state_machine.py:6-12 | for each of these numbers such a walk exists, so no edge is missing |
| Entities.EventTexts | app/domain/payments/services.py:258-263 | the event of each status has the text that subscribers name |
| Ledger.NetByCurrency | app/domain/ledger/invariants.py:35-37 | the accumulating loop has a key for exactly the currencies that occur, each with credits minus debits |
| Ledger.ValidateJournalEntry | app/domain/ledger/invariants.py:27-41 | accepts exactly the non-empty, all-positive lines whose debits equal credits in each currency; each error is raised exactly in its case, with the first bad line or exactly the non-zero nets |
| Ledger.ValidLinesPermutation | app/domain/ledger/invariants.py:27-41 | reordering the lines does not change the verdict |
| Ledger.ValidLinesConcat | app/domain/ledger/invariants.py:27-41 | two valid entries written as one are valid |
| Ledger.BalancesAddUpToNet | app/infra/db/repositories/ledger_repository.py:66-76 | the derived balances of all accounts add up to the net of the lines in each currency |
| Conversion.ConversionIsExact | app/domain/fx/conversion.py:6-10 | a number of cents that NUMERIC(18,2) can hold is the result if and only if it is the nearest one, ties away from zero |
| Conversion.ConversionIsNearest | app/domain/fx/conversion.py:10 | of the conversions that do not raise, exactly those whose product satisfies a condition on its digits and remainder yield the nearest number of cents |
| Conversion.ConversionSucceeds | app/domain/fx/conversion.py:10 | decimal.InvalidOperation is raised exactly from the product on whose cents need more than 28 digits |
| Conversion.EarlyRoundingCanShow | app/domain/fx/conversion.py:10 | beyond the column the early rounding can show, even for an amount and a rate their columns hold |
| Conversion.ConversionIsMonotone | app/domain/fx/conversion.py:6-10 | a larger product never converts to less, of whatever size |
| Conversion.ConversionError | app/domain/fx/conversion.py:6-10 | a storable conversion is off by at most half a cent |
| Guarantees.ExactlyOnce | app/domain/payments/services.py:299-354 | in every reachable state the transitions of a payment have posted nothing, one settlement, or that settlement and one reversal of the very same amounts, according to its status |
| Guarantees.ColumnShowsTransitions | app/domain/ledger/services.py:20-50 | the payment_id column shows exactly those entries if and only if no direct posting names the payment |
| Guarantees.SettlementMovesLegs | app/domain/payments/services.py:357-391 | the settlement entry moves the amount out of the debtor and the amount or the booked credit into the creditor, account by account and currency by currency, also when suspense is a party |
| Guarantees.ReversalMovesBack | app/domain/payments/services.py:394-422 | the reversal entry moves exactly the settled legs back; no rate enters |
| Guarantees.LedgerFollowsPayments | app/domain/payments/services.py:357-422 | every derived balance is the sum of the legs of the payments that now stand settled plus the direct postings |
| Guarantees.CurrencySumsToZero | docs/adr/0001-derived-balances.md:29-32 | the balances of all accounts add up to zero in each currency, in every reachable state |
| Guarantees.VersionsOrderEntries | app/infra/db/repositories/ledger_repository.py:78-107 | an account's version counts the entries that touch it, and the versions they found are 0, 1, 2, .. in commit order without a gap |
| Guarantees.HistoryIsWalk | app/domain/payments/services.py:330-349 | the history rows of a payment chain from none to its status along allowed edges, and its version is their number minus one |
| Guarantees.CreditIsBooked | app/infra/db/repositories/payment_repository.py:58-94 | although set_fx_details is unguarded, a committed credit is the one in the committed conversion entry, at a rate that was booked, and it is there exactly for settled or reversed cross-currency payments |
| Guarantees.BookedFxIsFinal | app/infra/db/repositories/payment_repository.py:86-94 | once booked, rate and credit never change in any continuation |
| Guarantees.ConversionDrift | app/domain/payments/services.py:375-391 | over any set of converted payments the credited total is off the exact one by at most half a cent per payment |
| Guarantees.NewAccountIsEmpty | app/infra/db/repositories/ledger_repository.py:29-41 | a new account has version 0 and a derived balance of zero in every currency, and nothing else changes |
| Guarantees.NewRateIsLatest | app/infra/db/repositories/fx_repository.py:13-33 | a newly booked rate is the latest of its pair and of no other |
| Guarantees.NewSubscriptionIsListed | app/infra/db/repositories/webhook_repository.py:40-55 | a new subscription is listed in every later state |
| Runs.StepKeeps | app/infra/db/unit_of_work.py:41-65 | every step of every interleaving keeps the invariant of tables, open transactions and locks |
| Runs.StepExtends | app/infra/db/unit_of_work.py:59-65 | no step rewrites or loses a posted entry, a history row, a completed key or an announcement, or lowers a version |
| Runs.ReachableInv | app/infra/db/session.py:29-35 | the invariant holds in every reachable state |
| Promises.AtMostOnePayment | app/domain/payments/services.py:185-230 | a key creates at most one payment, however many callers race or abort |
| Promises.AnswerIsSnapshot | app/domain/payments/services.py:213-230 | every 201 carries the payment its key created, as it was at creation |
| Promises.AnswersAgree | app/infra/db/repositories/idempotency_repository.py:37-47 | two 201s for one key are the same response to the same request |
| Promises.OrphanStays | app/infra/db/repositories/idempotency_repository.py:15-38 | a key in progress without a claimant stays so in every continuation |
| Promises.OrphanNeverPays | docs/adr/0002-idempotency-key-storage.md:47-54 | such a key never gets a payment |
| Promises.ClaimCanComplete | app/domain/payments/services.py:213-230 | a claimed key can be completed with its payment exactly when the creditor exists, the columns take the amount (from half a cent on, below 10^16) and the end-to-end id (no U+0000, 35 characters and blanks), and the id is free; otherwise the insert raises; the payment is what was asked for, field by field |
| Promises.InsertedAsRequested | app/infra/db/repositories/payment_repository.py:32-50 | an insert that succeeds keeps parties, currency and reference of the request, and the number of cents nearest to its amount |
| Promises.RolledBackClaimOrphans | app/domain/payments/services.py:213-230 | a second transaction that is rolled back leaves its key in progress without a claimant |
| Promises.EveryChangeAnnounced | app/domain/webhooks/services.py:7-26 | each committed history row has, for each matching subscription its transaction listed, a delivery whose payload is the row committed with it |
| Promises.EverySubscriberNotified | docs/adr/0005-transactional-outbox-for-webhooks.md:28-31 | from a moment at which no open transaction has listed the subscriptions yet, each subscription of that moment that names no event, or this one, gets a delivery of every later status change, in every run |
| Promises.FanOutNotifies | app/domain/webhooks/services.py:17-26 | a commit whose list has all earlier subscriptions adds a pending delivery, due from the time of its history row, for each of them that names no event or this one |
| Promises.EveryDeliveryCommitted | app/domain/webhooks/services.py:7-26 | each delivery is one announcement of exactly one committed history row, so none comes from a rolled-back attempt |
| Promises.EveryDeliveryAskedFor | app/domain/webhooks/services.py:17-26 | each delivery is for a subscription that names no event or the one of its payload, and carries that event and payment |
| Promises.DeliveryLife | app/domain/webhooks/dispatch.py:48-75 | pending means attempts are left, dead letter that all were used, delivered that an answer from 200 to 299 was received; each counted attempt was sent |
| Promises.FinalDeliveriesStay | app/infra/db/repositories/webhook_repository.py:72-106 | delivered and dead-letter rows never change again |
| Interference.MovedAccountHasRival | app/infra/db/repositories/ledger_repository.py:100-107 | an account version that moved was moved by a commit in between that bumped the account |
| Interference.MovedPaymentHasRival | app/infra/db/repositories/payment_repository.py:58-67 | the same for the version of a payment |
| Interference.RivalsSplit | app/domain/ledger/services.py:36-57 | commits counted over consecutive stretches of the log add up, so different attempts are charged to different commits |
| Transactions.UnitOfWork.Rollback | app/infra/db/unit_of_work.py:41-57 | a rollback ends the transaction and leaves committed data as it was |
| Transactions.UnitOfWork.BumpAll | app/domain/ledger/services.py:41-46 | in any order of the accounts, either all are bumped or one of them has moved on since it was read |
| LedgerService.OpenPosting | app/domain/ledger/services.py:36-39 | reads the version of every account of the entry, or fails because a line names an account, or the entry a payment, that does not exist, or because a column refuses an amount or a text |
| LedgerService.ClosePosting | app/domain/ledger/services.py:41-52 | commits the entry as the newest one, or leaves no trace; a conflict has a rival commit after the reads |
| LedgerService.PostJournalEntry | app/domain/ledger/services.py:20-57 | posts once an entry that is valid, names what exists and fits its columns, or leaves no trace; m attempts are exhausted only by m commits of others on its accounts, so such an entry with fewer of them and no fault or held row is posted |
| PaymentService.OpenTransition | app/domain/payments/services.py:243-245 | reads the committed row, and rejects exactly a missing payment or a move that is none of the five legal ones |
| PaymentService.BuiltRateCurrent | app/infra/db/repositories/fx_repository.py:13-33 | the rate a settlement is built with is the latest of its pair at that moment, so none known at the start of the call comes after it |
| PaymentService.WriteLines | app/domain/payments/services.py:357-422 | builds the lines and writes the booked rate, waiting for the row; it can fail only for a cross-currency settlement |
| PaymentService.BuiltLinesValid | app/domain/payments/services.py:361-422 | every entry a transition builds passes validation unless a converted credit rounds to nothing |
| PaymentService.BuiltEntryFits | app/infra/db/models.py:43-62 | the columns of an entry and of its lines hold whatever a transition builds, once the credit fits its own column, so no transition fails at them |
| PaymentService.PrepareEntry | app/domain/payments/services.py:316-322 | validates the entry and reads its versions; a failure names a missing rate, a missing suspense account or a conversion that cannot be booked |
| PaymentService.CloseTransition | app/domain/payments/services.py:330-349 | commits status, history row, entry and a delivery for each matching subscription that was there before, together and as the only commit of the attempt, or none of them; a mismatch means the payment moved on |
| PaymentService.TransitionStatusOnly | app/domain/payments/services.py:233-269 | authorise never exhausts two attempts and fail never three; an illegal transition is one from another status than initiated, or than initiated and authorised; so with the default five a call without a fault on a legal payment that nobody else holds or changes returns, unless its reason holds a U+0000, which the history refuses |
| PaymentService.AuthorisePayment | app/domain/payments/services.py:272-277 | on an initiated payment that nobody else holds or changes it returns the payment authorised |
| PaymentService.FailPayment | app/domain/payments/services.py:280-290 | on an initiated or authorised payment that nobody else holds or changes it returns the payment failed |
| PaymentService.AttemptWithEntry | app/domain/payments/services.py:311-349 | one attempt moves the money once or leaves no trace, and a retry has a rival commit on the payment or its accounts |
| PaymentService.EntryInvolves | app/domain/payments/services.py:357-422 | the entry touches exactly the debtor, the creditor and, across currencies, suspense |
| PaymentService.TransitionWithLedgerEntry | app/domain/payments/services.py:299-354 | settle and reverse move the money once, with exactly the entry the new status books, or leave no trace; only as many commits of others on the payment or the accounts of its entry as there are attempts exhaust them; no rate superseded before the call is booked; a reversal or a same-currency settlement is never unbuildable |
| PaymentService.SettlePayment | app/domain/payments/services.py:425-434 | on an authorised payment that can be booked, with its rows held by nobody else and fewer rivals than attempts, it returns the payment settled |
| PaymentService.ReversePayment | app/domain/payments/services.py:437-446 | the same for a settled payment, which can always be booked |
| PaymentService.StatusMoved | app/infra/db/repositories/payment_repository.py:58-67 | a payment that nobody commits a change of is the row it was |
| Initiation.CreateWithin | app/domain/payments/services.py:78-105 | inserts the payment that was asked for, field by field, with the nearest number of cents, or fails for a reason that the state gives: debtor, currency, a column that refuses the amount or the end-to-end id, id or creditor |
| Initiation.InitiatePayment | app/domain/payments/services.py:108-129 | without a fault a payment is created if and only if the request is acceptable, and otherwise the error is the one its case asks for; the payment has the parties, currency and reference of the request and the number of cents nearest to its amount; it is the only commit of the call, and its subscribers are notified |
| Initiation.ClaimKey | app/domain/payments/services.py:188-200 | checks the debtor before it claims, and claims only a key that is not in the table and that its column takes |
| Initiation.SettleClaim | app/infra/db/repositories/idempotency_repository.py:28-47 | in progress, key reused and replay each follow from the committed row of the key |
| Initiation.CreateClaimed | app/domain/payments/services.py:213-230 | without a fault, creates the payment and completes the key in one commit if and only if creditor, amount, end-to-end id and new id allow it, and otherwise leaves the key in progress without a claimant |
| Initiation.InitiatePaymentIdempotent | app/domain/payments/services.py:152-230 | an acceptable request under a key that its column takes and nobody else claims is answered with a new payment as asked for, field by field, to the nearest cent; a 201 is stored under the key and carries its payment; a completed key replays the stored response to the same request and refuses any other, whatever runs in between |
| Webhooks.EnqueueEvent | app/domain/webhooks/services.py:7-26 | the loop over the subscriptions appends one fresh pending row, due now, for each one that names no event or this one, in order, and no others |
| Webhooks.FanOutMatches | app/domain/webhooks/services.py:17-26 | the announcements are exactly those of the subscriptions that name no event or the event of the status |
| Webhooks.BackoffGrows | app/domain/webhooks/retry_policy.py:5-12 | the delay doubles with each attempt until it reaches the cap and stays there |
| Webhooks.BackoffDoubles | app/domain/webhooks/retry_policy.py:5-12 | two seconds at first, twice the previous delay each time, at most 900 |
| Webhooks.FailureCounts | app/domain/webhooks/dispatch.py:48-74 | an attempt answered outside 200 to 299 or not at all counts once, is a dead letter exactly at the limit, and otherwise waits the doubled delay of 2 to 900 seconds |
| Webhooks.AttemptUsesUp | app/domain/webhooks/dispatch.py:33-75 | every completed attempt lowers the number of attempts that remain in the table |
| Dispatcher.ListDue | app/infra/db/repositories/webhook_repository.py:72-83 | lists pending rows whose time has come, by time, distinct and within the limit, and leaves out such a row only for earlier ones |
| Dispatcher.DeliveryHasSubscription | app/domain/webhooks/dispatch.py:91-96 | the subscription of every delivery is listed, so the worker never skips one |
| Dispatcher.Worker.DispatchOneDelivery | app/domain/webhooks/dispatch.py:33-75 | exactly one send, and one write of the row computed from its answer and the delivery as listed; if the worker dies in between, the row is as it was; an answer from 200 to 299 delivers it, any other counts once and makes it a dead letter exactly at the limit |
| Dispatcher.Worker.DispatchDueDeliveries | app/domain/webhooks/dispatch.py:78-101 | the sends of the cycle are one for each listed row, in order, each row being written from its own answer and the state it was listed in, while payments go on adding rows; if the worker dies, the one send it did not record is all that is lost; no other row changes, and each attempt uses one up |
| Crc16.ComputeChecksum | app/infra/qr/sgqr.py:27-36 | the nested loops print, in four upper-case digits, the remainder of the text times x^16, with its first 16 coefficients complemented, modulo x^16 + x^12 + x^5 + 1 |
| Division.RemainderIsUnique | app/infra/qr/sgqr.py:27-36 | a dividend has only one quotient and one remainder |
| Division.ChecksumIsUnique | app/infra/qr/sgqr.py:36 | only one text of four digits is the checksum of a text |
| CheckValue.KnownAnswers | app/infra/qr/sgqr.py:27-36 | the empty text has the checksum FFFF and "123456789" the check value 29B1 |
| Crc16.DivisionStep | app/infra/qr/sgqr.py:35 | a shift is multiplication by x modulo x^16 + x^12 + x^5 + 1 |
| Crc16.ResidueIsZero | app/infra/qr/sgqr.py:32-35 | feeding two bytes back leaves zero exactly when they are the register |
| Crc16.RegisterInjective | app/infra/qr/sgqr.py:32-35 | feeding the same text to different registers never makes them equal |
| Crc16.FeedTwoInjective | app/infra/qr/sgqr.py:32-35 | from one register, two different pairs of characters never lead to the same register |
| Crc16.ChecksumDetectsPair | app/infra/qr/sgqr.py:27-36 | changing two neighbouring ASCII characters changes the checksum of a text of any length |
| Tlv.ParseTlv | app/infra/qr/sgqr.py:88-98 | the loop terminates on every text and returns the map of the fields it contains, the last one of a tag winning |
| Tlv.ParsesIff | app/infra/qr/sgqr.py:88-98 | the parser finds exactly the fields whose encoding the text is, up to an end cut off inside the last value, and fails on every other text |
| Tlv.FieldsFromEncoded | app/infra/qr/sgqr.py:21-24 | encoded fields inside a longer text are read back one by one and parsing goes on behind them |
| Tlv.RoundTrip | app/infra/qr/sgqr.py:88-98 | parsing what was encoded returns the same fields in order |
| Tlv.AsMapIsLast | app/infra/qr/sgqr.py:92-98 | the dictionary has exactly the tags found, each with its last value |
| Tlv.AsMapDistinct | app/infra/qr/sgqr.py:88-98 | with distinct tags the dictionary has exactly the encoded fields |
| Sgqr.BuildSgqr | app/infra/qr/sgqr.py:39-85 | raises exactly for a currency other than the four, an amount that is not positive, or a value over 99 characters (82 for the account number); otherwise returns the listed fields and "6304", closed by the checksum of all that |
| Sgqr.ClosedVerifies | app/infra/qr/sgqr.py:101-103 | every closed ASCII payload verifies |
| Sgqr.VerifiesIff | app/infra/qr/sgqr.py:101-103 | a payload verifies exactly if its last four characters are the checksum of the rest; one of fewer than four never does, and a rest that is not ASCII raises |
| Sgqr.PayloadRoundTrip | app/infra/qr/sgqr.py:60-98 | a built payload parses into exactly its fields and the checksum field |
| Sgqr.ScannedValues | app/infra/qr/sgqr.py:63-76 | under each tag the parsed dictionary holds the value meant for it: the first 25 and 15 characters of name and city, the number of the currency (702, 840, 978 or 826), the amount if there is one |
| Sgqr.TemplateRoundTrip | app/infra/qr/sgqr.py:60 | the nested merchant account template parses into its two fields |
| Sgqr.TamperedBodyFails | app/infra/qr/sgqr.py:101-103 | changing one character, or two neighbouring ones, of the body makes verification fail |
| Sgqr.TamperedChecksumFails | app/infra/qr/sgqr.py:101-103 | changing the checksum makes verification fail |
| Reconciliation.Match | app/domain/reconciliation/matcher.py:12-83 | a break for exactly the references that are on one side only or differ in amount or currency, of the type that says which, with what it reports; strictly ascending, and matches plus breaks are the distinct references |
| Reconciliation.LessIsLexicographic | app/domain/reconciliation/matcher.py:24 | ascending means the order of Python strings |
| Reconciliation.LedgerIndexIsLast | app/domain/reconciliation/matcher.py:22 | the index of the ledger has every reference, with the last row that carries it |
| Reconciliation.SettlementIndexIsLast | app/domain/reconciliation/matcher.py:23 | the same for the settlement file |
| Reconciliation.BreaksExplainDifference | app/domain/reconciliation/matcher.py:22-83 | the last-wins ledger total minus the settlement total is the sum of the differences of the breaks |
| Reconciliation.BreaksAndReplacedRows | app/domain/reconciliation/matcher.py:22-24 | over all rows, the difference of the totals is that of the breaks plus what was replaced by a later row of the same reference on the ledger's side, minus the same of the file's; with positive amounts a side loses nothing exactly if its references are distinct |
| Reconciliation.ReconciliationIsUnique | app/domain/reconciliation/matcher.py:12-83 | the two indexes determine the result |
| Reconciliation.MirrorHasNoBreaks | app/domain/reconciliation/matcher.py:22-66 | a settlement file that repeats the ledger's rows gives no break |
| Windows.SettledAtThird | app/infra/db/repositories/reconciliation_repository.py:37-45 | a payment has at most one settling history row, and has it exactly when it is settled or reversed |
| Windows.ListedOnce | app/infra/db/repositories/reconciliation_repository.py:28-56 | a window lists a payment once if it was settled inside it, reversed since or not, and never otherwise |
| Windows.ListedTerms | app/infra/db/repositories/reconciliation_repository.py:48-56 | a listed row carries the payment's amount and currency, and its end-to-end id as reference or else its own id |
| Windows.PartitionListsOnce | app/infra/db/repositories/reconciliation_repository.py:37-45 | however time is cut into half-open windows, in one state every payment settled in the span is listed by exactly one |
| Windows.WindowsOverRun | app/infra/db/repositories/reconciliation_repository.py:28-56 | with each window listed in its own state of a run, a payment is listed once if its settlement was committed when its window was listed, and otherwise never |
| LateListing.LateSettlementUnlisted | app/infra/db/repositories/reconciliation_repository.py:37-45 | in the state in which the first window is listed, a settlement begun inside it is open; it commits afterwards and is in neither that window nor the next |
| Deadlock.CircleStaysForGood | docs/adr/0003-optimistic-locking.md:25-30 | clients that wait for each other's rows go on waiting and never commit, in any continuation, until one of them is aborted |
| Deadlock.WantsIsNextLock | app/domain/ledger/services.py:41-46 | what a client is said to wait for is exactly what one of its next statements locks: one that can run, leaves it holding the row, and never runs while another holds it |
| Deadlock.CommonOrderPreventsDeadlock | docs/adr/0003-optimistic-locking.md:29-30 | a circle of waits for account and payment rows needs a client that locks against the common order of all rows |
| Deadlock.AscendingLeavesPayments | app/domain/ledger/entities.py:31-33 | with ascending bumps every circle runs through a payment row |
| Deadlock.CircleNeedsChain | app/domain/payments/services.py:316-333 | every circle, through whatever rows, has a ring of shared accounts among its members, no two of which convert for the same payment |
| Schedules.ChainCanBlock | app/domain/ledger/services.py:42-46 | such a ring has a schedule in which each member bumps one account and then waits for the next |
| Schedules.DeadlockIffChain | docs/adr/0003-optimistic-locking.md:25-30 | attempts that know their entries, on rows nobody holds, can deadlock if and only if such a ring runs through some of them |
| Schedules.PairDeadlock | docs/adr/0003-optimistic-locking.md:25-30 | two of them can deadlock if and only if they share two accounts and do not both convert for the same payment |
| StaleSettlement.StaleSettlementMeetsReversal | app/domain/payments/services.py:388-390 | there is a schedule along which all clients bump their accounts in ascending order, and which ends with a converting settlement of a stale row and a reversal of the same payment waiting for each other |

The steps of the state machine are functions without a contract of their own; these are the lines they follow.

- `Begin`, `Build`, `WriteFx`, `ReadVersions`, `Bump`, `Swap`, `Record`, `CommitMove`:
  `app/domain/payments/services.py:233-269` and `299-422`, with the repository methods they call.
- `BeginPosting`, `ReadVersions`, `Bump`, `CommitPosting`: `app/domain/ledger/services.py:20-57`.
- `Claim`, `ReadOutcome`, `CommitClaim`, `StartUnkeyed`, `InsertPayment`, `RecordCreation`, `CommitCreation`,
  `Respond`: `app/domain/payments/services.py:78-230` and
  `app/infra/db/repositories/idempotency_repository.py:15-67`.
- `Abort`: `app/infra/db/unit_of_work.py:41-65`. `OpenAccount`, `Subscribe`: the repositories' inserts of accounts
  and subscriptions; `BookRate`: an insert into `fx_rates`. `Dispatch`, `LoseSend`: `app/domain/webhooks/dispatch.py:48-75`.

## Left out

- Transactions.UnitOfWork.BumpAll: how Postgres re-evaluates a blocked UPDATE is taken as given: it waits for the row, then compares with the committed version.
- PaymentService.TransitionWithLedgerEntry: a call that still waits for a row when the schedule ends is reported as blocked, with the row that is held; nothing is claimed about how long others hold it.
- Ledger.ValidateJournalEntry: lines are whole cents; lines of a direct posting with fractions of a cent, which the column would round one by one, are not modelled.
- PaymentService.TransitionStatusOnly: for the statuses that move no money, which are the ones the service passes to it.
- Initiation.CreateWithin: a new id that is already in use, or being inserted by another transaction, is an error at once; that UUIDs do not collide is not assumed.
- Initiation.InitiatePaymentIdempotent: the hash of the request body is taken to be injective, so the body stands for it; keys whose excess over 255 characters is only blanks, which the column would cut off, count as refused (an HTTP header value has no trailing blanks).
- Initiation.InitiatePayment: of several reasons to refuse one insert, which one the database reports first is the model's choice; amounts are numbers (no NaN, no infinity) and texts have no lone surrogates.
- LedgerService.PostJournalEntry: the id it returns is not modelled, nor is the idempotency_key_id of an entry; an entry type or line currency whose excess over its column is only blanks, which the column would cut off, counts as refused.
- Dispatcher.Worker.DispatchDueDeliveries: one worker and a fixed limit of attempts; two workers can send a row twice, as `docs/adr/0005-transactional-outbox-for-webhooks.md:35-40` says.
- Deadlock.CommonOrderPreventsDeadlock: about account and payment rows; a transaction that inserts an idempotency key waits for nothing while it holds it, so keys are in no circle (`Deadlock.KeyHolderIsFree`).
- Schedules.DeadlockIffChain: for the attempts that are open; what a deadlock victim's retry does next is a new attempt. That a ring suffices lets each set yield its accounts in any order, because Python promises none for a frozenset (`app/domain/ledger/entities.py:31-33`).
- Schedules.PairDeadlock: the same assumption about the order in which a set yields its accounts.
- Deadlock.WantsIsNextLock: for a credit that its column takes; another one raises and locks nothing.
- Crc16.ComputeChecksum: the encoding error of a text that is not ASCII is raised by its callers in the model.
- Tlv.ParseTlv: a length field counts only if it is two decimal digits; Python's `int` also takes signs, blanks and a single digit.
- Sgqr.BuildSgqr: the amount is its decimal text and its sign; the PNG image is not modelled.
- Windows.ListedOnce: the text of a UUID is an arbitrary function; the rows loaded and stored by a reconciliation run are plain inserts and are not modelled.
- The repositories' updates in place: they are steps on a state value, because the interleaving of several transactions is the point; the service calls and the worker are the imperative part.
- The latest rate of a pair is the one booked last; ties and backdating of `booked_at` are not modelled.
- A commit whose outcome the client never learns: a fault strikes before a statement takes effect, not in the middle of a commit.
- Expiry of idempotency keys and deactivation of subscriptions: no code does either.
- Account numbers, owners and account status, the reason of a failure (once its column takes it) and the last error of a delivery: stored, never read by the modelled code.
- Sleeping between attempts and its jitter: turns of the schedule stand for any delay.
- Signatures, JSON encoding, HTTP routes, ISO 20022 messages, the CSV loader, configuration and migrations.
