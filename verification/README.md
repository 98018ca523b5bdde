# A verified model of the Payhawk–Xero integration

The service exports Payhawk expenses into a Xero organisation. This project models the parts of it
that do more than forward calls, and proves what they promise together:

- **Money** (`NumberConversion.dfy`): sums and conversions through integer myriadths, with
  JavaScript's rounding rules.
- **The request lock and the retries after a 429** (`Lock.dfy`, `RequestProtocol.dfy`, `Retry.dfy`,
  `RequestTrace.dfy`): a boolean lock with an event emitter's wait list, deferred wake-ups, and a recursive retry that
  acquires once and releases once per level.
- **Bills and credit notes** (`Documents.dfy`, `Ledger.dfy`, `XeroEntities.dfy`, `CreditNotes.dfy`,
  `ReExport.dfy`): documents are created, or reconciled in place with their payments and attachments.
- **Expenses** (`ExpenseExport.dfy`, `Balance.dfy`, `ExpenseReExport.dfy`, `ExpenseDeletion.dfy`):
  how an expense becomes a bill or a credit note, and when the payments it makes add up to the lines
  it sends.
- **Bank statements, feed connections and tokens** (`BankFeedStore.dfy`, `BankFeeds.dfy`,
  `StatementsMatch.dfy`, `FeedDisconnection.dfy`, `TenantTokens.dfy`).
- **Names in filters** (`Names.dfy`), and **counterexamples** (`Counterexamples.dfy`).

`dafny verify dfyconfig.toml` checks all of it.

## What is assumed of the outside world

- Amounts are exact reals. Rounding is modelled, floating-point representation is not.
- Xero: a live document is PAID exactly when its payments sum to its line total; uploading a file
  under an existing name replaces it; whether a document is rejected depends only on what is sent;
  documents do not change between the steps of one run.
- An outage begins before any write and lasts for the rest of that run: a ledger or store carries a
  `budget` of writes that still get through. Sequences of statement exports give each export its own,
  so that the database can be back for the next one; repeated runs on the ledger are about runs that
  complete. Xero's answer to a statement can be lost after Xero has accepted it.
- The event loop: promise jobs run before the next timer, I/O event or `setImmediate` callback, so
  all releases of one unwinding happen in one turn. `ArrivalInsideUnwindingBreaksExclusion` shows
  that mutual exclusion needs this.
- Exports, disconnects and token operations run one at a time.
- Node replaces a `setTimeout` delay above 2147483647 ms by 1 ms.

## What the proofs found

Each of these is a theorem about the code as it is, mostly with its exact condition.

- Outside locked periods, a second export of a bill that is not skipped, with payments to make, leaves
  what the first one did exactly when the payments it keeps and its own add up to the lines; otherwise
  all payments are made again. For balanced payments: exactly when the bill had no payments, was
  settled, or had payments of total zero.
- For a live credit note the condition is stricter: it had no payments or was settled, and the new ones
  settle it. Old payments that the new ones complete are deleted by the next run.
- If all balance payments of an expense without cards were rejected, each export takes one payment off
  its bill, so a second export leaves what the first did exactly when there was one payment at most.
- A bill of a settled expense is balanced exactly when its line items have the size of its total; the
  sum check lets items of opposite sign through.
- A credit note of refunds with a single line is balanced exactly when fees exceed no refund, or every one.
- A settled refund whose cards mix signs and that has a single line is balanced exactly when there are
  no fees, or nothing but fees; with line items, exactly when their sizes add up to amount and fees.
- A negative expense without transactions fails whenever its line items do not cancel out.
- The retry with the default account code or tax type sends the same request again, so it never helps.
- Reconciled payments of a credit note are deleted by `createOrUpdateCreditNote`.
- Payments of a bill that are reconciled or in a locked period are all kept by an export exactly when
  the expense is not one that is paid from a balance with all its balance payments rejected; if it is,
  the first payment is deleted, unless the connection fails before that.
- A period stays locked until a full day after its lock date.
- An expense dated before 29 January 2020 is exported under a url that its deletion does not look for.
- No retry is made early exactly when every Retry-After value fits into a timer.
- After a retry, `XeroHttpClient` hands up a 400 untranslated, and both clients turn falsy values into `undefined`.
- Requests get the lock in order of arrival exactly in the runs where none arrives while the lock is
  free and somebody waits; one waiter can be overtaken any number of times.
- After a feed is recovered, the id that Xero called invalid is the one stored.
- An accepted statement gets its row exactly when its id comes back and is free and a write is left. If
  Xero rejects duplicates, a statement whose row was lost is never recorded by a later export.
- `LIKE '%_demo'` and the suffix "_demo" disagree on ids such as "xdemo".
- Summing by groups can lose a cent when amounts are not whole cents.

`Counterexamples.dfy` exhibits concrete inputs at which properties one might expect fail.

## Model

| member | source | states |
|---|---|---|
| NumberConversion.MyriadthsAreRounded | src/utils/NumberConversion.ts:8 | Splitting off the whole part does not change the rounding: the result is `Math.round` of 10000 times the amount, within half a myriadth of it, for either sign |
| NumberConversion.TruncMeaning | src/utils/NumberConversion.ts:8 | The whole part lies between zero and the number, less than one away from it |
| NumberConversion.MyriadthsToNumberIsExact | src/utils/NumberConversion.ts:27-30 | Truncating quotient and remainder recombine to the exact value, also for negative amounts |
| NumberConversion.ToFixed2Error | src/utils/NumberConversion.ts:32-34 | The amount returned is a whole number of cents within half a cent |
| NumberConversion.ToFixed2KeepsCents | src/utils/NumberConversion.ts:32-34 | Whole cents pass through unchanged |
| NumberConversion.Ties | src/utils/NumberConversion.ts:8 | A tie goes up in `Math.round`, for either sign, and away from zero in `toFixed` |
| NumberConversion.SumAmountsError | src/utils/NumberConversion.ts:10-16 | For k amounts the result is in whole cents and within 0.005 + k/20000 of the true sum |
| NumberConversion.SumAmountsExactOnCents | src/utils/NumberConversion.ts:10-16 | On whole cents the result is the true sum |
| NumberConversion.SumAmountsIgnoresOrder | src/utils/NumberConversion.ts:10-16 | Any two lists with the same multiset of amounts, cents or not, have the same sum |
| NumberConversion.SumAmountsIgnoresGrouping | src/utils/NumberConversion.ts:10-16 | On whole cents, summing group sums equals summing everything, for every grouping |
| NumberConversion.GroupingMattersOffCents | src/utils/NumberConversion.ts:10-16 | Off whole cents grouping does matter: 0.004 twice is 0.01 at once and 0.00 in two groups |
| NumberConversion.MultiplyRateError | src/utils/NumberConversion.ts:23-25 | How far rounding both factors and truncating the product can move it, in myriadths |
| NumberConversion.MultiplyAmountByRateError | src/utils/NumberConversion.ts:18-21 | The result is in whole cents and within 0.0051 + abs(rate)/20000 + abs(amount)/200000 + 1/(4*10^9) of amount times rate |
| NumberConversion.MultiplyAmountByRateMonotone | src/utils/NumberConversion.ts:18-21 | For a rate that is not negative, a larger amount never converts to less |
| NumberConversion.ConvertedTie | src/utils/NumberConversion.ts:18-21 | 10.00 at a rate of 1.2345 is 12.35, and -10.00 is -12.35 |
| NumberConversion.RateOneIsIdentityOnCents | src/utils/NumberConversion.ts:18-21 | Rate 1 changes nothing if and only if the amount is in whole cents |
| Locking.Lock.Acquire | src/utils/lock/Lock.ts:16-43 | Resolves at once exactly on a free lock, otherwise the caller joins the end of the wait list; the lock is held either way |
| Locking.Lock.Release | src/utils/lock/Lock.ts:45-50 | Frees the lock and leaves one more release event pending, whoever calls it |
| Locking.Lock.TryAcquire | src/utils/lock/Lock.ts:28-39 | A listener resolves exactly on a free lock, takes it, and removes itself |
| Locking.Lock.EmitRelease | src/utils/lock/Lock.ts:47 | Over all listeners of one event at most one resolves: the first, and only if the lock was free; the others stay in order |
| Locking.RemoveFirstListener | src/utils/lock/Lock.ts:31 | Removing a listener by value, searching from the end, drops the first waiter when listeners are distinct |
| Locking.LockRegistry.CreateLock | src/utils/lock/index.ts:9-17 | One shared lock per key, the same for every later call, and never one lock for two keys |
| RequestProtocol.InvNext | src/services/xero/http/HttpClient.ts:95-127 | Every step of the request protocol keeps exclusion, "held iff somebody holds", the wait list, no lost wake-up, order and accounting |
| RequestProtocol.ExclusionInEveryRun | src/services/xero/http/HttpClient.ts:95-127 | In every run of any number of requests at most one is between its acquire and its last release, although one retried j times releases j+1 times; each acquires once and releases once per call of its action |
| RequestProtocol.WaitersAreServedInOrder | src/utils/lock/Lock.ts:26-49 | In every run nobody waits on a free lock with no event on its way, and waiters get the lock in the order in which they registered |
| RequestProtocol.SpuriousReleaseWakesNobody | src/utils/lock/Lock.ts:28-39 | A release event that fires while a request holds the lock changes no phase and no wait list, and that request stays the only holder |
| RequestProtocol.EveryStepMakesProgress | src/services/xero/http/XeroHttpClient.ts:46-67 | Every step other than an arrival lowers a measure made of retries left and events pending |
| RequestProtocol.NeverStuck | src/utils/lock/Lock.ts:26-49 | While a request is unfinished, some step other than an arrival is possible |
| RequestProtocol.EveryRequestFinishes | src/services/xero/http/HttpClient.ts:95-127 | Once arrivals stop, runs are bounded by the measure and those that cannot go on have finished every request |
| RequestProtocol.NewcomerOvertakesIff | src/utils/lock/Lock.ts:16-24 | In every state, a newcomer gets the lock while an earlier request waits if and only if it arrives when the lock is free and somebody waits, which is between a release and its event |
| RequestProtocol.StepKeepsOrderIff | src/utils/lock/Lock.ts:16-49 | A step keeps the order of arrival if and only if it does not overtake, and an order once lost is never restored |
| RequestProtocol.FirstComeFirstServedIff | src/utils/lock/Lock.ts:16-49 | In every run, those who got the lock and then those who wait are in order of arrival if and only if no arrival overtook; every request is among them |
| RequestProtocol.OvertakingIsUnbounded | src/utils/lock/Lock.ts:26-49 | For every n there is a run in which n newcomers come and finish while one request goes on waiting, even if each release event fires before the next reply |
| RequestProtocol.PassedOverIsReachable | src/utils/lock/Lock.ts:45-50 | The state in which overtaking can begin is reached from the idle lock by two arrivals and one reply |
| RequestProtocol.ArrivalInsideUnwindingBreaksExclusion | src/services/xero/http/HttpClient.ts:122-124 | In any state that satisfies the invariant and has a retried request, arrivals between the releases of its unwinding would break exclusion |
| RetryPolicy.ComputeSecondsToWait | src/services/xero/http/HttpClient.ts:150-168 | The step-by-step adjustment equals its closed form for every header, missing, NaN and infinite included; the check for a wait that is not positive can never succeed |
| RetryPolicy.WaitsLongEnough | src/services/xero/http/HttpClient.ts:150-185 | The client sleeps at least its minimum if and only if the wait fits into a timer, and one millisecond otherwise |
| RetryPolicy.SleepMeaning | src/services/xero/http/HttpClient.ts:150-185 | The header's own seconds are waited from ten on, a minute for less or for no number, and the client's extra seconds on top |
| RetryPolicy.LevelAccounting | src/services/xero/http/HttpClient.ts:95-127 | From any level on: no acquire, and one call and one release for each level entered |
| RetryPolicy.RequestAccounting | src/services/xero/http/XeroHttpClient.ts:46-67 | One acquire, at most five calls and as many releases as calls, for every sequence of replies |
| RetryPolicy.ReleasesComeLast | src/services/xero/http/HttpClient.ts:122-124 | No call or sleep follows a release of the same request |
| RetryPolicy.EveryRetryWaitsIff | src/services/xero/http/XeroHttpClient.ts:131-160 | Every retry is preceded by at least the client's minimum wait if and only if all Retry-After values that retries go by fit into a timer |
| RetryPolicy.RetriesMeaning | src/services/xero/http/HttpClient.ts:149-186 | The number of retries is the length of the longest run of 429s at the start |
| RequestTraces.LevelsFlattened | src/services/xero/http/HttpClient.ts:95-127 | Nested levels do one after another: k calls with their sleeps, what the levels after them do, then k releases |
| RequestTraces.StepTrace | src/services/xero/http/XeroHttpClient.ts:46-67 | Each event of a run adds to what a request has done exactly its own effects on that request |
| RequestTraces.RequestDoesWhatItsClientDoes | src/services/xero/http/HttpClient.ts:95-127 | In every run, whatever other requests do in between, a finished request has acquired, called, slept and released exactly as the client's levels do for the same replies, and an unfinished one has done a first part of it |
| HttpClients.HttpClient.MakeSafeRequest | src/services/xero/http/HttpClient.ts:95-127 | Each recursion level returns the outcome of the replies from its level on, and its effects are exactly those of that level and the ones nested in it |
| HttpClients.HttpClient.HandleFailedRequest | src/services/xero/http/HttpClient.ts:129-191 | Which error each status becomes, and for a 429 the sleep followed by the nested level |
| HttpClients.HttpClient.Request | src/services/xero/http/HttpClient.ts:95-127 | A whole request: its outcome in closed form, and its complete effects |
| HttpClients.RetryLimitIffFiveLimited | src/services/xero/http/HttpClient.ts:96-98 | The retry-limit error if and only if the first five replies are all 429s |
| HttpClients.RetriesAreTransparent | src/services/xero/http/HttpClient.ts:117-127 | Below the limit the caller sees what the last reply alone would give, if and only if there was no retry or the value is not falsy (other than undefined) |
| HttpClients.LastReplyDecides | src/services/xero/http/HttpClient.ts:129-191 | After any number of 429s below the limit: the error of each status (401, 403, 404, any other), of a missing response and of a foreign exception, and what a value becomes |
| HttpClients.WaitsFifteenSeconds | src/services/xero/http/HttpClient.ts:194-197 | This client waits fifteen seconds at least if and only if the wait fits into a timer |
| XeroHttpClients.XeroHttpClient.MakeRequest | src/services/xero/http/XeroHttpClient.ts:46-85 | Each level returns the outcome of the replies from its level on with its own response type, and its effects are exactly those of that level and the nested ones |
| XeroHttpClients.XeroHttpClient.HandleFailedRequest | src/services/xero/http/XeroHttpClient.ts:87-169 | Which error each failure becomes; a 404 yields nothing; the nested level runs without a response type |
| XeroHttpClients.XeroHttpClient.MakeClientRequest | src/services/xero/http/XeroHttpClient.ts:46-85 | A whole request: its outcome in closed form, and its complete effects |
| XeroHttpClients.RetryLimitIffFiveLimited | src/services/xero/http/XeroHttpClient.ts:46-49 | The retry-limit error if and only if the first five replies are all 429s |
| XeroHttpClients.RetriesAreTransparent | src/services/xero/http/XeroHttpClient.ts:69-84 | Below the limit the caller sees what the last reply alone would give, the body unwrapped once, if and only if there was no retry or the last reply is neither a 400 with a response type nor a falsy value |
| XeroHttpClients.SuccessAndNotFoundAreTransparent | src/services/xero/http/XeroHttpClient.ts:125-162 | Success and 404 are always transparent, after any number of retries below the limit |
| XeroHttpClients.LastErrorDecides | src/services/xero/http/XeroHttpClient.ts:94-168 | After any number of 429s below the limit: 404 gives undefined, 403 forbidden, other statuses their message, and a 400 its validation message only when it comes first and a response type is given |
| XeroHttpClients.LastValueDecides | src/services/xero/http/XeroHttpClient.ts:69-84 | What a returned value gives: the response itself without a response type; with one, an error for a missing response or body; undefined for a falsy value after a retry |
| XeroHttpClients.BodyDecides | src/services/xero/http/XeroHttpClient.ts:83-84 | The entities under the response type's name with a small first letter if truthy, and those under "items" otherwise |
| XeroHttpClients.InvoicesAreFound | src/services/xero/http/XeroHttpClient.ts:215-217 | For "Invoices" the body's "invoices" are returned |
| XeroHttpClients.WaitsTenSeconds | src/services/xero/http/XeroHttpClient.ts:226-228 | This client waits ten seconds at least if and only if the wait fits into a timer |
| Documents.GetAccountingItemModel | src/services/xero/client/Client.ts:708-774 | The request sent, refused only without line items; its line total is that of the line items plus the fees charged |
| Documents.ModelTotal | src/services/xero/client/Client.ts:730-762 | The line total of a request is that of its line items plus the fees that are charged |
| Documents.FallbackSendsTheSameRequest | src/managers/xero-entities/Manager.ts:576-587 | The item data of the second attempt produces the same request as the first |
| XeroEntities.TryFallbackItemData | src/managers/xero-entities/Manager.ts:576-587 | A second attempt is made for exactly three failures, with item data that produce the same request; every other failure is passed on |
| XeroEntities.BillRequestShows | src/managers/xero-entities/Manager.ts:632-681 | The content sent for a bill: its own header fields; each line with its item's amount, tax, tracking and own account code, or the general account; the fees line, its account, tracking and description |
| XeroEntities.CreditNoteRequestShows | src/managers/xero-entities/Manager.ts:683-722 | The content sent for a credit note: its header fields and one line for each item, and no fees line |
| XeroEntities.PaymentsAreShown | src/managers/xero-entities/Manager.ts:302-312 | One payment for each, on its own date and bank account, of amount and fees; without sign for a credit note |
| XeroEntities.LockedUntilNextDay | src/managers/xero-entities/Manager.ts:724-744 | A document is in a locked period if and only if it is dated less than a full day after one of the two lock dates |
| XeroEntities.AttachAllMeaning | src/managers/xero-entities/Manager.ts:272-291 | Attachments end as the existing ones followed by what is new, and as the union of the names |
| XeroEntities.AttachAllMissing | src/managers/xero-entities/Manager.ts:276 | Uploading only the missing files gives the same attachments as uploading all of them |
| XeroEntities.RepeatedRunUploadsNothing | src/managers/xero-entities/Manager.ts:272-291 | With the same files a second run has nothing to upload |
| XeroEntities.GrownAttachmentsAreBounded | src/managers/xero-entities/Manager.ts:280-284 | However a run ends, existing attachments stay in place, and a document that got a file has at most ten |
| XeroEntities.CreateDocument | src/managers/xero-entities/Manager.ts:208-220 | With its second attempt included, a document is created if and only if it has lines, the call gets through and its first request is acceptable |
| XeroEntities.UpdateDocument | src/managers/xero-entities/Manager.ts:254-269 | The content becomes the request, or stays when Xero refuses the date; the reasons for failing |
| XeroEntities.DeletePayments | src/managers/xero-entities/Manager.ts:249-251 | Deletes the payments read, in order; an outage leaves a tail of them |
| XeroEntities.UploadFiles | src/managers/xero-entities/Manager.ts:272-291 | Uploads the missing files in input order, a prefix of them on an outage, none above the limit |
| XeroEntities.CreatePayments | src/managers/xero-entities/Manager.ts:297-315 | Appends the payments in order; an outage leaves a prefix of them |
| XeroEntities.ReconcileBill | src/managers/xero-entities/Manager.ts:222-270 | When an existing bill is left alone, refused, or stripped of its payments and updated; reconciled payments are never touched |
| XeroEntities.CreateNewBill | src/managers/xero-entities/Manager.ts:205-220 | The effect of a run for a url that no bill has: nothing in a locked period, otherwise the new bill with its files and payments |
| XeroEntities.UpdateExistingBill | src/managers/xero-entities/Manager.ts:221-318 | The effect of a run for an existing bill, in and out of locked periods |
| XeroEntities.CompletedBillIsShown | src/managers/xero-entities/Manager.ts:177-318 | A completed run in terms of the bill asked for: content, lines and accounts, payments kept and made, attachments as a union, and which bills are left alone |
| XeroEntities.CreateOrUpdateBill | src/managers/xero-entities/Manager.ts:177-318 | The whole effect of a run: only this bill changes; on completion the document shows the bill asked for (header, lines booked to their own accounts, fees, payments, files), unless it is locked, refused for its date, or left alone for a reason that is spelled out; payments are old ones or have new ids; reconciled payments stay in every run, failed ones included; in a locked period no payment is deleted and no content changes; it fails only for the reasons listed |
| CreditNotes.ReconcileCreditNote | src/managers/xero-entities/Manager.ts:411-442 | When an existing note is left alone or stripped of its payments and updated, whether or not they are reconciled |
| CreditNotes.CreateNewCreditNote | src/managers/xero-entities/Manager.ts:369-410 | The effect of a run for a number that no note has |
| CreditNotes.UpdateExistingCreditNote | src/managers/xero-entities/Manager.ts:403-489 | The effect of a run for an existing note, in and out of locked periods |
| CreditNotes.CompletedNoteIsShown | src/managers/xero-entities/Manager.ts:369-489 | A completed run in terms of the note asked for |
| CreditNotes.CreateOrUpdateCreditNote | src/managers/xero-entities/Manager.ts:369-489 | The whole effect of a run on a credit note, completed or failed; on completion the document shows the note asked for, with the same exceptions as for bills except that batch and reconciled payments are not looked at |
| CreditNotes.ReconciledPaymentsOfCreditNotesAreLostIff | src/managers/xero-entities/Manager.ts:420-424 | Reconciled payments survive a completed run if and only if the period is locked or the note is not live and settled |
| CreditNotes.DeleteDocument | src/managers/xero-entities/Manager.ts:324-353 | Deleting a bill (or, by number, a credit note): a settled document with a reconciled payment is refused untouched; otherwise settled payments go and the document is voided; nothing else changes |
| ReExport.OneRunChangesNothing | src/managers/xero-entities/Manager.ts:177-318 | A run on an up-to-date, balanced document leaves its state unchanged, in or out of a locked period |
| ReExport.BillSecondRunIff | src/managers/xero-entities/Manager.ts:177-318 | For every state before, new or existing, locked or not: a second run changes nothing if and only if `BillRepeats` holds of that state; otherwise all payments are made again, or, with none to make, the old ones are deleted |
| ReExport.CreditNoteSecondRunIff | src/managers/xero-entities/Manager.ts:369-489 | The same for credit notes, with their own condition and what the second run leaves otherwise |
| ReExport.BalancedRequestRepeatsIff | src/managers/xero-entities/Manager.ts:229-251 | For balanced payments on a live document: the condition is that it was skipped, had no payments, was settled, or (bills only) had payments of total zero |
| ReExport.RevertingSecondRunIff | src/managers/xero-entities/Manager.ts:177-318 | With a first payment taken back before each run: for every state before, the second run changes nothing if and only if `RevertingBillRepeats` holds of that state |
| ReExport.BillReExportChangesNothing | src/managers/xero-entities/Manager.ts:177-318 | Any number of completed runs leave a balanced bill that is up to date exactly as it is: lines, payments in order, attachments |
| ReExport.CreditNoteReExportChangesNothing | src/managers/xero-entities/Manager.ts:369-489 | The same for credit notes |
| ReExport.NewDocumentStays | src/managers/xero-entities/Manager.ts:177-318 | A balanced document that a first run created is left as it is by any number of later runs |
| ReExport.LaterBillRunIff | src/managers/xero-entities/Manager.ts:177-318 | On the ledger, whatever it held: a completed later run finds the bill of the first one, and leaves all documents as the first one did if and only if the condition holds |
| ReExport.LaterNoteRunIff | src/managers/xero-entities/Manager.ts:369-489 | The same for credit notes |
| ReExport.ExportRepeatedly | src/managers/xero-entities/Manager.ts:177-318 | Calling `createOrUpdateBill` any number of times leaves what one call leaves if the condition holds of the documents it starts from, and two calls do not if it fails |
| ReExport.ExportNoteRepeatedly | src/managers/xero-entities/Manager.ts:369-489 | The same for calls of `createOrUpdateCreditNote` |
| ExpenseExport.ExtractLineItems | src/managers/integration/Manager.ts:545-593 | One line for the total or one per line item, in order, and when the sum check fails |
| ExpenseExport.CollectCardPayments | src/managers/integration/Manager.ts:425-472 | No payments, one merged payment, or one per transaction in order; a missing settlement date fails the export |
| ExpenseExport.PlanExport | src/managers/integration/Manager.ts:395-540 | For every expense: a credit note exactly for a negative one, with all header fields; lines and their tax, codes and tracking; the payments of cards, each with its date, account, amount and fees; the balance payment with its fees, or without them for a bulk payment; and why there is no plan |
| ExpenseExport.SettledPaymentsMeaning | src/managers/integration/Manager.ts:599-602 | The filter keeps no payment, exactly the only settled one, or more than one if there are more |
| ExpenseExport.RevertFailedPayment | src/managers/integration/Manager.ts:663-711 | Removes exactly the first payment of the bill, or changes nothing |
| ExpenseExport.ExportExpense | src/managers/integration/Manager.ts:395-543 | An expense that its own data rule out writes nothing; a credit touches only credit notes and anything else only bills, by a run of the matching operation |
| ExpenseExport.RejectedPaymentIsTakenBack | src/managers/integration/Manager.ts:595-611 | If all balance payments were rejected, the bill's first payment is gone after any run, completed or not, of any expense, with cards or without |
| ExpenseExport.ProtectedPaymentsAreKeptIff | src/managers/integration/Manager.ts:595-611 | In every run of an export that gets past taking a payment back: payments that are reconciled or in a locked period are all kept if and only if the expense is not paid from a balance with all its balance payments rejected |
| ExpenseExport.RejectedExportWithoutCards | src/managers/integration/Manager.ts:595-611 | Without cards a completed export of a rejected expense leaves exactly the bill's payments less the first |
| ExpenseDeletion.DeleteExpense | src/managers/integration/Manager.ts:222-230 | Only documents under the deletion url change; the bill found is voided on success and keeps reconciled payments |
| ExpenseDeletion.DeletionUrlIff | src/managers/integration/Manager.ts:1041-1058 | The url used for exporting equals the one used for deleting if and only if the expense is dated from 29 January 2020 on |
| ExpenseDeletion.DeletionFindsTheBillIff | src/managers/integration/Manager.ts:713-717 | A deletion finds the exported bill if and only if the expense is dated from that day on |
| Balance.BillPaymentsTotal | src/managers/xero-entities/Manager.ts:302-305 | Fees summed per payment equal fees summed by kind: the payments total the amounts plus all fees |
| Balance.CreditNotePaymentsTotal | src/managers/xero-entities/Manager.ts:472-485 | The payments of a credit note total the sizes of what each payment moves, fees included |
| Balance.BillFeesTotal | src/managers/xero-entities/Manager.ts:652-654 | The fees line is worth all fees of all payments |
| Balance.BillIsBalancedIff | src/managers/xero-entities/Manager.ts:632-681 | A paid bill is balanced if and only if its payments without fees add up to its line items |
| Balance.CreditNoteIsBalancedIff | src/managers/xero-entities/Manager.ts:683-722 | A credit note is balanced if and only if its absolute payments add up to its line items |
| Balance.AbsSumIff | src/managers/integration/Manager.ts:571-582 | Absolute amounts add up to the absolute sum if and only if all amounts have one sign |
| Balance.ExtractedLinesTotalIff | src/managers/integration/Manager.ts:545-593 | Extracted lines add up to the total if and only if there is a single line or the sizes of the line items do |
| Balance.AcceptedLinesMatchIffOneSign | src/managers/integration/Manager.ts:571-577 | Line items that pass the sum check, with nonzero sum, match the total if and only if they have one sign |
| Balance.ExpenseBillIsBalancedIff | src/managers/integration/Manager.ts:395-540 | A paid expense in whole cents, settled by cards (purchases, or mixed and merged) or by one balance payment, gives a balanced bill if and only if its lines match its total |
| Balance.ExpenseCreditNoteIsBalancedIff | src/managers/integration/Manager.ts:456-504 | Refunds with any fees give a balanced credit note if and only if, with a single line, amount plus fees of all refunds have one sign and, with line items, the sizes of items and refunds agree |
| Balance.MixedRefundIsBalancedIff | src/managers/integration/Manager.ts:442-484 | A settled refund of mixed sign gives a balanced note if and only if, with a single line, its fees or its amounts sum to zero and, with line items, their sizes add up to amount and fees |
| Balance.NegativeExpenseWithLinesAlwaysFails | src/managers/integration/Manager.ts:571-577 | A negative expense without transactions fails the sum check if and only if its line items do not cancel out |
| ExpenseReExport.ExpenseReExportIsSafeIff | src/managers/integration/Manager.ts:395-543 | A paid, settled expense without a bill so far: it can be exported again, and its bill is PAID, if and only if the lines match the total; no payment of it is taken back |
| ExpenseReExport.RefundReExportIsSafeIff | src/managers/integration/Manager.ts:456-504 | A new credit note of refunds can be exported again, and is PAID, if and only if the same condition holds |
| ExpenseReExport.LaterRevertingRunIff | src/managers/integration/Manager.ts:595-611 | On the ledger: when each export takes a payment back, a later one leaves all documents as the first did if and only if the condition holds of the documents before |
| ExpenseReExport.RejectedExportRepeatsIff | src/managers/integration/Manager.ts:595-611 | Without cards that condition is: the bill had one payment at most |
| ExpenseReExport.OnePaymentFewer | src/managers/integration/Manager.ts:595-611 | Each completed export of such an expense leaves the payments less one more |
| ExpenseReExport.ExportAgain | src/managers/integration/Manager.ts:395-543 | One more export of any expense on the real ledgers leaves what the first one left if and only if it is the first or the condition holds |
| ExpenseReExport.ExportExpenseRepeatedly | src/managers/integration/Manager.ts:395-543 | Any number of completed exports of any expense leave bills and credit notes as one export does if the condition holds of the documents they start from, and two do not if it fails; n exports of an expense without cards whose balance payments were all rejected leave its bill's payments less the first n |
| Names.NormalizedIsJoinedWords | src/services/xero/client/Client.ts:845-851 | A normalised name is the words of the unquoted name joined by single spaces |
| Names.NormalizeNameIsIdempotent | src/services/xero/client/Client.ts:845-851 | Normalising twice is normalising once |
| Names.SameNormalFormIffSameWords | src/services/xero/client/Client.ts:845-851 | Two names are identified if and only if they have the same words |
| Names.NormalizedHasNoQuotes | src/services/xero/client/Client.ts:847 | No normalised name contains a double quote |
| Names.NormalizedIsTrimmed | src/services/xero/client/Client.ts:849 | No normalised name starts or ends with white space |
| Names.EscapingNeedsNoTrim | src/services/xero/client/Client.ts:830-833 | The trim after escaping never removes anything |
| Names.EscapeRoundTrip | src/services/xero/client/Client.ts:830-840 | Unescaping an escaped name gives its normal form, for every string |
| Names.EscapeIsInjectiveOnNormalForms | src/services/xero/client/Client.ts:830-840 | Two names are escaped alike if and only if their normal forms are equal |
| Names.EscapedCharByChar | src/services/xero/client/Client.ts:830-833 | A backslash is added before each backslash, dollar sign and apostrophe of the normal form, and nothing else is changed |
| Names.SeparatesWordsIff | src/services/xero/client/Client.ts:845-851 | A character separates words if and only if it is white space or a line terminator of ECMA-262 |
| BankFeeds.RevertsCloseTheBooks | src/managers/xero-entities/bank-feeds/Manager.ts:28-82 | For every amount and any number of reverts in a row: each swaps the balances, the second restores the original, and the lines cancel out after each odd one |
| BankFeeds.TransactionIdsDiffer | src/managers/integration/Manager.ts:903 | Different entities are sent under different transaction ids, if no balance id contains a colon |
| BankFeeds.StatementMeaning | src/managers/xero-entities/bank-feeds/Manager.ts:28-50 | The balances are not negative, one is zero, they differ by the line's amount, and a negative line is a credit |
| BankFeeds.TransferTransactionId | src/managers/integration/Manager.ts:300 | How a transfer's statement is named |
| BankFeeds.RecordedWithNewRow | src/managers/integration/Manager.ts:836-842 | A row added for an accepted statement, after a lookup that found none, keeps one row per entity and each row's origin in an accepted statement |
| BankFeeds.LostRowsStayLost | src/managers/integration/Manager.ts:821-823 | If Xero rejects duplicates, no row made by a sequence of exports is for a statement accepted before it |
| BankFeeds.StatementExporter.Recover | src/managers/integration/Manager.ts:800-820 | Recovery sends the statement once more, and on success leaves the old connection id stored |
| BankFeeds.StatementExporter.SendStatement | src/managers/integration/Manager.ts:773-834 | At most one statement more, and only a new one if Xero rejects duplicates; its id is received if Xero accepts it at once; which answers change the connections, and to what |
| BankFeeds.RecoveryKeepsTheInvalidId | src/managers/integration/Manager.ts:804-812 | The next export is given the invalid id again if and only if the account has no other connection for the currency |
| BankFeeds.StatementExporter.Record | src/managers/integration/Manager.ts:836-842 | Adds exactly the row of the accepted statement, if and only if a write is left and its id is free |
| BankFeeds.StatementExporter.TryCreateBankStatement | src/managers/integration/Manager.ts:770-843 | At most one statement and one row more, no row without its statement; the row is made if and only if the statement's id is received and free and a write is left after those of a recovery; which runs change the connections, and to what |
| BankFeeds.StatementExporter.ExportEntity | src/managers/integration/Manager.ts:904-937 | An entity that has a row is left alone; success means it has one or was called a duplicate; with nothing in the way, exactly one statement and its row |
| BankFeeds.StatementExporter.ExportCards | src/managers/integration/Manager.ts:901-937 | With nothing in the way, exactly one statement and one row for each card payment, in order, under its own transaction id, of amount and fees |
| BankFeeds.StatementExporter.EnsureConnection | src/managers/integration/Manager.ts:755-768 | A stored connection is reused, a missing one is stored, an archived account's is forgotten |
| BankFeeds.StatementExporter.ExportForTransfer | src/managers/integration/Manager.ts:258-310 | A transfer that has a row is left alone; otherwise at most one statement, of the negated amount, and success means a row or a duplicate; with a connection at hand, an accepted statement gets its row if and only if a write is left and its id is free |
| BankFeeds.StatementExporter.ExportForExpense | src/managers/integration/Manager.ts:845-984 | Every new statement is for one of the expense's payments, fees included, and none is sent unless payments are due; with a connection at hand and nothing in the way, exactly one statement and row for each card payment, or for the settled balance payment; an expense with an old-style row is left alone; otherwise success means that every payment due has its row, unless one was called a duplicate |
| BankFeeds.RunExports | src/managers/integration/Manager.ts:845-984 | Over any sequence of exports by any accounts, with a database failure after any number of writes of each export and answers of Xero lost: at most one row per entity, each from Xero accepting that entity's own id during these exports; if Xero rejects duplicates, one statement per id, and no row for a statement it already had |
| StatementsMatch.PurchasesMatch | src/managers/integration/Manager.ts:905-917 | The payments on the bill of settled purchases have the amounts of their bank statements, one by one |
| StatementsMatch.RefundsMatchStatements | src/managers/integration/Manager.ts:905-917 | The payments on the credit note of settled refunds have the sizes of their bank statements |
| StatementsMatch.BalancePaymentMatches | src/managers/integration/Manager.ts:637-658 | A settled balance payment for one expense pays its bill on its date, from the account of its currency, the amount of its statement, fees included; a bulk payment pays the expense's own total |
| StatementsMatch.BalancePaymentInCents | src/managers/integration/Manager.ts:637-658 | In whole cents that is amount plus fees exactly, or the total |
| StatementsMatch.BankFeesAreCharged | src/managers/integration/Manager.ts:639-647 | The fees of such a payment are charged on the bill's last line, as bank transfer fees |
| BankFeedStore.FirstStatement | src/stores/bank-feeds/PgStore.ts:93-122 | Finds nothing if and only if no row matches; an empty Xero id adds no condition |
| BankFeedStore.FirstStatementMeaning | src/stores/bank-feeds/PgStore.ts:93-122 | A statement is found if and only if a row of the account is for that entity and, when a Xero id is asked for, under that id |
| BankFeedStore.FirstConnectionMeaning | src/stores/bank-feeds/PgStore.ts:12-31 | The lookup by currency gives the account's first connection for it |
| BankFeedStore.CaseIsIgnored | src/stores/bank-feeds/PgStore.ts:18-22 | The currency is looked up whatever its case |
| BankFeedStore.ConnectionIdsMeaning | src/stores/bank-feeds/PgStore.ts:33-46 | The ids listed are those of the account's connections |
| BankFeedStore.WithoutConnectionMeaning | src/stores/bank-feeds/PgStore.ts:48-60 | A deletion removes exactly the account's rows with that id |
| BankFeedStore.Store.CreateConnection | src/stores/bank-feeds/PgStore.ts:62-91 | Stores the connection if and only if the database answers and its id is new |
| BankFeedStore.Store.DeleteConnectionForAccount | src/stores/bank-feeds/PgStore.ts:48-60 | Removes exactly the account's rows with that id |
| BankFeedStore.Store.CreateStatement | src/stores/bank-feeds/PgStore.ts:164-197 | Stores the row if and only if the database answers and its statement id is new |
| FeedDisconnection.HandledBounds | src/managers/integration/Manager.ts:333-352 | One call handles the listed connections up to and including the first that fails to close, and at least one |
| FeedDisconnection.Disconnector.CloseAll | src/managers/integration/Manager.ts:333-352 | Exactly that prefix is removed, or as much of it as the database still allows; which failure is reported: the lost database, or a connection that does not close |
| FeedDisconnection.Disconnector.DisconnectBankFeed | src/managers/integration/Manager.ts:312-353 | A demo, unauthorised or unreachable organisation keeps all its connections; any other loses exactly that prefix |
| FeedDisconnection.RemovingAPrefix | src/stores/bank-feeds/PgStore.ts:33-60 | Deleting the first k listed connections one by one leaves the list without them and every other account's connections in place |
| FeedDisconnection.Disconnector.DisconnectUntilEmpty | src/managers/integration/Manager.ts:312-353 | An account with n connections has none after at most n calls, whatever fails remotely, unless the database is lost before n deletes; then exactly the deleted ones are gone; other accounts keep theirs |
| TenantTokens.LikeWithWildcardsFirst | src/stores/access-tokens/PgStore.ts:105 | A pattern of '%', '_' and plain text asks for at least one character before that text |
| TenantTokens.LikeDemoMeaning | src/stores/access-tokens/PgStore.ts:105 | An id matches '%_demo' if and only if it has five characters or more and ends in "demo" |
| TenantTokens.TokenStore.Create | src/stores/access-tokens/PgStore.ts:13-40 | Refused if and only if the id does not end in "_demo" and another account, whose id does not end in "demo" after a first character, has the tenant; the error names such an account |
| TenantTokens.TokenStore.UpdateToken | src/stores/access-tokens/PgStore.ts:42-66 | Replaces the token of exactly the account's row for that tenant, or fails without one |
| TenantTokens.TokenStore.Delete | src/stores/access-tokens/PgStore.ts:87-97 | Removes exactly the rows of the tenant, of every account |
| TenantTokens.ConnectionManager.CreateAccessToken | src/managers/xero-connection/Manager.ts:123-132 | The table changes as the store's rules say, for this account only |
| TenantTokens.ConnectionManager.GetAccessToken | src/managers/xero-connection/Manager.ts:35-53 | A stored token with more than 60 seconds left is returned and nothing changes; any other is replaced by a refresh if one is possible and succeeds, and never returned otherwise |
| TenantTokens.ConnectionManager.DisconnectActiveTenant | src/managers/xero-connection/Manager.ts:68-85 | The tenant's rows are gone whatever happens to the token and to the remote call |
| TenantTokens.AfterKeepsExclusive | src/stores/access-tokens/PgStore.ts:99-118 | Every operation keeps: of two accounts sharing a tenant, at least one matches '%_demo' |
| TenantTokens.ExclusiveInEveryRun | src/stores/access-tokens/PgStore.ts:99-118 | So does every sequence of creations, refreshes and disconnects |
| TenantTokens.WildcardAccountsCanBeJoined | src/stores/access-tokens/PgStore.ts:105-115 | An ordinary account can join an account's tenant if and only if that account matches '%_demo', and be joined by it if and only if its id ends in "_demo" |
| TenantTokens.SuffixExclusiveWithoutWildcards | src/stores/access-tokens/PgStore.ts:99-118 | Where the two readings agree, sharing a tenant takes an id that ends in "_demo" |
| Counterexamples.UnbalancedBillIsAccepted | src/managers/integration/Manager.ts:571-577 | A card payment of 100 with items of 120 and -20 is accepted, unbalanced, and unsafe to export again |
| Counterexamples.PartlyPaidBillIsPaidAgain | src/managers/xero-entities/Manager.ts:229-251 | A bill of 200 with a payment of 100 and a balanced payment of 200: two runs leave payments of 100, 200 and 200 |
| Counterexamples.PartlyPaidCreditNoteLosesAPayment | src/managers/xero-entities/Manager.ts:420-424 | A credit note of 200 with a payment of 100 and a new one of 100: PAID after one run, with one payment after the next |
| Counterexamples.MixedRefundIsUnbalanced | src/managers/integration/Manager.ts:442-484 | Cards of 5, with a fee of 2, and -15 give an unbalanced credit note |
| Counterexamples.ItemisedMixedRefundIsBalanced | src/managers/integration/Manager.ts:442-484 | The same cards with items of -10 and 2 give a balanced one |
| Counterexamples.NegativeExpenseFails | src/managers/integration/Manager.ts:571-577 | An expense of -10 with one item of -10 and no cards fails the sum check |
| Counterexamples.ReconciledPaymentOfCreditNoteIsLost | src/managers/xero-entities/Manager.ts:420-424 | A settled credit note of 100 loses its reconciled payment |
| Counterexamples.RejectedReconciledPaymentIsDeleted | src/managers/integration/Manager.ts:595-611 | An expense of 100 whose balance payment was rejected: the reconciled payment of its PAID bill is removed |
| Counterexamples.BadRequestAfterRetryIsRaw | src/services/xero/http/XeroHttpClient.ts:107-110 | A 400 with a validation error is reported with its message when it comes first, and thrown raw when it comes after a 429 |
| Counterexamples.LongRetryAfterIsNotWaitedFor | src/services/xero/http/HttpClient.ts:150-185 | A Retry-After of thirty days makes both clients retry after one millisecond |
| Counterexamples.LostRowIsNeverMade | src/managers/integration/Manager.ts:836-842 | A transfer exported twice, the database failing after Xero accepts and back for the second export: one statement, and no row |
| Counterexamples.TransfersWithColonsCanCollide | src/managers/integration/Manager.ts:300 | Two transfers with colons in their balance ids share a transaction id |
| Counterexamples.XdemoIsJoined | src/stores/access-tokens/PgStore.ts:105-115 | "xdemo" matches the pattern but lacks the suffix, and an ordinary account can join its tenant |

## Left out

- Floating-point representation error, and `toFixed` of numbers from 10^21 on: amounts are exact reals.
- `latinize`: library behaviour; `escapeParam` is modelled without transliteration.
- UTF-16 surrogates: strings are sequences of characters, and every character that names and patterns single out is one unit.
- MAX_LISTENERS: the warning above 20 waiters changes no behaviour.
- HTTP transport, token decoding, scopes, logging and the wording of errors; remote answers are parameters or scripts.
- Contacts, bank accounts, exchange rates, tracking categories and the default accounts: what their lookups give is a parameter, and failures of these lookups are not modelled.
- Several payments of one expense or several runs at the same time, and a crash in the middle of a run followed by a restart: the code does not promise anything there.
- XeroEntities.TryFallbackItemData: returns the changed item data instead of assigning to its argument; nothing reads the argument afterwards.
- ExpenseExport.RevertFailedPayment: covers the bill's payments; the rejected statement line and the two transactions that cancel out, made when an old-style statement exists, are not modelled, and the payment is assumed to be found by its id.
- CreditNotes.DeleteDocument: models `deleteBill` and `deleteCreditNote` (lines 491-520) in one method, with the status filter of the bill query as its parameter.
- Balance.ExpenseBillIsBalancedIff: needs whole cents, fees that are not negative and an account for fees; off whole cents grouping alone can unbalance a bill.
- The `totalAmount`, `currency` and exchange-rate fields that are passed along but not read by the modelled requests; line quantities (always 1), tax arithmetic inside Xero, and the payment's currency rate.
- `createOrUpdateAccountTransaction`: the same attachment and fallback steps as for bills, without payments.
- `initialSynchronization`, tax rates, the chart of accounts and the accounts table: simple maps and inserts.
- `deleteCreditNote` is never called when an expense is deleted; `deleteExpense` is modelled as it is, for bills only.
- The connection that a statement is sent through, new or old: only the stored connections are modelled.
- The polling for a new feed connection, and the start and end dates of statements.
