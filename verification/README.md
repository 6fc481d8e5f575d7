# Verified model of Universal Paywall

Dafny models of the parts of Universal Paywall that carry state, interleaving or exact
arithmetic, with proofs of what they keep in every run. `dafny verify dfyconfig.toml` checks
everything.

The system takes small payments for HTTP resources. A *middleware* (the paywall) prices a
resource, checks a signed transfer authorization and remembers its nonce. A *facilitator* settles
operations: it quotes a binding (who pays whom how much for what), submits the payment to a chain
once, and hands out one signed receipt. A second facilitator service batches metered charges per
payer. On chain, a factory deploys one vault per developer and each withdrawal from it is split
between the developer and the platform.

## How the model is built

Code that changes objects is modelled by classes with the same fields. Each `await` is a point
where anything else may run, so an asynchronous function becomes one method per stretch between
two awaits. Every such method is proved equal to a function on values ("its slice"); a transition
system runs those functions in any order, together with the clock, the chain and restarts; the
theorems are about all runs of that system. The files named `...Answers` say, without naming those
functions, what every step of a run leads to.

| files | what they model |
|---|---|
| `SessionState`, `SessionProtocol`, `SessionSafety`, `SessionTheorems`, `SessionOutcomes`, `SessionChecks`, `SessionMeaning`, `SessionAnswers`, `SessionService` | settlement of an operation: slices, all interleavings and restarts, the invariant, safety, what states on disk mean, the checks before a submission and what they mean, what every answer leads to, the service and store objects |
| `KeyedLock` | `#withLock`, which runs bodies with one key one at a time |
| `Canonical`, `CanonicalDecoder`, `CanonicalTheorems`, `CanonicalOrder`, `CanonicalText`, `Operation` | the sorted-key JSON printer, a decoder for its text, its key order, the text spelled out, and the texts the conflict checks compare |
| `ReplayStore`, `Verifier` | the nonce store, and the verifier that feeds it |
| `ScrubText`, `ScrubGraph` | redaction of keys and signatures in strings, and in cyclic object graphs |
| `Ledger`, `Facilitator`, `FacilitatorAnswers` | the charge ledger, batches, overlapping flushes, and what each call does |
| `FactoryCache`, `CacheAnswers`, `PaywallCache` | the factory-state cache in front of the verifier: all interleavings, which requests get through, and the objects |
| `Price` (with `Decimal`) | exact parsing of dollar prices |
| `Vault`, `VaultRuns`, `VaultAnswers` | the fee split on chain, whole runs of deposits, rate changes and withdrawals, and what each call does |

What is assumed of the environment, and where it is written:

- `SessionProtocol.Enabled`: chain reads are truthful; when the reconcile of a settle call reads
  the chain, every earlier submission has landed or never will (reads by `getPaymentStatus` need
  no such assumption); a settler that answers "settled" names a transaction that landed. A
  submission may otherwise land at any later time, or never, whatever the settler answered.
- `Vault.Address`: different developers get different vault addresses, and a vault has no key.
- `FactoryCache.Enabled`: the clock does not run back, and a vault on chain stays once it is set.
- `KeyedLock`: a body does not take its own key again.
- `Facilitator`: the settler reports failure and does not throw.

## Where the code and its words differ

- The comment above `canonicalJson` says keys are sorted by code point. The code sorts by UTF-16
  code unit, which section 3.2.3 of RFC 8785 asks for. The model follows the code; `AgreesIff` says
  exactly on which texts the two orders agree.
- A payment's `state` is no record of progress. A settler's late "uncertain" or failure overwrites
  `settled`; `SettledIsFinalIff` says exactly when `settled` is final. A rejected payment may turn out
  to be paid; `RejectedGetsPaidIff` and `RejectedGetsReceiptIff` say exactly when, and when it gets
  its receipt nevertheless. The receipt is what stays.
- A retry of a paid operation gets its receipt only until the binding expires (`RetryPaysIff`); after
  that only a status call returns it (`StatusGetsReceipt`).
- `NonceStore.checkAndInsert` fetches the payer's inner map before it makes room. When making room
  takes that payer's last entry, the new nonce goes to a map that is no longer in the store and
  `#count` is one too high. `NonceStore.CheckAndInsert` says exactly when. The model calls count
  minus entries the *drift*; `LostAtTheCap` and `LostIf` state the condition before the call,
  `LoseAnInsert` is an instance, `CapacityLoopEndsIff` shows that the capacity loop ends exactly while
  the drift is below `maxEntries`, and the methods require that.
- `flushDue` and `flushAll` stop at the first payer whose vault lookup fails; the payers after it
  are not flushed in that pass (`FlushPass`).

## Model

| member | source | states |
|---|---|---|
| SessionTheorems.AtMostOnePayment | packages/facilitator/src/session-service.ts:276-441 | in every interleaving of settle and status calls, lost answers and restarts, no two submissions of one operation land |
| SessionTheorems.OneReceiptForever | packages/facilitator/src/session-service.ts:321-441 | any two receipts returned for an operation, early and late in a run, across restarts, are the same value, were on disk when returned, and carry the binding of the quote stored first |
| SessionTheorems.EveryReceiptIsTheStoredOne | packages/facilitator/src/session-service.ts:659-696 | a returned receipt is the one on disk, names a transaction that landed, and copies the quoted binding field by field |
| SessionTheorems.EverySubmissionIsTheStoredPayment | packages/facilitator/src/session-service.ts:371-433 | whatever was ever submitted for an operation is the payment stored first for it, under the binding quoted first |
| SessionTheorems.WriteAhead | packages/facilitator/src/session-service.ts:371-433 | while the disk has no record, or one in state created, nothing was ever submitted, also after a crash |
| SessionTheorems.SubmissionsAreSeparated | packages/facilitator/src/session-service.ts:388-433 | between any two submissions of an operation a reconcile answered "not settled" |
| SessionTheorems.NoSubmissionAfterReceipt | packages/facilitator/src/session-service.ts:386-433 | once a receipt is on disk no later step of any run submits the operation again |
| SessionOutcomes.RetryPaysIff | packages/facilitator/src/session-service.ts:359-386 | a retry of a paid operation that passes the other checks returns the stored receipt before any await exactly while its expiry is ahead and within the quote lifetime; otherwise it fails with the expiry error, and nothing else changes |
| SessionOutcomes.StatusGetsReceipt | packages/facilitator/src/session-service.ts:321-337 | a status call returns the stored receipt at any time, also after the expiry: at once, or after a read that does not fail |
| SessionOutcomes.LandedIsRecoverable | packages/facilitator/src/session-service.ts:321-355 | in every reachable state, a landed payment that is settling or failed_retryable gets its receipt on disk by one status call whose read finds it |
| SessionTheorems.LaterWorld | packages/facilitator/src/session-service.ts:276-441 | receipts and quotes on disk, and the list of returned receipts, only grow along a run |
| SessionChecks.ExactSubmissionsMatch | packages/facilitator/src/session-service.ts:487-498 | in every run, whatever exact payment was submitted pays the quoted amount from the quoted payer to the quoted payee |
| SessionChecks.StakeSubmissionsWereAllowed | packages/facilitator/src/session-service.ts:443-485 | in every run, each stake submission was made by a call that found its vault trusted and its session to cover the binding and scope, then waited for nothing but its policy, and read a policy that matches the session, is neither revoked nor expired, and allows the amount by ceiling, remaining cap and funds |
| SessionChecks.StakeNeedsThePolicy | packages/facilitator/src/session-service.ts:472-485 | only a policy read that allows the amount hands a stake payment to the settler |
| SessionChecks.PolicyNeedsTrust | packages/facilitator/src/session-service.ts:443-472 | only an answer that the vault is trusted, with the session covering binding and scope, makes a call wait for the policy |
| SessionChecks.WaitedSinceTrust | packages/facilitator/src/session-service.ts:450-472 | a call waiting for its policy has done nothing else since that answer |
| SessionOutcomes.SettledIsFinalIff | packages/facilitator/src/session-service.ts:425-441 | a settled state on disk stays settled in every continuation exactly when no settle call is waiting for the settler |
| SessionOutcomes.SettledSurvivesIff | packages/facilitator/src/session-service.ts:430-439 | a settled state survives exactly the steps that are not a settler's answer of uncertain or failure |
| SessionOutcomes.StateCanRegress | packages/facilitator/src/session-service.ts:425-439 | a run in which that happens: the receipt is recorded by a status call while the settler is still to answer, and stays |
| SessionOutcomes.RejectedGetsReceiptIff | packages/facilitator/src/session-service.ts:321-355 | a payment that is rejected without a receipt gets one in some continuation exactly when a status call is out that has read, or may yet read, that it landed |
| SessionOutcomes.RejectedGetsPaidIff | packages/facilitator/src/session-service.ts:436-440 | it is paid in some continuation exactly when its last submission has not died |
| SessionOutcomes.LostForever | packages/facilitator/src/session-service.ts:373-388 | with no such status call out it stays rejected, without a receipt and without another submission, in every continuation |
| SessionOutcomes.RejectedCanBePaid | packages/facilitator/src/session-service.ts:436-440 | a run that ends with the payment rejected, landed and beyond getting a receipt |
| SessionAnswers.SettledAnswerPays | packages/facilitator/src/session-service.ts:430-434 | in every run, the settler's "settled" with a transaction leaves the operation settled with a receipt on disk, and the call returns that receipt: the one that was there before, or else one that names this transaction and time and copies the quoted binding field by field |
| SessionAnswers.SettledReadPays | packages/facilitator/src/session-service.ts:411-418 | so does a reconcile of a settle call that finds the transaction |
| SessionAnswers.FailureIsRecorded | packages/facilitator/src/session-service.ts:436-440 | after "uncertain" the disk says failed_retryable, after a failure rejected, with the reason, a receipt recorded meanwhile stays, and the call fails with that reason |
| SessionAnswers.ThrownIsNotRecorded | packages/facilitator/src/session-service.ts:430-433 | a settler that throws fails the call and changes nothing on disk |
| SessionAnswers.UnknownReadFails | packages/facilitator/src/session-service.ts:411-419 | a reconcile that fails, or finds the payment settled without a transaction, fails the call and changes nothing |
| SessionAnswers.NotSettledGoesOn | packages/facilitator/src/session-service.ts:419-433 | after "not settled", an exact payment is written as settling and handed to the settler exactly if payer, payee (up to letter case) and amount are the binding's; a stake payment goes on to its vault check |
| SessionAnswers.TrustDecides | packages/facilitator/src/session-service.ts:450-472 | a trusted vault whose session covers binding and scope makes the call wait for the policy; anything else fails it with the first reason in order |
| SessionAnswers.PolicyDecides | packages/facilitator/src/session-service.ts:472-485 | a policy that refuses nothing gets the payment written as settling and handed over; any other fails the call |
| SessionAnswers.FirstQuoteStays | packages/facilitator/src/session-service.ts:171-200 | the first valid quote of an operation is on disk with its digest, and no later one changes anything |
| SessionAnswers.JoinedChangesNothing | packages/facilitator/src/session-service.ts:293-299 | a settle call that comes while another runs changes nothing |
| SessionAnswers.UnquotedIsRefused | packages/facilitator/src/session-service.ts:359-370 | an invalid request, one without a quote and one for another binding are refused, in this order, and change nothing |
| SessionAnswers.FirstPaymentSetsOut | packages/facilitator/src/session-service.ts:389-433 | a first, valid, quoted settle call writes its payment as created and then hands it over, waits for the vault check, or fails |
| SessionAnswers.KnownPaymentGoesOn | packages/facilitator/src/session-service.ts:371-423 | another one answers by the record: conflict, receipt, rejection, a reconcile for settling and failed_retryable, and a payment only created sets out again |
| SessionAnswers.FinishedCallLeaves | packages/facilitator/src/session-service.ts:300-300 | the end of a call removes its in-flight entry and nothing else |
| SessionAnswers.StatusAsksIff | packages/facilitator/src/session-service.ts:321-336 | a status call reads the chain exactly for settling and failed_retryable; otherwise it returns the receipt there is and changes nothing |
| SessionAnswers.StatusReadPays | packages/facilitator/src/session-service.ts:325-355 | a status call whose read names a transaction puts the receipt on disk and returns it, and moves no settle call |
| SessionAnswers.OtherReadChangesNothing | packages/facilitator/src/session-service.ts:325-355 | with any other read the record is as it was; the receipt that is there, if any, is returned unless the read failed |
| SessionAnswers.RestartKeepsTheDisk | packages/facilitator/src/payment-store.ts:76-84 | a restart keeps quote and payment as they are on disk and no running call |
| SessionAnswers.TornCallLeavesTheRecord | packages/facilitator/src/session-service.ts:389-400 | a crash between the two writes of a first settle call leaves the payment on disk as created |
| SessionMeaning.SameTextIff | packages/facilitator/src/session-service.ts:453-458 | two addresses are the same exactly when they differ at most in the case of ASCII letters |
| SessionMeaning.SameHexIff | packages/facilitator/src/session-service.ts:462-466 | two hashes are the same when they are so without an 0x in front |
| SessionMeaning.AmountOfDigits | packages/facilitator/src/session-service.ts:407-407 | the amount of a string of digits is the number it denotes |
| SessionMeaning.ExactMatchesIff | packages/facilitator/src/session-service.ts:487-498 | an exact payment matches when it pays the quoted amount from the quoted payer to the quoted payee |
| SessionMeaning.SessionPaysIff | packages/facilitator/src/session-service.ts:453-461 | the five fields in which session and binding must agree, three up to letter case |
| SessionMeaning.ScopeAllowsIff | packages/facilitator/src/session-service.ts:462-471 | session, payment and binding name one workspace, visibility and action, and the session lists the action |
| SessionMeaning.PolicyMatchesIff | packages/facilitator/src/session-service.ts:607-617 | a policy matches a session when facilitator, payee and scope hash are the same up to letter case, and cap, ceiling, expiry and epoch are equal |
| SessionMeaning.PolicyRefusalIs | packages/facilitator/src/session-service.ts:479-484 | what a policy refuses a payment for, in order; the test against the funded balance alone is never the one that fails |
| SessionMeaning.InvalidBindingIs | packages/facilitator/src/session-service.ts:549-553 | a binding expires when its date is none, not ahead, or further ahead than a quote lives |
| SessionMeaning.InvalidRequestIs | packages/facilitator/src/session-service.ts:359-361 | what a settle request is refused for before anything is looked up, in order |
| SessionSafety.StepKeeps | packages/facilitator/src/session-service.ts:276-441 | every step of the service, its callers and the chain keeps the invariant behind the theorems |
| SessionSafety.CrashKeeps | packages/facilitator/src/payment-store.ts:76-84 | a restart, which drops all but the file, keeps it too |
| SessionSafety.TurnKeeps | packages/facilitator/src/session-service.ts:389-428 | so does a crash in a first settle call between writing the new payment and writing it as settling |
| SessionSafety.RunKeeps | packages/facilitator/src/session-service.ts:276-441 | it holds for every operation after every run |
| SessionService.FilePaymentStore.constructor | packages/facilitator/src/payment-store.ts:62-64 | a store on a new file is empty, in memory and on disk |
| SessionService.FilePaymentStore.GetPayment | packages/facilitator/src/payment-store.ts:104-106 | hands out the stored object itself |
| SessionService.FilePaymentStore.PutPayment | packages/facilitator/src/payment-store.ts:108-111 | sets the record and writes everything to disk |
| SessionService.FilePaymentStore.PutQuote | packages/facilitator/src/payment-store.ts:99-102 | sets the quote and writes everything to disk |
| SessionService.FilePaymentStore.Persist | packages/facilitator/src/payment-store.ts:113-134 | the file becomes a snapshot of the current records |
| SessionService.FilePaymentStore.Reload | packages/facilitator/src/payment-store.ts:76-84 | a new process has the file's values in new objects |
| SessionService.SessionPaymentService.CreateQuote | packages/facilitator/src/session-service.ts:171-200 | stores the first quote of an id only, and returns a digest that is the stored quote's |
| SessionService.SessionPaymentService.Settle | packages/facilitator/src/session-service.ts:276-303 | joins a running call with the same fingerprint, refuses one with another, and otherwise starts the operation's slice, leaving all other operations alone |
| SessionService.SessionPaymentService.Begin | packages/facilitator/src/session-service.ts:357-400 | the request, expiry and quote checks, in order, and then the stored payment |
| SessionService.CheckQuote | packages/facilitator/src/session-service.ts:363-370 | comparing digests and canonical texts tells exactly whether the quote is for this very binding |
| SessionService.CheckConflict | packages/facilitator/src/session-service.ts:373-385 | comparing canonical texts tells exactly whether the stored payment is for this binding and by this authorization |
| SessionService.SessionPaymentService.BeginFirst | packages/facilitator/src/session-service.ts:389-400 | a first settle saves its payment as created before anything else |
| SessionService.SessionPaymentService.BeginAgain | packages/facilitator/src/session-service.ts:373-388 | conflicts, the stored receipt, rejection, or a reconcile, in that order |
| SessionService.SessionPaymentService.EnterSettle | packages/facilitator/src/session-service.ts:402-423 | goes to reconcile or to validation, and nowhere with an unknown session |
| SessionService.SessionPaymentService.ValidatePayment | packages/facilitator/src/session-service.ts:422-498 | an exact payment must match its binding before it is submitted; a stake payment awaits the vault check |
| SessionService.SessionPaymentService.SubmitPayment | packages/facilitator/src/session-service.ts:425-433 | the record is on disk as settling when the settler is called |
| SessionService.SessionPaymentService.ResumeReconcile | packages/facilitator/src/session-service.ts:411-423 | settled with a transaction records the receipt, settled without one fails, not settled goes on |
| SessionService.SessionPaymentService.ResumeTrust | packages/facilitator/src/session-service.ts:450-472 | an untrusted vault, a session for another binding or a scope violation ends the call without a submission |
| SessionService.SessionPaymentService.ResumePolicy | packages/facilitator/src/session-service.ts:472-485 | a policy that does not match, is revoked or expired or does not allow the amount ends the call; otherwise the payment is submitted |
| SessionService.SessionPaymentService.ResumeSettle | packages/facilitator/src/session-service.ts:430-441 | settled records the receipt, uncertain and failure save their state and reason, an exception saves nothing |
| SessionService.SessionPaymentService.FailPayment | packages/facilitator/src/session-service.ts:436-440 | the state and reason are saved even over a receipt recorded meanwhile, which stays |
| SessionService.SessionPaymentService.Record | packages/facilitator/src/session-service.ts:659-696 | returns the receipt that is there, or makes and saves the one it returns |
| SessionService.SessionPaymentService.Finish | packages/facilitator/src/session-service.ts:300-300 | the finished call leaves the in-flight map |
| SessionService.SessionPaymentService.GetPaymentStatus | packages/facilitator/src/session-service.ts:321-325 | answers from the record, or starts a reconcile for settling and failed_retryable |
| SessionService.SessionPaymentService.ResumePoll | packages/facilitator/src/session-service.ts:325-355 | a status call may record the receipt while a settle of the operation is suspended; otherwise it reports the record as it is now |
| SessionService.SessionPaymentService.RestartService | packages/facilitator/src/payment-store.ts:76-84 | a restart leaves each operation its file contents and no running call |
| KeyedLock.MutualExclusion | packages/facilitator/src/session-service.ts:135-155 | bodies with the same key never overlap |
| KeyedLock.CallOrder | packages/facilitator/src/session-service.ts:135-155 | they run in call order |
| KeyedLock.SettledUnblocksNext | packages/facilitator/src/session-service.ts:138-145 | the next call can run once the one before has settled, failed or not |
| KeyedLock.Progress | packages/facilitator/src/session-service.ts:135-155 | while a call is outstanding some call can move: no deadlock |
| KeyedLock.NoEntryLeft | packages/facilitator/src/session-service.ts:150-154 | once all calls are done the map has no entry for the key |
| KeyedLock.StartsAtOnceIff | packages/facilitator/src/session-service.ts:136-147 | in every run, a new call starts at once exactly when there is no call before it or the newest one has left; otherwise it waits for the newest |
| KeyedLock.WokenRuns | packages/facilitator/src/session-service.ts:138-146 | a call that is woken runs its body and no other moves |
| KeyedLock.OutcomeIsTheBodys | packages/facilitator/src/session-service.ts:145-149 | a call settles as its body did, with success or failure |
| KeyedLock.OutcomeIsKept | packages/facilitator/src/session-service.ts:135-155 | what a body settled with never changes afterwards, whatever other bodies do |
| KeyedLock.Locks.EnterLock | packages/facilitator/src/session-service.ts:136-147 | a call chains itself to the latest entry and replaces it; other keys are untouched |
| KeyedLock.Locks.WakeUp | packages/facilitator/src/session-service.ts:138-145 | a waiting body starts |
| KeyedLock.Locks.SettleBody | packages/facilitator/src/session-service.ts:145-149 | a body settles, with or without failure |
| KeyedLock.Locks.LeaveLock | packages/facilitator/src/session-service.ts:150-154 | only the newest call takes the entry away |
| CanonicalTheorems.PrintsIffClean | packages/facilitator/src/canonical.ts:12-33 | printing succeeds exactly when no undefined, non-finite or unsupported value occurs anywhere |
| CanonicalTheorems.PrintsNormalForm | packages/facilitator/src/canonical.ts:12-33 | sorting the keys first at every depth makes no difference: the text is that of the key-sorted value |
| CanonicalText.TextIsSpelled | packages/facilitator/src/canonical.ts:12-33 | the text itself, unit by unit: the literals, shortest decimal integers, arrays and objects with their brackets, colons and commas and nothing between, members by increasing key, every member once |
| CanonicalText.StringIsSpelled | packages/facilitator/src/canonical.ts:13-15 | a string is its pieces between quotes: seven units have two-character escapes, other units below 32 and stray surrogates a \u with four lower-case hex digits, all others stand as they are |
| CanonicalText.NumberIsNoted | packages/facilitator/src/canonical.ts:16-19 | an integer is its sign and its digits without leading zeros |
| CanonicalText.UnprintableLeaves | packages/facilitator/src/canonical.ts:16-32 | which error each unprintable value gives |
| CanonicalText.ArrayError | packages/facilitator/src/canonical.ts:20-20 | an array throws what its first unprintable item throws |
| CanonicalText.ObjectError | packages/facilitator/src/canonical.ts:21-31 | an object throws what its first unprintable member in key order throws |
| CanonicalTheorems.DecodeInvertsPrinting | packages/facilitator/src/canonical.ts:12-33 | a JSON decoder gets the value back from the text, up to key order |
| CanonicalTheorems.EqualTextIffSame | packages/facilitator/src/canonical.ts:12-33 | two values have the same text exactly when they are the same up to key order at every depth |
| CanonicalTheorems.PermutingKeysKeepsText | packages/facilitator/src/canonical.ts:21-31 | reordering an object's keys never changes the text |
| CanonicalTheorems.SortKeeps | packages/facilitator/src/canonical.ts:23-24 | the printed members are the object's, in key order |
| CanonicalOrder.LessIs | packages/facilitator/src/canonical.ts:23-24 | the key order: the smaller unit decides where two keys part, and a key comes before its extensions |
| CanonicalOrder.AgreesIff | packages/facilitator/src/canonical.ts:21-31 | for all texts, the printed key order is the order by code point exactly unless, where the texts part, the smaller unit is half of a surrogate pair and the larger is not |
| CanonicalOrder.PairedAgreesIff | packages/facilitator/src/canonical.ts:21-31 | for texts without stray surrogates: exactly unless one has a surrogate there and the other a unit from 0xE000 up |
| CanonicalOrder.StraySurrogateAgrees | packages/facilitator/src/canonical.ts:23-24 | a stray surrogate sorts below a unit from 0xE000 up either way, so pairs are what matters |
| CanonicalOrder.KeyOrderIsByCodeUnit | packages/facilitator/src/canonical.ts:23-24 | two keys that are printed in the other order than by code point |
| CanonicalDecoder.ParsePlain | packages/facilitator/src/canonical.ts:12-33 | the decoder reads a printed value and stops exactly at its end, whatever text follows |
| CanonicalDecoder.ParseQuoted | packages/facilitator/src/canonical.ts:13-15 | a printed string is read back unit by unit: quotes, controls and lone surrogates survive |
| CanonicalDecoder.ParseNumberText | packages/facilitator/src/canonical.ts:16-19 | a printed integer is read back |
| Operation.BindingTextIsInjective | packages/facilitator/src/session-service.ts:365-379 | bindings with the same canonical text are equal in every field: the conflict check misses nothing |
| Operation.PaymentTextIsInjective | packages/facilitator/src/session-service.ts:380-385 | the same for payments, across both schemes |
| Operation.BindingMembers | packages/facilitator/src/session-types.ts:3-16 | the twelve members of a binding, by name and value |
| Operation.ScopeMembers | packages/facilitator/src/session-types.ts:20-24 | the members of a scope; a missing workspace hash is a missing member |
| Operation.PaymentMembers | packages/facilitator/src/session-types.ts:52-81 | the members of a stake payment and, at each depth, of an exact payment |
| ReplayStore.NonceStore.constructor | packages/middleware/src/replay-store.ts:60-67 | a new store is empty, with count equal to the entries |
| ReplayStore.NonceStore.CheckAndInsert | packages/middleware/src/replay-store.ts:105-131 | the verdict in full; an accepted call evicts exactly as many oldest entries as make the count fit, and adds the nonce to one flat map with the count kept right, unless eviction took that payer's last entry, when the nonce is lost and the count is one too high |
| ReplayStore.LostAtTheCap | packages/middleware/src/replay-store.ts:117-130 | with one entry to evict, the insert is lost only if the payer has just one live entry and none is older, and certainly if all others are younger |
| ReplayStore.LostIf | packages/middleware/src/replay-store.ts:117-130 | with any number to evict: only if each of the payer's live entries is among that many oldest, and certainly if so with ties counted in |
| ReplayStore.LostIffWithoutTies | packages/middleware/src/replay-store.ts:117-130 | without ties, exactly if each of the payer's live entries is among that many oldest |
| ReplayStore.LoseAnInsert | packages/middleware/src/replay-store.ts:117-153 | two inserts of one payer into a store for one entry: both accepted, the second lost, the count one too high, and the capacity loop of a third insert without an end |
| ReplayStore.NonceStore.Insert | packages/middleware/src/replay-store.ts:117-130 | making room, by exactly as much as needed, and then writing to the inner map fetched before; below the cap nothing is evicted |
| ReplayStore.NonceStore.EvictExpired | packages/middleware/src/replay-store.ts:135-147 | removes exactly that payer's entries with validBefore at or before now, and an inner map left empty |
| ReplayStore.NonceStore.EvictOldest | packages/middleware/src/replay-store.ts:155-178 | removes one entry with the least validBefore over all payers, or nothing from an empty store |
| ReplayStore.NonceStore.FindOldest | packages/middleware/src/replay-store.ts:156-167 | finds an entry of least validBefore whenever there is one |
| ReplayStore.NonceStore.EnsureCapacity | packages/middleware/src/replay-store.ts:149-153 | ends, with the count just below the cap if it was not; whatever it evicts is no younger than what it keeps |
| ReplayStore.NonceStore.Has | packages/middleware/src/replay-store.ts:73-79 | membership after the payer's expired entries are gone, in any letter case |
| ReplayStore.CapacityLoopEndsIff | packages/middleware/src/replay-store.ts:149-153 | the capacity loop ends exactly when count minus entries is below maxEntries |
| Verifier.Verify | packages/middleware/src/verify.ts:98-192 | the answer is what `Verified` says of the stored entries, also when the store is full; below the cap it also leaves what `Verified` says |
| Verifier.VerifiedIs | packages/middleware/src/verify.ts:98-192 | the answer in full: unknown network, signature, payee, amount, expiry with five seconds to spare, start, network, nonce, in this order, with letter case spelled out per character |
| Verifier.AcceptedIff | packages/middleware/src/verify.ts:98-192 | accepted is exactly a signed authorization to the vault for at least the price on the configured network, valid by now and for more than five more seconds, whose nonce has no running entry |
| Verifier.VerifiedLeaves | packages/middleware/src/replay-store.ts:105-131 | what every entry becomes: a refusal before the nonce check changes none; after it exactly the payer's expired ones go, and an accepted nonce is held until its validBefore |
| Verifier.AcceptedAtMostOnce | packages/middleware/src/verify.ts:155-189 | one authorization, in any letter case, is accepted at most once over any calls whose clocks run back by at most 5000 ms |
| Verifier.VerifyAll | packages/middleware/src/verify.ts:98-192 | any calls on one store that has room for them are answered as the flat map says |
| Verifier.AnsweredAtMostOnce | packages/middleware/src/verify.ts:155-189 | so none of these answers accepts an authorization a second time |
| Verifier.EntryStays | packages/middleware/src/replay-store.ts:135-147 | an accepted entry outlives every call made before its validBefore |
| Verifier.MarginIsTight | packages/middleware/src/verify.ts:155-158 | with clocks that run back 5001 ms an authorization is accepted twice |
| ScrubText.OutputHasNoLongRun | packages/middleware/src/relayer-key.ts:121-126 | the output never contains 64 consecutive hex digits |
| ScrubText.UnchangedWithoutLongRun | packages/middleware/src/relayer-key.ts:121-126 | a string without such a run is unchanged |
| ScrubText.Idempotent | packages/middleware/src/relayer-key.ts:121-126 | scrubbing twice is scrubbing once |
| ScrubText.ScrubIsLocal | packages/middleware/src/relayer-key.ts:42-54 | text on one side of a character that is neither hex nor x does not affect the other side |
| ScrubText.BareSecretIsRedacted | packages/middleware/src/relayer-key.ts:44-54 | a bare run of 64 or more hex digits becomes just the marker |
| ScrubText.PrefixedSecretIsRedacted | packages/middleware/src/relayer-key.ts:42-43 | so do a 0x-prefixed key and a 0x-prefixed signature |
| ScrubText.PrefixedRunBecomes | packages/middleware/src/relayer-key.ts:121-126 | an 0x with any number of hex digits: below 64 unchanged; otherwise the marker for 130, or else 64, of them, and for the rest the marker again if it has 64 or more, or the rest itself |
| ScrubText.HexDigitsAre | packages/middleware/src/relayer-key.ts:42-54 | the 22 hex digits |
| ScrubGraph.ScrubSecrets | packages/middleware/src/relayer-key.ts:137-161 | ends on every finite graph; every reachable node is copied exactly once and nothing else is; each copy has its original's kind, keys, length and copied members, so that `PathsCarryValues` holds of it |
| ScrubGraph.Scrubber.Walk | packages/middleware/src/relayer-key.ts:139-144 | atoms come back themselves, text scrubbed, keys as the marker, nodes as their one copy; what was copied before is unchanged |
| ScrubGraph.Scrubber.WalkNode | packages/middleware/src/relayer-key.ts:143-158 | a node met before gives its copy; a new one is entered before its members are walked |
| ScrubGraph.PathsAgree | packages/middleware/src/relayer-key.ts:137-161 | every path leads in the copy to the copy of what it leads to in the input, cycles included; `PathsCarryValues` says what that is |
| ScrubGraph.PathsCarryValues | packages/middleware/src/relayer-key.ts:139-160 | every path leads to the same atom, the scrubbed text, the marker for a key, or an object or array of the same kind, keys and length as in the input, and nowhere where it led nowhere |
| ScrubGraph.SharingIsKept | packages/middleware/src/relayer-key.ts:143-158 | two paths meet in the copy exactly when they meet in the input |
| ScrubGraph.NoSecretIsReachable | packages/middleware/src/relayer-key.ts:140-142 | no key object, and no string with a 64-digit hex run, is reachable in the copy |
| ScrubGraph.ScrubbedStringsAreStable | packages/middleware/src/relayer-key.ts:137-161 | scrubbing the copy again changes no string |
| Ledger.ChargeLedger.AddCharge | packages/facilitator/src/ledger.ts:14-35 | a known reference returns its charge and changes nothing; otherwise the next number joins the end of the payer's queue |
| Ledger.ChargeLedger.DrainPayer | packages/facilitator/src/ledger.ts:42-47 | the payer's whole queue is handed out and removed |
| Ledger.ChargeLedger.RequeueCharges | packages/facilitator/src/ledger.ts:50-58 | the charges come back in front of what arrived since |
| Ledger.ChargeLedger.PayersWithPending | packages/facilitator/src/ledger.ts:60-66 | exactly the payers with a non-empty queue, each once |
| Ledger.ChargeLedger.Size | packages/facilitator/src/ledger.ts:68-72 | the number of pending charges over all payers |
| Ledger.BuildBatch | packages/facilitator/src/batcher.ts:9-32 | each creator once in order of first appearance, with the sum of its charges; ids in order; the total of all |
| Ledger.BatchPaysEachCreator | packages/facilitator/src/batcher.ts:14-29 | looked up by creator, a batch pays each creator its charges' exact sum and no one else |
| Ledger.SharesAddUp | packages/facilitator/src/batcher.ts:16-31 | the amounts add up to the total |
| Ledger.PositiveShares | packages/facilitator/src/batcher.ts:18-29 | positive charges give every listed creator a positive amount |
| Ledger.SumForPermuted | packages/facilitator/src/batcher.ts:18-22 | a creator's sum does not depend on the order of the charges |
| Ledger.SumsCountEachCharge | packages/facilitator/src/batcher.ts:18-22 | one more charge anywhere adds its amount to the total and to its own creator's sum only |
| Facilitator.ExactlyOnePlace | packages/facilitator/src/service.ts:44-67 | after any overlapping flushes and failures, each accepted charge is in exactly one of pending, in flight and settled, once, and no other charge is anywhere |
| Facilitator.AmountsConserved | packages/facilitator/src/service.ts:44-67 | for each payer and creator, pending plus in flight plus settled amounts are the accepted amounts |
| Facilitator.RepeatedRefAddsNothing | packages/facilitator/src/ledger.ts:14-18 | at any later time a repeated reference returns the charge first accepted under it and adds nothing |
| Facilitator.SizeCountsTheRest | packages/facilitator/src/ledger.ts:68-72 | size() is the number of accepted charges minus those in flight or settled |
| FacilitatorAnswers.ChargeIsQueued | packages/facilitator/src/ledger.ts:14-35 | in every run, a positive charge that repeats no accepted reference gets the next number and the end of its payer's queue; any other changes no queue and no record |
| FacilitatorAnswers.FlushSetsOutIff | packages/facilitator/src/service.ts:59-61 | a flush asks for the vault exactly when its payer has pending charges, and takes none yet |
| FacilitatorAnswers.BatchTakesAll | packages/facilitator/src/service.ts:61-63 | once the vault is known, the batch is all that is pending by then, and the queue is empty |
| FacilitatorAnswers.NoVaultTakesNothing | packages/facilitator/src/service.ts:61-61 | a flush whose lookup fails is over and has taken nothing |
| FacilitatorAnswers.AnswerDecides | packages/facilitator/src/service.ts:64-66 | success settles the batch and touches no queue; failure puts the batch in front of what came since |
| FacilitatorAnswers.FlushSettlesTheQueue | packages/facilitator/src/service.ts:59-67 | from any run, a flush settles exactly the payer's queue if the settler accepts, and leaves every queue as it was if it refuses |
| Facilitator.StepConserves | packages/facilitator/src/service.ts:44-67 | every step keeps every charge's number of places |
| Facilitator.OrderKeptIff | packages/facilitator/src/service.ts:59-67 | with a clock that does not run back, a payer's queue is in charge order at every moment of a run exactly when each failed batch was put back in front of later charges only |
| Facilitator.StepKeepsOrderIff | packages/facilitator/src/ledger.ts:42-58 | the same of one step |
| Facilitator.OrderlyRunKeepsOrder | packages/facilitator/src/ledger.ts:42-58 | with one batch per payer out at a time that is so |
| Facilitator.FirstIsOldest | packages/facilitator/src/service.ts:50-56 | while failed batches go back where they belong, looking at the first charge decides "enough charges, or some charge old enough" |
| Facilitator.FirstIsOldestWhenOrderly | packages/facilitator/src/service.ts:50-56 | in particular with one batch per payer out at a time |
| Facilitator.TwoBatchesCanDisorder | packages/facilitator/src/service.ts:59-67 | with two batches of a payer out, failures can put its queue out of order |
| Facilitator.FacilitatorService.AcceptCharge | packages/facilitator/src/service.ts:44-47 | refuses amounts that are not positive and records the others |
| Facilitator.FacilitatorService.ShouldFlushPayer | packages/facilitator/src/service.ts:50-56 | a non-empty queue that is long enough, or whose first charge is old enough |
| Facilitator.FacilitatorService.BeginFlush | packages/facilitator/src/service.ts:60-61 | starts a vault lookup only for a payer with pending charges |
| Facilitator.FacilitatorService.ResumeWithVault | packages/facilitator/src/service.ts:62-64 | drains what is pending by then and hands over a batch that pays each creator its sum |
| Facilitator.FacilitatorService.ResumeWithAnswer | packages/facilitator/src/service.ts:64-66 | success settles the batch, failure puts it back |
| Facilitator.FacilitatorService.FlushPayer | packages/facilitator/src/service.ts:59-67 | uninterrupted, a failed lookup or a failed settlement leaves the ledger exactly as it was |
| Facilitator.FacilitatorService.FlushPass | packages/facilitator/src/service.ts:70-89 | an uninterrupted pass settles the due payers up to the first whose lookup fails, and changes no other queue |
| FactoryCache.VerifierSeesFreshUnpausedState | packages/middleware/src/core.ts:445-536 | the verifier is reached only with an unpaused entry that was under 5 s old or fetched since when looked up, and with the developer's own nonzero vault on chain |
| FactoryCache.StaleEntryNeverVerifies | packages/middleware/src/core.ts:226-257 | the entry a request keeps as its fallback while it waits for a refresh is not the entry it is verified with, in any continuation |
| FactoryCache.CallsAreShared | packages/middleware/src/core.ts:221-244 | one refresh at a time, and one vault lookup per developer |
| CacheAnswers.CheckDecides | packages/middleware/src/core.ts:519-536 | in every run, a request is verified exactly when its entry is not paused and its address not zero, and rejected otherwise; nothing else changes |
| CacheAnswers.CachedStateVerifies | packages/middleware/src/core.ts:445-536 | from any run, with a cached entry under 5000 ms old, unpaused, that knows the developer's vault, a request goes through all its steps without a call, to the verifier with that entry and that vault |
| CacheAnswers.RefreshedStateVerifies | packages/middleware/src/core.ts:212-290 | from any run with an empty or too old cache, the factory's answer that it is not paused, and the vault known before or looked up now, bring a request to the verifier with the new entry and the vault on chain |
| CacheAnswers.FirstReadDecides | packages/middleware/src/core.ts:216-244 | a usable entry is taken, a running refresh joined, and otherwise one begun that remembers the cached entry |
| CacheAnswers.SecondRoundDecides | packages/middleware/src/core.ts:499-518 | a first round without entry or address is repeated; another goes on to the check |
| CacheAnswers.AnswerIsCached | packages/middleware/src/core.ts:227-243 | a refresh that succeeds puts a new entry into the cache, with the answer, the present time and the addresses known before |
| CacheAnswers.RefreshDecides | packages/middleware/src/core.ts:245-257 | a request takes the entry of the refresh it waited for; a failed one ends the second round and leaves the first without an entry |
| CacheAnswers.VaultReadDecides | packages/middleware/src/core.ts:260-274 | a known nonzero address ends the round, a lookup running for that developer is joined, and otherwise one begun |
| CacheAnswers.LookupReadsTheChain | packages/middleware/src/core.ts:276-283 | a lookup answers the vault on chain, or zero |
| CacheAnswers.AddressIsKept | packages/middleware/src/core.ts:276-287 | the address is added to the entry the lookup began with and to no other |
| CacheAnswers.LookupDecides | packages/middleware/src/core.ts:266-289 | a request takes the address of the lookup it waited for; a failed one ends the second round and leaves the first without an address |
| CacheAnswers.FailuresKeepTheCache | packages/middleware/src/core.ts:240-242 | a call that fails leaves the cache as it is and makes room for another |
| CacheAnswers.RefusedIsOver | packages/middleware/src/core.ts:463-488 | a request whose header is missing or malformed is over after its first round, and changes nothing |
| FactoryCache.StepKeeps | packages/middleware/src/core.ts:212-290 | every request step, clock tick, RPC answer and failure keeps the invariant |
| FactoryCache.RunKeeps | packages/middleware/src/core.ts:445-536 | it holds after every interleaving |
| PaywallCache.Caches.ReadState | packages/middleware/src/core.ts:216-244 | a fresh entry, a shared refresh, or a new one |
| PaywallCache.Caches.StoreRefresh | packages/middleware/src/core.ts:227-243 | the new entry has the addresses of the entry cached before in a map object of its own, and replaces it |
| PaywallCache.Caches.FailRefresh | packages/middleware/src/core.ts:240-242 | a failed refresh leaves the cache alone and lets another one start |
| PaywallCache.Caches.TakeRefresh | packages/middleware/src/core.ts:245-257 | the stored entry, or the last good one marked stale, or an exception |
| PaywallCache.Caches.FindVault | packages/middleware/src/core.ts:266-274 | a known nonzero address, a lookup already running for that developer, or a new one |
| PaywallCache.Caches.ReadVault | packages/middleware/src/core.ts:260-289 | the request goes on with the address or waits for the lookup |
| PaywallCache.Caches.StoreVault | packages/middleware/src/core.ts:276-287 | the address is written into the entry the lookup began with, which may be cached no longer, and into no other |
| PaywallCache.Caches.FailVault | packages/middleware/src/core.ts:284-286 | a failed lookup is forgotten |
| PaywallCache.Caches.TakeVault | packages/middleware/src/core.ts:451-456 | the round goes on with the address, or without one |
| PaywallCache.Caches.Continue | packages/middleware/src/core.ts:499-510 | without an entry and an address the reads are repeated before anything is verified |
| PaywallCache.Caches.CheckAndVerify | packages/middleware/src/core.ts:519-536 | the request is verified exactly when the entry object is not paused and the address is not zero, and rejected otherwise |
| Price.ParsesExactly | packages/middleware/src/x402.ts:69-94 | for an accepted string of any length the result is its decimal value times 10^6, exactly; zero amounts are refused |
| Price.InvalidIffNotWritten | packages/middleware/src/x402.ts:67-75 | refused as invalid are exactly the strings that are not digits with at most six decimals after a point |
| Price.AgreeIffSameAmount | packages/middleware/src/x402.ts:69-94 | two accepted strings give the same result exactly when their values are equal |
| Price.PrintedPriceParses | packages/middleware/src/x402.ts:77-93 | a positive amount printed as whole dollars and six decimals parses back to itself |
| Price.OneCent | packages/middleware/src/x402.ts:69-94 | "0.01" is 10000 |
| Price.DigitsAreWritten | packages/middleware/src/x402.ts:67-67 | the characters of the ten digits |
| Vault.PaymentVaultImpl.Withdraw | contracts/src/PaymentVaultImpl.sol:80-99 | a withdrawal happens as a whole or reverts and leaves every balance as it was |
| Vault.PaymentVaultImpl.Initialize | contracts/src/PaymentVaultImpl.sol:60-64 | developer and factory are set once and never again |
| Vault.WithdrawsIff | contracts/src/PaymentVaultImpl.sol:80-99 | exactly when a withdrawal goes through; a treasury that refuses transfers blocks it only if there is a fee |
| Vault.WithdrawalFee | contracts/src/PaymentVaultImpl.sol:86-91 | the fee is the exact share of the whole balance rounded down, and at most a tenth |
| Vault.WithdrawalPays | contracts/src/PaymentVaultImpl.sol:86-96 | every balance afterwards, also when treasury, developer and vault coincide |
| Vault.WithdrawalTransfers | contracts/src/PaymentVaultImpl.sol:93-96 | the developer is paid first, the treasury second and only a positive fee |
| Vault.EmptiesIff | contracts/src/PaymentVaultImpl.sol:86-96 | the vault is empty afterwards unless it is itself the treasury and there is a fee |
| Vault.PaymentSplitterFactory.Deploy | contracts/src/PaymentSplitterFactory.sol:44-53 | no factory exists with a zero treasury or a rate above 1000 |
| Vault.PaymentSplitterFactory.SetFeeBps | contracts/src/PaymentSplitterFactory.sol:82-87 | only the owner sets the rate, and to at most 1000 |
| Vault.PaymentSplitterFactory.SetPlatformTreasury | contracts/src/PaymentSplitterFactory.sol:89-94 | only the owner sets the treasury, and not to zero |
| Vault.PaymentSplitterFactory.Register | contracts/src/PaymentSplitterFactory.sol:61-71 | one initialized vault per developer, and none while paused |
| VaultRuns.FeesAtOneRate | contracts/src/PaymentVaultImpl.sol:86-91 | for any withdrawals of a run made at one rate b, with gross G and fees F: 10000 F <= G b < 10000 (F + n), and F is at most G / 10 |
| VaultRuns.FeesAreAtMostATenth | contracts/src/PaymentSplitterFactory.sol:44-87 | over a whole run with any rate changes the fees are at most a tenth of the gross |
| VaultRuns.TokensConserved | contracts/src/PaymentVaultImpl.sol:80-99 | no run makes or loses tokens |
| VaultRuns.VaultsAreBacked | contracts/src/PaymentVaultImpl.sol:80-99 | all a vault's address held before the factory was deployed and was ever sent is in it or was withdrawn by its developer |
| VaultAnswers.RateIsTheOwners | contracts/src/PaymentSplitterFactory.sol:82-87 | in every run the rate is the one of the owner's last call with at most 1000, or the first one, and at most 1000 |
| VaultAnswers.TreasuryIsTheOwners | contracts/src/PaymentSplitterFactory.sol:89-94 | so is the treasury, of the owner's last call with a nonzero address, and it is never zero |
| VaultAnswers.SettingsChangeIff | contracts/src/PaymentSplitterFactory.sol:61-109 | owner, rate, treasury, pause and vaults each change exactly by their own call: the owner's with a valid value, or a first registration while not paused |
| VaultAnswers.VaultsStay | contracts/src/PaymentSplitterFactory.sol:61-71 | a developer's vault is the developer's in every continuation |
| VaultAnswers.WithdrawalPaysOrReverts | contracts/src/PaymentVaultImpl.sol:80-99 | in every run, exactly when a withdrawal goes through and every balance it leaves, with the fee of balance times rate over 10000 rounded down; otherwise nothing changes |
| VaultAnswers.SendMovesOrReverts | contracts/src/PaymentVaultImpl.sol:93-96 | a token transfer moves its amount unless an end refuses or the balance is short |
| VaultAnswers.WithdrawalFails | contracts/src/PaymentVaultImpl.sol:81-96 | why a withdrawal reverts, a stranger first |
| VaultAnswers.SettingFails | contracts/src/PaymentSplitterFactory.sol:61-94 | why a setting or a registration reverts |
| VaultAnswers.ConstructedIff | contracts/src/PaymentSplitterFactory.sol:44-53 | with which arguments a factory is deployed, and how it starts |
| VaultRuns.StepKeeps | contracts/src/PaymentVaultImpl.sol:80-99 | every transfer, registration, setting and withdrawal keeps the invariant |

## Left out

- Session registration: which session the store has for a stake payment is an input of the step (`session`). The caps are checked on a snapshot of the policy, so concurrent operations can pass together; nothing is claimed about the sum of their amounts.
- What `#validateBinding` checks before the expiry, and `#validatePayment`, are inputs too (`checks`); so are digests, fingerprints, `sessionScopeHash` and `Date.parse`. No theorem needs a digest to be injective, since the conflict checks also compare canonical texts.
- `operationBindingJson`, HTTP status codes, `quote_id`, `created_at`, `updated_at`, `accepts` and the bytes of a receipt's signature are not modelled; signing is taken to be a function of the receipt.
- `persist` is one atomic step that succeeds; file-system failures are not modelled.
- Addresses are compared by ASCII lower case; `toLowerCase` on other letters is not modelled.
- `canonicalJson` on non-integer numbers, integers beyond 2^53 - 1, negative zero, sparse arrays, `toJSON` methods and class instances.
- The order of JavaScript maps: where the source iterates one, the model allows any order, so among equally old entries any may be evicted and `payersWithPending` may list payers in any order. `BuildBatch` keeps the order of first appearance.
- `NonceStore.insert`, which only tests call, and `size()`, which returns the count.
- `validBefore` values that `Number` rounds or turns into `Infinity`.
- ReplayStore.NonceStore.CheckAndInsert: requires that count minus entries is below `maxEntries`, because otherwise the capacity loop of the source does not end (`CapacityLoopEndsIff`).
- Verifier.AcceptedAtMostOnce: is about calls made while the count is below `maxEntries`; a full store evicts live entries.
- Signature recovery, chain ids, header decoding and the settle stage of the paywall.
- Objects of a scrubbed graph are numbered nodes instead of Dafny objects. Getters, symbols, property names with special meaning (`__proto__`), and objects that are neither arrays nor records are not modelled; property names are kept as they are.
- The timer of the charge facilitator: any flush may start at any time in a run.
- Facilitator.FacilitatorService.FlushPayer: is about a call that nothing interrupts between its awaits; its parts, `BeginFlush`, `ResumeWithVault` and `ResumeWithAnswer`, are steps of a run and may be interrupted, and the theorems on runs are about those.
- Facilitator.FacilitatorService.FlushPass: is about a pass that nothing interrupts, for the same reason; with other calls in between, which payers are due changes under it.
- Facilitator.ExactlyOnePlace: a settler that throws loses its batch in the source, because nothing puts the charges back; the model's settler always answers.
- The cache is that of one network; several networks have disjoint keys. The shared client cache is not modelled.
- The wall clock of the cache does not run back; the source would treat an entry as fresh for longer if it did.
- Ownership transfer, events other than token transfers, `computeVaultAddress`, and token balances near 2^256 (the product of balance and rate is checked against it).
- Reentrancy: a withdrawal is one step, because the token calls nothing back and `nonReentrant` would refuse it.
- HTTP servers, adapters, the settler clients, the stake vault contracts, the browser extension and the SDK.
