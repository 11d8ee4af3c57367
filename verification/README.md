# FlowX: verified core protocols

FlowX moves money between wallets: transfers are screened, charged a fee, settled on Stellar, and checked
afterwards against the ledger. What keeps it correct are a few conditional SQL updates that many processes race
on, and some exact arithmetic and string algorithms. This project models those parts in Dafny and proves what
they guarantee.

`dafny verify dfyconfig.toml` checks everything.

## How the model is built

* **Step systems.** A transfer, a recurring schedule, a deposit, a withdrawal and an idempotency key are each one
  stored row. Every guarded statement, every network call and every crash is one atomic step of some process; a
  state is reachable if some sequence of steps, by any number of processes, leads to it. Theorems quantify over
  all reachable states or all runs (`Lifecycle*`, `ScheduleRuns`, `DepositRuns`, `WithdrawalRuns`,
  `IdempotencyRuns`).
* **Code on top of them.** The classes `Engine`, `Reconciler.Service`, `Reviews.Service`, `Transfers.Service`,
  `ScheduleWorker.Worker`, `DepositService.Handler`, `WithdrawalService.Handler` and `IdempotencyService.Server`
  hold the control flow of the program. Each of their methods takes an arbitrary interleaving of what the other
  processes do between its statements (steps that are not enabled are skipped). `Good()` says that the stores hold
  the state of some run; every method keeps it, so every theorem about runs holds of the code, under every
  interleaving. A statement's effect is stated relative to the row it meets (`at`); where nothing interferes (`Quiet`),
  a method also states the exact row it leaves behind. The field `s` of these classes is the rest of the world, which
  the interleaving moves and the theorems talk about; the code reads the stores, the clock and the ledger's answers.
* **Environment.** Database errors, the network's responses, lookups and cancellations are arguments. The ledger
  does not lie: a lookup reports an envelope applied only if it was, and failed only if it was not, and what it has
  failed it never applies. An envelope can be applied once some submission of it was accepted or left in doubt, even
  after a later one was rejected. The answer `Definite` stands for a real rejection; `Misread` for an error that says
  nothing about the outcome, a lost connection for example, but whose text has none of the words for which the engine
  retries, so that it counts as a rejection (internal/settlement/engine.go:319-325).
* **Arithmetic.** Amounts are integers in units of 10^-7. `Div(10000)` rounds to 16 places and `Round(7)` half away
  from zero, as the decimal library does; `Fees.TwoRoundingsAreOne` shows that the two roundings together lose
  nothing.
* **Text.** Case tables and white space are parameters (`Normalization.Folding`).

## What the proofs found

Where a promise fails, the code is modelled as it is, a concrete run shows the failure, and the exact condition is
proved.

* One payment per transfer holds *if and only if* the hash write before submission succeeds and a stuck reset hits
  only rows whose claimant has stopped (`LifecycleLimits.SinglePaymentIff`). The code assures neither: a failing
  hash write is only logged (internal/settlement/engine.go:164-167), and the reset looks at the age of the row, not
  of the claim (internal/postgres/transaction_repo.go:188-199).
* A transfer that ends as failed was not paid *if and only if*, besides the two promises, no error that the engine
  takes for a rejection leaves the outcome in doubt, and recovery gives up only on a row that is still stuck
  (`LifecycleOutcomes.FailedNeverPaidIff`, one failing run for each of the four). The code assures none: giving up is an
  unguarded write (internal/reconcile/reconcile.go:629-637; `PaidCanEndAsFailed`), and a rejection is taken to mean that
  nothing was applied (internal/settlement/engine.go:189-191), though it may answer a resubmission or be misread: the
  payment was made, or still can be, *if and only if* the first answer was not a definite rejection and the ledger has
  not failed the envelope (`RejectedCanBePaid`, `RejectedIsPaidIff`, and for the code `Engine.SubmitTransfer`). When a
  confirmed row leaves confirmed is said exactly by `LifecycleLimits.ConfirmedStaysIff`.
* An unset screening status is documented never to read as a pass (internal/domain/compliance.go:9-11), but has
  severity 0 and passes (`Screening.PassesIff`, `Screening.UnsetPasses`). The model follows the code.
* A replayed response is the one the same request produced *if and only if* no handler outlives its record:
  `Complete` writes by key, whatever record the key has by then (`IdempotencyRuns.ReplaysOwnIff`). And a request can
  be told that a record exists without being given one, which the middleware then dereferences
  (`IdempotencyRuns.EmptyHanded`, `TooSlow`; internal/postgres/idempotency_repo.go:56-62). That never happens *if and
  only if* no lookup meets the row locked, by another lookup or by a completion, and acquiring the key always takes
  less than half a record's lifetime (`IdempotencyRuns.NeverEmptyHandedIff`).
* A credited deposit can end as failed; none does *if and only if* the rail never errs on a deposit that the provider
  reports on (`DepositRuns.CreditedNeverFailedIff`). A completed payment can go uncredited although the
  provider was answered 200, so that it has no reason to deliver again; none does *if and only if* neither the rail nor
  another event contradicts it, neither the claim nor the transfer errs, and no process stops between claim and credit
  (`DepositRuns.DueIsCreditedIff`). A claim that errs counts as one that was lost, and is answered 200
  (internal/fiat/service.go:173-175, internal/fiat/handler.go:170-177). The credit is lost for good *if and only if* the
  row has left pending (`LostForGoodIff`).
* A failed withdrawal can keep its debit for good; none does *if and only if* the rail never errs, the refund never
  errs, and no process stops before the refund (`WithdrawalRuns.EveryDebitGivenBackIff`, `GivenBackIff`,
  `NeverRefunded`). Refunds never exceed debits *if and only if* the provider reports only on withdrawals whose debit
  was made (`WithdrawalRuns.RefundsCoveredIff`).
* A schedule whose worker stops between claim and write-back, or cannot write, stays in processing, and the listing
  has active rows only: no active schedule gets stuck *if and only if* no worker stops or fails to write while it holds
  the claim (`ScheduleRuns.NeverStuckIff`, `StuckForGood`). Which schedules can still fire is said exactly by
  `FiresAgainIff`.
* Resuming a schedule ends *if and only if* the frequency is a known one or nothing is overdue
  (`Schedules.RollForwardTerminatesIff`). A monthly schedule keeps its day of the month *if and only if* the next
  month has that day (`Calendar.MonthlyKeepsDay`).
* One operation can pass for both legs of a transfer *if and only if* the legs are indistinguishable
  (`Payments.BothLegsIff`), although the source calls the fee payment a distinct operation
  (internal/reconcile/reconcile.go:552-554).
* Before bounds, the net amount grows with the amount *if and only if* the rate is at most 100%
  (`Fees.NetMonotoneIff`); after bounds it always does.
* The engine's issuer map always has both asset codes, even when an issuer is not configured
  (cmd/worker/main.go:104-109), while the reconciler's registry leaves such an asset out: the expectation for the
  operations the engine lists can then not be rebuilt (`Payments.EngineOpsAccepted`). This is about the operation list
  only; whether the Stellar SDK would turn a payment with an empty issuer into an envelope is not part of this model.
* The schedule code writes the statuses `processing` and `failed`, which the enumeration in
  db/migrations/000013_create_batches_and_schedules.up.sql:20 does not have. The model follows the code.

## Model

| member | source | states |
|---|---|---|
| Transactions.TransactionRepo.Create | internal/postgres/transaction_repo.go:24-46 | a new row is inserted, and an existing id is left alone |
| Transactions.TransactionRepo.ClaimForSubmission | internal/postgres/transaction_repo.go:166-178 | wins exactly for a pending row, and moves only that row to submitted |
| Transactions.TransactionRepo.ResetStuckSubmittedToPending | internal/postgres/transaction_repo.go:188-205 | gives back exactly an old submitted row without a hash |
| Transactions.TransactionRepo.UpdateStatus | internal/postgres/transaction_repo.go:207-224 | sets status and hash together, and never touches a confirmed row |
| Transactions.TransactionRepo.UpdateTxConfirmed | internal/postgres/transaction_repo.go:645-657 | confirms exactly a pending or submitted row |
| Transactions.TransactionRepo.UpdateTxFailed | internal/postgres/transaction_repo.go:663-675 | fails exactly a pending or submitted row, keeping its hash |
| Transactions.TransactionRepo.UpdateReconciliationStatus | internal/postgres/transaction_repo.go:459-468 | overwrites the status whatever it was |
| Transactions.TransactionRepo.IncrementRequeueCount | internal/postgres/transaction_repo.go:471-481 | returns the incremented count |
| Transactions.TransactionRepo.GetStuckPendingTxes | internal/postgres/transaction_repo.go:417-455 | lists exactly the old rows that a worker could claim as they are, or after a reset, as they are stored |
| LifecycleInvariants.StepKeepsInv | internal/postgres/transaction_repo.go:166-224 | every statement of every process, in any environment, keeps the invariant of the transfer |
| LifecycleInvariants.RunKeepsInv | internal/settlement/engine.go:56-197 | so every run does, however workers, reconcilers, admins, redeliveries and crashes interleave |
| LifecycleInvariants.ConfirmedMeansApplied | internal/settlement/engine.go:203-254 | a confirmed row carries a hash that the network applied |
| LifecycleInvariants.ClaimsBounded | internal/postgres/transaction_repo.go:157-178 | successful claims never exceed one plus the successful stuck resets |
| LifecycleInvariants.TasksBounded | internal/reconcile/reconcile.go:582-648 | stuck recovery creates at most three tasks for a transfer across all reconcilers, no two with the same count; initiate and all releases together create at most one; at most four tasks ever exist |
| LifecycleInvariants.HeldUntilApproved | internal/compliance/service.go:169-238 | a held transfer is never enqueued, claimed or sent unless its review is approved, and the review leaves pending at most once |
| LifecycleSafety.StepKeepsSafe | internal/settlement/engine.go:160-169 | under the two promises, only the envelope on record was ever sent, and one worker at most is past the claim |
| LifecycleSafety.OneEnvelope | internal/settlement/engine.go:61-77 | under the two promises, in every reachable state at most one envelope, the one on record, was sent or applied |
| LifecycleLimits.UnrecordedPaysTwice | internal/settlement/engine.go:160-169 | without the hash write, a run that pays twice |
| LifecycleLimits.ResetWhileClaimedPaysTwice | internal/postgres/transaction_repo.go:180-205 | with a reset that hits a slow claimant, a run that pays twice |
| LifecycleLimits.SinglePaymentIff | internal/settlement/engine.go:61-77 | at most one payment, and at most one envelope, exactly if both promises are kept |
| LifecycleLimits.ConfirmedStaysIff | internal/postgres/transaction_repo.go:207-224 | a step keeps a confirmed row's hash, and keeps it confirmed exactly if it is not one of the two unguarded writes |
| LifecycleLimits.ConfirmedStays | internal/postgres/transaction_repo.go:457-468 | over whole runs without those two writes a confirmed row stays confirmed with its hash |
| LifecycleOutcomes.DeadIsNeverPaid | internal/settlement/engine.go:248-253 | in any environment, an envelope that the ledger has failed is applied in no continuation |
| LifecycleOutcomes.RejectedIsNeverPaid | internal/settlement/engine.go:189-191 | under the two promises, once the first submission was definitely rejected, no continuation whatever pays the transfer |
| LifecycleOutcomes.RejectedIsPaidIff | internal/settlement/engine.go:189-196 | under the two promises, a transfer about to be marked failed was paid, or is paid in some continuation, exactly if the first answer was not a definite rejection and the ledger has not failed the envelope |
| LifecycleOutcomes.RejectedCanBePaid | internal/settlement/engine.go:189-196 | a run in which the engine itself marks a paid transfer failed: a submission left in doubt is applied, and the resubmission rejected |
| LifecycleOutcomes.PaidCanEndAsFailed | internal/reconcile/reconcile.go:629-637 | a run in which a paid and confirmed transfer ends as failed, by recovery giving up on it |
| LifecycleOutcomes.FailedIsFinal | internal/settlement/engine.go:189-196 | if all four promises are kept, the envelope of a failed row is applied in no continuation |
| LifecycleOutcomes.FailedNeverPaidIff | internal/settlement/engine.go:178-196 | in every reachable state a failed transfer was not paid, exactly if all four promises are kept: the two, no doubtful rejection, no giving up on a row no longer stuck |
| World.ReviewRepo.CreateReview | internal/postgres/compliance_repo.go:54-68 | a review starts pending |
| World.ReviewRepo.DecideReview | internal/postgres/compliance_repo.go:127-145 | decides exactly a pending review |
| World.World.Others | internal/settlement/engine.go:61-71 | whatever the others do between two statements, the stores stay those of a run |
| Engine.HeardIff | internal/settlement/engine.go:286-317 | paid exactly if some attempt that was made succeeded, refused exactly if one that was made met an error that reads as a rejection |
| Engine.Engine.SubmitWithRetry | internal/settlement/engine.go:293-317 | up to three submissions of one envelope, classified into paid, refused or no verdict; a refused envelope may be paid if the first answer left it in doubt, and is on record as rejected otherwise; undisturbed, the exact classification |
| Engine.Engine.TryResolveAmbiguous | internal/settlement/engine.go:235-254 | under any interleaving, one lookup after no attempt got a verdict: the row is confirmed exactly if the ledger reports the envelope applied, failed exactly if it reports it failed, and left for reconciliation exactly if it has no verdict |
| Engine.Engine.Finish | internal/settlement/engine.go:203-206 | under any interleaving, the last write sets status and hash of the row it meets, except of a confirmed one |
| Engine.Engine.SubmitTransfer | internal/settlement/engine.go:56-197 | under any interleaving: reports a payment only if its envelope was applied, settles what the ledger has a verdict on and leaves submitted what nobody has one on; with the promises kept no second envelope exists, and what is reported as refused was paid, or is paid in some continuation, exactly if the first answer left it in doubt and the ledger has not failed it; undisturbed: the exact row left behind |
| Engine.SettledConfirmedIff | internal/settlement/engine.go:169-197 | an undisturbed delivery confirms exactly if an attempt was accepted, or none got a verdict and the lookup finds the envelope applied |
| Engine.SettledFailedIff | internal/settlement/engine.go:169-197 | it fails the row exactly if the payout is refused, an attempt was turned down, or none got a verdict and the lookup finds that the ledger failed the envelope |
| Engine.SettledSubmittedIff | internal/settlement/engine.go:160-197 | it leaves the row submitted in exactly the remaining cases, with the envelope's hash on record unless nothing was signed or the hash write failed |
| Reconciler.Service.CheckPendingTransaction | internal/reconcile/reconcile.go:227-287 | under any interleaving, a correction reported is the ledger's verdict on the hash of the row, written; a verdict is a discrepancy; undisturbed, the exact row and report |
| Reconciler.Service.Correct | internal/reconcile/reconcile.go:256-286 | a row that is no longer pending or submitted is left alone |
| Reconciler.Service.CheckTransaction | internal/reconcile/reconcile.go:324-391 | flags a confirmed row exactly if its envelope is missing, unsuccessful, or does not make the payments the engine builds for the transfer; one whose payment cannot be rebuilt is left alone |
| Reconciler.Service.GiveBack | internal/reconcile/reconcile.go:606-622 | under any interleaving, resets exactly a row that is still old, submitted and without a hash when the statement runs |
| Reconciler.Service.RecoverPending | internal/reconcile/reconcile.go:584-648 | under any interleaving, a row reported as enqueued got a new task with a count of at most three, and one reported as exhausted is failed; undisturbed, the exact row, task and report |
| Reconciler.Service.GiveUp | internal/reconcile/reconcile.go:629-637 | marks the row failed whatever its status is by now |
| Reconciler.RecoveredIff | internal/reconcile/reconcile.go:584-648 | an undisturbed pass leaves alone what is not old and stuck, enqueues the rest up to three times, and then fails it |
| Reviews.Service.Decide | internal/compliance/service.go:169-216 | under any interleaving, a decision reported as done is the one in the review, and the transfer has followed it: released and enqueued for the first time, or failed; a caller told otherwise met a decided review or an error |
| Reviews.Service.Win | internal/compliance/service.go:178-191 | a decision wins only while the review is pending, and then the review holds it |
| Reviews.Service.ReleaseTransfer | internal/compliance/service.go:223-238 | under any interleaving, the released transfer is no longer held, and its first task is created, unless the enqueue fails, which does not fail the approval |
| Transfers.Service.Initiate | internal/transfer/service.go:166-267 | a blocked transfer leaves no row; one is enqueued exactly if every screener answered without holding or blocking; every other one is held; not stored exactly if the insert fails |
| Screening.ScreenAll | internal/compliance/screener.go:43-75 | the verdict of the first most severe screener, the highest risk, all rules; a screener that fails counts as a hold |
| Screening.PassesIff | internal/domain/compliance.go:7-31 | clear exactly if every screener answered and none held or blocked, an unset status included |
| Screening.BlockedIff | internal/compliance/screener.go:27-36 | blocked exactly if some screener said so |
| Screening.ProceedsIff | internal/compliance/service.go:61-73 | through both layers a transfer proceeds unreviewed exactly then, and a failed screening parks it |
| Screening.UnsetPasses | internal/domain/compliance.go:9-11 | an unset status passes, against its documentation |
| Screening.RulesInOrder | internal/compliance/screener.go:56-62 | the rules on record are those of every screener in their order, a failed one putting its own on record |
| Screening.FailureLeavesTrace | internal/compliance/screener.go:45-62 | a failed screener leaves the transfer held or blocked, with its rule on record and a risk of at least 50 |
| EditDistance.DistIsMinimumOverScripts | internal/compliance/levenshtein.go:5-12 | the recurrence is the true edit distance: some script attains it, none beats it |
| EditDistance.Symmetric | internal/compliance/levenshtein.go:28-31 | swapping the arguments is harmless |
| EditDistance.LengthGap | internal/compliance/levenshtein.go:23-26 | the length cutoff never hides a match |
| EditDistance.RowsStayAbove | internal/compliance/levenshtein.go:54-58 | once a whole row is over the cap, so is every later one, which justifies the early exit |
| EditDistance.ZeroIffEqual | internal/compliance/levenshtein.go:13-15 | distance 0 exactly for equal names |
| EditDistance.ReplacingCosts | internal/compliance/levenshtein.go:44-51 | a replaced character costs at most one |
| EditDistance.AppendingCosts | internal/compliance/levenshtein.go:36-52 | an inserted or a deleted character costs one |
| Levenshtein.LevenshteinAtMost | internal/compliance/levenshtein.go:12-66 | the true edit distance if it is within the cap, and one more than the cap otherwise |
| Levenshtein.Min3Of | internal/compliance/levenshtein.go:68-76 | the least of three |
| Normalization.NormalizeName | internal/compliance/sanctions.go:239-259 | the loop computes the normal form |
| Normalization.NormalizedIsIdempotent | internal/compliance/sanctions.go:235-259 | normalising twice is normalising once |
| Normalization.NormalizedIsWords | internal/compliance/sanctions.go:236-259 | the normal form is the words of the lower-cased name with one space between them: case, punctuation and spacing do not matter; letters, digits and everything outside ASCII do |
| Normalization.AddressesAgreeIff | internal/compliance/sanctions.go:229-234 | two addresses are the same exactly if they are equal in upper case, apart from surrounding space |
| Sanctions.AddressIndexIsScan | internal/compliance/sanctions.go:60-71 | the map agrees with a scan: bound exactly if some entity has the address, and then to the last one |
| Sanctions.NearestEntryIsNearest | internal/compliance/sanctions.go:72-78 | deduplication loses nothing: the nearest entry is the nearest, earliest listed name |
| Sanctions.ScanStep | internal/compliance/sanctions.go:119-133 | each iteration keeps the nearest so far, and stopping at distance 0 is final |
| Sanctions.Conclude | internal/compliance/sanctions.go:112-137 | a finished scan finds something exactly if some listed name is within the threshold |
| Sanctions.BlankAddressIsUnlisted | internal/compliance/sanctions.go:101-110 | a blank address is never listed |
| Sanctions.SanctionsSet.Replace | internal/compliance/sanctions.go:55-86 | the index is rebuilt for the new list; an empty list changes nothing |
| Sanctions.SanctionsSet.MatchAddress | internal/compliance/sanctions.go:102-110 | hits exactly if some entity of the last non-empty list has the normalised address, and names the last of them |
| Sanctions.SanctionsSet.MatchName | internal/compliance/sanctions.go:113-137 | succeeds exactly if some listed name is within the threshold, and returns the nearest, earliest on a tie |
| Sanctions.ScanNames | internal/compliance/sanctions.go:119-133 | the loop finds the nearest entry within the threshold |
| Calendar.CivilInvertsOrdinal | internal/schedule/frequency.go:10-21 | day numbers and civil dates correspond one to one |
| Calendar.YearsByArithmetic | internal/schedule/frequency.go:10-21 | years have 365 days, and one more every 4 years except every 100, and again every 400 |
| Calendar.FourCenturies | internal/schedule/frequency.go:10-21 | 400 years have 146097 days |
| Calendar.MonthTable | internal/schedule/frequency.go:10-21 | the days before each month of a common and of a leap year |
| Calendar.AfterIsLater | internal/schedule/service.go:113-115 | one instant is after another exactly if more nanoseconds lie before it |
| Calendar.IntervalLength | internal/schedule/frequency.go:10-21 | an interval is one day, seven days, or exactly as many as the current month has, at the same time of day |
| Calendar.MonthlyKeepsDay | internal/schedule/frequency.go:16-17 | the day of the month is kept exactly if the next month has it |
| Schedules.OccurrencesIncrease | internal/schedule/frequency.go:9-21 | occurrences of a known frequency move at least a day forward each |
| Schedules.RollForwardTerminatesIff | internal/schedule/service.go:113-115 | resuming reaches the future exactly if the frequency is known or nothing is overdue |
| Schedules.RollForward | internal/schedule/service.go:113-115 | the loop ends at the least occurrence strictly after now |
| Schedules.Update | internal/schedule/service.go:91-124 | an edit changes what it names; only resuming moves the next run |
| Schedules.ScheduleRepo.ListDue | internal/postgres/schedule_repo.go:107-126 | lists exactly the active schedules whose next run is not in the future, as they are stored; their claim would win |
| Schedules.ScheduleRepo.TryClaim | internal/postgres/schedule_repo.go:145-154 | wins exactly if the row is still active at the expected occurrence |
| Schedules.ScheduleRepo.Save | internal/postgres/schedule_repo.go:88-102 | overwrites the row |
| ScheduleRuns.StepKeepsInv | internal/schedule/worker.go:39-77 | every statement of every worker keeps the schedule's invariant |
| ScheduleRuns.InitiatedAreAPrefix | internal/schedule/worker.go:39-77 | however workers interleave and crash, the initiated transfers are the first occurrences in order, each due, none after the first past the end date |
| ScheduleRuns.NoOccurrenceTwice | internal/schedule/worker.go:39-50 | no occurrence is initiated twice |
| ScheduleRuns.CompletedIsPastEnd | internal/schedule/worker.go:67-71 | over every run, an active schedule becomes completed only when the occurrence after the last one initiated lies past the end date |
| ScheduleRuns.FiresAgainIff | internal/schedule/worker.go:39-77 | some continuation initiates another transfer exactly if the row is active, or a worker has claimed it and not yet initiated, or has and the next run is not past the end date |
| ScheduleRuns.NeverStuckIff | internal/schedule/worker.go:39-77 | an active schedule never stays in processing with nobody at it, exactly if no worker stops or fails to write while it holds the claim |
| ScheduleRuns.StuckForGood | internal/postgres/schedule_repo.go:104-112 | a schedule stuck in processing initiates nothing in any continuation by any workers |
| ScheduleWorker.Worker.HandleRunSchedules | internal/schedule/worker.go:27-37 | exactly a due schedule is run, under any interleaving as a run of the step system |
| ScheduleWorker.Worker.RunOne | internal/schedule/worker.go:39-77 | under any interleaving, an initiated transfer is on record for the listed occurrence, and what is written back is the listed schedule, failed if refused, and otherwise one interval on, active exactly if that is not past the end date; undisturbed, the exact row and report |
| Fees.FeeIsNearest | internal/fees/calculate.go:8-18 | the fee is amount times rate rounded half up to 7 places |
| Fees.FeeSplitsAmount | internal/fees/service.go:51-52 | fee and net always add back to the amount, the fee never exceeds it, and is non-negative exactly if amount and cap are |
| Fees.BoundsClamp | internal/fees/calculate.go:20-34 | bounding moves the fee to the nearest point of its range |
| Fees.FeeOfSchedule | internal/fees/service.go:45-53 | for every schedule, amount and kind: the fee is the point between the schedule's minimum and its cap nearest to the rounded rate of the kind, or the cap if the minimum exceeds it, and that rate is reported |
| Fees.RateByKind | internal/fees/service.go:46-49 | a transfer pays the transfer rate, a conversion the conversion rate |
| Fees.FeeMonotone | internal/fees/calculate.go:10-18 | before bounds the fee never falls as the amount grows |
| Fees.NetMonotoneIff | internal/fees/calculate.go:10-18 | before bounds the net never falls exactly if the rate is at most 100% |
| Fees.BoundedMonotone | internal/fees/calculate.go:20-34 | after bounds neither ever falls |
| Fees.SplitCostsAtMostOneUnit | internal/fees/calculate.go:10-18 | before bounds, splitting a transfer changes the total fee by at most one unit of 10^-7 |
| Payments.VerifyOps | internal/reconcile/reconcile.go:555-580 | all flags hold exactly if some payment or path payment is the whole main leg, in the exact asset and issuer, and, with a fee, some one is the whole fee leg |
| Payments.OrderIrrelevant | internal/reconcile/reconcile.go:547-580 | the verdict does not depend on the order of operations |
| Payments.BothLegsIff | internal/reconcile/reconcile.go:475-506 | one operation can be both legs exactly if the legs are indistinguishable |
| Payments.LegsAreDistinct | internal/reconcile/reconcile.go:494-506 | otherwise an accepted transfer with a fee shows two different operations |
| Payments.AssetsAgree | internal/reconcile/reconcile.go:439-446 | engine and reconciler mean the same asset wherever both resolve it |
| Payments.Buildable | internal/settlement/engine.go:84-129 | the engine builds payments exactly if wallets, asset and, with a fee, the fee wallet are there |
| Payments.BuiltPayments | internal/settlement/engine.go:110-129 | what is built adds up to the amount: net to the recipient, the fee to the platform, both in the transfer's asset |
| Payments.EngineOpsAccepted | internal/reconcile/reconcile.go:416-449 | reconciliation can rebuild the expectation exactly if the issuer is configured, and then accepts what was built |
| Payments.AcceptedIff | internal/reconcile/reconcile.go:451-506 | reconciliation accepts exactly the operations that make what the engine builds: the main payment by the sender and, with a fee, the fee payment by anyone |
| Payments.ReportedAcceptedIff | internal/reconcile/reconcile.go:451-506 | of payments by one account it accepts exactly a list by the sender that holds the built ones |
| Payments.UnknownSender | internal/reconcile/reconcile.go:393-404 | a transfer without a known sender is accepted from any account |
| Payments.EngineAssets | cmd/worker/main.go:104-109 | the assets the engine pays in, each with the issuer configured for it |
| Payments.ReconciledAssets | internal/assets/assets.go:15-48 | the assets the reconciler expects: the same, in any spelling, if their issuer is configured |
| Payments.RebuiltIff | internal/reconcile/reconcile.go:416-449 | the expectation can be rebuilt exactly if the wallets it names exist and the asset is registered |
| Payments.EndToEnd | internal/settlement/engine.go:110-129 | from fee schedule to ledger: payments add up to the amount, none is negative, and reconciliation accepts them |
| Grouping.GroupsConserve | internal/fees/service.go:74-87 | summing by key conserves the total |
| FeeSummary.AssetTotals | internal/fees/service.go:74-87 | an asset's total is the sum of its collections |
| FeeSummary.TenantsConserve | internal/fees/service.go:90-103 | an asset's tenant totals add up to its total |
| FeeSummary.ReportConserves | internal/fees/service.go:65-106 | the report adds up to everything collected |
| FeeSummary.CorrectListsTenants | internal/fees/service.go:74-103 | grouping by key is grouping by tenant: an entry per tenant that was charged, no two for one, each with its sum |
| FeeSummary.Accumulate | internal/fees/service.go:71-87 | the two maps hold the totals of what was read |
| FeeSummary.ListCollectedSummary | internal/fees/service.go:65-106 | one line per asset that was charged, with its total, and in it every tenant charged in it exactly once, with what it was charged |
| FiatRows.FiatRepo.ClaimDepositForProcessing | internal/postgres/fiat.go:56-66 | wins exactly for a pending deposit |
| FiatRows.FiatRepo.UpdateDepositStatus | internal/postgres/fiat.go:36-49 | writes exactly a deposit that is neither completed nor failed |
| FiatRows.FiatRepo.UpdateWithdrawalStatus | internal/postgres/fiat.go:132-142 | writes exactly a pending withdrawal |
| DepositRuns.StepKeepsInv | internal/fiat/service.go:151-186 | every step of every delivery keeps the deposit's invariant |
| DepositRuns.CreditedAtMostOnce | internal/fiat/service.go:161-181 | however deliveries interleave, at most one credit, only for an event with the deposit's amount and currency that says completed; completed only if credited; once credited, failed exactly if the creating request made it so |
| DepositRuns.CreditedCanEndAsFailed | internal/fiat/service.go:89-93 | if the rail may err on a deposit that the provider reports on, a run in which a credited deposit ends as failed |
| DepositRuns.CreditedNeverFailedIff | internal/fiat/service.go:89-93 | no credited deposit is ever failed exactly if the rail never errs on a deposit that the provider reports on |
| DepositRuns.DueIsCreditedIff | internal/fiat/service.go:157-186 | a completed payment whose delivery was answered 200 is always credited, once nobody has the credit in hand, exactly if neither the rail nor another event contradicts it, no claim and no transfer errs, and nobody stops between claim and credit |
| DepositRuns.LostToAClaimError | internal/fiat/service.go:173-175 | a run in which a claim that errs is answered 200, and the payment is not credited |
| DepositRuns.LostForGoodIff | internal/fiat/service.go:157-159 | such a payment is credited in no continuation exactly if its row has left pending |
| DepositService.Handler.InitiateDeposit | internal/fiat/service.go:65-96 | under any interleaving, the row keeps what was asked for, and after a rail error whose write succeeds it is failed, or completed already; undisturbed, the exact row |
| DepositService.Handler.HandleWebhook | internal/fiat/service.go:151-186 | under any interleaving the user is paid at most once, the deposited amount, to the depositing wallet; a mismatch is reported exactly if the pending deposit's amount differs or its currency in any case; a completed event that agrees and returns nil is on record as answered 200; undisturbed: the exact row, payment and report |
| WithdrawalRuns.StepKeepsInv | internal/fiat/service.go:188-220 | every step of every delivery keeps the withdrawal's invariant |
| WithdrawalRuns.RefundedAtMostOnce | internal/fiat/service.go:198-219 | however deliveries interleave, at most one refund, never for a withdrawal that was completed or that the creating request failed |
| WithdrawalRuns.RefundsCoveredIff | internal/fiat/service.go:198-219 | refunds never exceed debits exactly if the provider reports only on debited withdrawals |
| WithdrawalRuns.RailErrorKeepsDebit | internal/fiat/service.go:136-140 | if the rail may err, a run in which the user stays debited |
| WithdrawalRuns.RefundErrorKeepsDebit | internal/fiat/service.go:213-217 | if a refund may err, a run in which the user stays debited |
| WithdrawalRuns.CrashKeepsDebit | internal/fiat/service.go:206-217 | if a process may stop before the refund, a run in which the user stays debited |
| WithdrawalRuns.GivenBackIff | internal/fiat/service.go:188-220 | with nobody about to refund it, a failed withdrawal that was debited was given back exactly if a webhook failed it and its refund neither erred nor was dropped |
| WithdrawalRuns.EveryDebitGivenBackIff | internal/fiat/service.go:98-220 | every failed withdrawal gives its debit back exactly if the rail never errs, refunds never err, and nobody stops before the refund |
| WithdrawalRuns.NeverRefunded | internal/fiat/service.go:194-196 | what was not given back by then is given back in no continuation, whichever way it was kept |
| WithdrawalService.Handler.InitiateWithdrawal | internal/fiat/service.go:98-143 | under any interleaving, the user is debited exactly once, or not at all if the debit errs; the row keeps what was asked for; an error whose write succeeds leaves it pending no more; undisturbed, nothing is given back |
| WithdrawalService.Handler.HandleWebhook | internal/fiat/service.go:188-220 | under any interleaving at most one refund, of what was debited, and only of a failed row; undisturbed: the exact row, refund and report |
| IdempotencyRuns.StepKeepsSound | internal/postgres/idempotency_repo.go:22-81 | every step keeps the records of a key spaced by expiry |
| IdempotencyRuns.ExecutionsAreSpaced | internal/postgres/idempotency_repo.go:22-63 | two executions for one key happen only if the second record was inserted at or after the expiry of the first |
| IdempotencyRuns.StepKeepsFaithful | internal/postgres/idempotency_repo.go:83-133 | if no handler outlives its record, everything read belongs to the execution that produced it |
| IdempotencyRuns.ReplaysOwnIff | internal/server/idempotency/middleware.go:61-77 | replays are the response of the same request exactly if no handler outlives its record |
| IdempotencyRuns.WrongReplay | internal/postgres/idempotency_repo.go:122-133 | otherwise a run that replays another request's response |
| IdempotencyRuns.EmptyHanded | internal/postgres/idempotency_repo.go:56-62 | if a lookup may meet the row locked, by another lookup or by a completion, a run in which a request is told that a live record exists, and is given none |
| IdempotencyRuns.TooSlow | internal/postgres/idempotency_repo.go:39-62 | if acquiring the key may take half a record's lifetime, another such run: the records it meets expire |
| IdempotencyRuns.NeverEmptyHandedIff | internal/postgres/idempotency_repo.go:22-63 | no request ever goes away empty-handed exactly if no lookup meets the row locked and acquiring the key always takes less than half a record's lifetime |
| IdempotencyService.IdempotencyRepo.InsertIfAbsent | internal/postgres/idempotency_repo.go:65-81 | inserts exactly if the key has no record |
| IdempotencyService.IdempotencyRepo.LookupLive | internal/postgres/idempotency_repo.go:87-120 | finds exactly a record that is live and not locked |
| IdempotencyService.IdempotencyRepo.ClearExpired | internal/postgres/idempotency_repo.go:39-46 | deletes exactly an expired record |
| IdempotencyService.IdempotencyRepo.Complete | internal/postgres/idempotency_repo.go:122-133 | completes whatever record the key has |
| IdempotencyService.Server.TryAcquire | internal/postgres/idempotency_repo.go:22-63 | under any interleaving, a won key has a record of this request, a record handed over is the visible one, and of two lookups in vain the second met none that is live and unlocked; undisturbed, exactly which |
| IdempotencyService.Server.Serve | internal/server/idempotency/middleware.go:55-77 | under any interleaving, conflict, different body and replay are justified by the record of the key, no record by none being visible, and a handled request is an execution of its own; undisturbed, exactly which |
| Csv.WriteRow | internal/batch/csv.go:12-27 | appends the line of one transaction |
| Csv.ToCSV | internal/batch/csv.go:9-29 | header and one line per transaction |
| Csv.FieldReadsBack | internal/batch/csv.go:31-36 | any field text, printed and read, is itself |
| Csv.RoundTrip | internal/batch/csv.go:9-36 | a reader following section 2 of RFC 4180 recovers every list of rows |
| Csv.ColumnsUnderTitles | internal/batch/csv.go:11-26 | read back, every transaction has a record of its own, in order, and under each title the value the title promises |
| Csv.PlainIff | internal/batch/csv.go:31-36 | a field is written as it is exactly if it holds no comma, quote or line break |
| Csv.ExportIsInjective | internal/batch/csv.go:9-36 | no two different exports print the same |
| Base58.AlphabetIsSymbols | internal/apikey/apikey.go:10 | the alphabet has 58 distinct symbols in the expected order |
| Base58.EncodeValue | internal/apikey/apikey.go:13-24 | the divmod loop and the reversal give the base-58 digits of the value |
| Base58.ReverseInPlace | internal/apikey/apikey.go:22-24 | the swapping loop reverses |
| Base58.Encode | internal/apikey/apikey.go:12-33 | those digits, and one '1' per leading zero byte |
| Base58.DecodeInvertsEncode | internal/apikey/apikey.go:12-33 | decoding gives back the bytes, for every length |
| Base58.EncodeInvertsDecode | internal/apikey/apikey.go:12-33 | every base58 string encodes exactly one byte string |
| Base58.KnownEncoding | internal/apikey/apikey.go:12-33 | one known encoding, which fixes the order of bytes and symbols |
| Base58.EncodeIsInjective | internal/apikey/apikey.go:12-33 | different byte strings have different encodings |

## Left out

- HTTP handlers, JSON, configuration, metrics, alerting, webhooks to tenants, the SDK and the web application: no hard invariant.
- Cryptography: an envelope is identified with its hash.
- What the screeners other than the sanctions index look at, such as the velocity of a wallet: their answers are given.
- The XDC settlement engine: it records the hash after sending, so the single-envelope theorem is about the Stellar engine only.
- Several rows at once: rows do not affect each other, so every step system has one row; the loops over listed rows are modelled as what they do to one of them.
- Tenant scoping of statements, monthly limits, trustlines and wallet lookups in creating a transfer: single-branch checks; their errors end `Initiate` before anything is stored.
- The UNIQUE constraint on tx_hash, which could make a hash write fail: covered by the environment's failing hash write.
- GetStuckPendingTxes scans a nullable tx_hash into a plain string; how the database driver treats a NULL there is not modelled, the listing is.
- The check in RecoverPending that skips held rows: the listing never returns one.
- Balance refresh and the fee-collection record after a confirmation: they do not touch the transfer's row.
- The dispatch of a webhook event by its type to deposits or withdrawals: past it, the source looks at the event's status only, and so does the model.
- An InitiateTransfer that stores a held transfer and then reports an error is, for fiat deposits and withdrawals, an error: no credit is counted.
- The conversion rate of a withdrawal and the quote of a deposit: the amounts are given.
- The JSONB column of a stored response, which may normalise white space: the body is kept as stored.
- Waiting for a row lock: a statement that finds the row locked waits in the step system, and in `IdempotencyService.Server` gives up with an error.
- API edits of a schedule racing with the worker: both write whole rows without a guard; edits are proved on their own.
- The amount of a schedule: no statement depends on it.
- Schedules.Update: for an unknown frequency that is overdue the source loops for ever, so the method excludes it; RollForwardTerminatesIff says exactly when.
- Path-payment operations of the strict-send structure: the source extracts only the two structures the model has.
- Text as bytes: the source compares code points of UTF-8 text; the model's strings are sequences of characters.
- Case tables and white space: parameters; only idempotence of lower-casing and the plain space are assumed, and only for idempotence.
- Base58.ReverseInPlace: the slice is local to the function, so the swap is on a local value and aliasing does not arise.
- Locks, reload timers and statistics of the sanctions set.
- Text form of amounts in the export: fields arrive as text.
- Floating-point route scoring, exchange rates, rate limiters, treasury sweeps, batch counters.
