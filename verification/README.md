# The booking platform's money, calendar, booking and dispatch rules

A model of the rules a home-services platform runs on, with proofs of what they keep.
Run `dafny verify dfyconfig.toml` in this directory to check all of it.

## What is modelled

**Money** (`Books` and everything built on it). One state holds the tables of the commission module: pay
rows, payouts, deductions, incentive progress, contributions, and the transfer requests the gateway
has seen. `class Tables` is the database; each service operation is a method on it, proved to turn
its `View()` into what a function of the old `View()` says. `MoneyRuns` interleaves all sixteen kinds
of step freely, with the gateway deciding each transfer on its own and webhooks arriving any number of
times in any order. An evaluation appears as its separate writes, each with whatever facts were read
before it. `MoneyInvariants.Sound` is what every step keeps, and `MoneyRuns.FactHolds` what is kept of
one payout by every step fair to it; the other law files draw the consequences: what debts add up to (`DebtLaws`,
`RejectLaws`), what a payout pays for (`PayLaws`), what a reversal recovers (`ReversalLaws`), what a
generation leaves (`GenerateLaws`), which transfers nobody hears of again (`TransferLaws`), and which
bonuses slip through (`BonusGaps`). `DraftLaws`, `EvaluationLaws` and `MoneyColumns` tell
in columns and sums alone what each operation comes to.

**Calendar** (`Calendar`, `IncentivePeriods`, `PeriodLaws`, `PeriodLimits`, `RecurringPlans`). A day-count model of
`Date` as section 21.4.1 of ECMA-262 defines it, the Indian-midnight periods and ISO weeks built on
it, and the month-clamped recurrence of standing orders.

**Bookings** (`BookingTypes`, `CancellationPolicy`, `Bookings`, `BookingRuns`, `ColumnLaws`). The state machine with
every writer of `status`, those that go round the guarded door included, its payments and refunds, and
the cancellation and reschedule policy with its previews. `ColumnLaws` tells every column after every
operation.

**Dispatch** (`DispatchLadder`, `DispatchRanking`, `Dispatch`, `DispatchRuns`, `DispatchService`,
`AttemptLaws`). The widening search, the ranking, and the locked attempt. `Dispatch` takes an attempt apart into its
single reads and writes, so that runs interleave with each other and with every other booking
operation; `DispatchService` is the service itself, proved to be what those moves come to when
nothing interrupts them, and `AttemptLaws` how an attempt ends.

Money is whole paise, percentages are hundredths or exact reals, instants are integer milliseconds,
and a row's id is its position in its table. An error return stands for each exception.

## Where the code and what is said of it differ

Each of these is a lemma below, most with the exact condition under which the code does what is promised.

- A failure webhook is recorded on any payout not yet paid. Delivered late, it can revive a rejected
  payout, which is then paid for rows it no longer holds, or free one whose retry is still under way
  (`FailureIsSafeExactlyWhenFair`, `UnfairRuns`). What it breaks is told apart: that the payout holds what it
  deducted, that its rejection is for good, that its requests are answered one by one. Results that rest on
  one of these ask only that the failures of that payout spare that one; all other results about runs hold
  of every run.
- A confirmation finds its payout only by the reference the payout carries. A first transfer that is never
  answered leaves none, and an unanswered retry leaves the old one; either payout stays in processing for
  good, though its transfer may have gone through (`TransferLaws`).
- The unwind key is per progress row, so a bonus won again on a row already unwound is not
  recovered, and a repeated call then reports less than the first (`RepeatedReversalAgrees`,
  `BonusWonAgainIsNotRecovered`).
- A bonus can be credited to a job already in a payout. Nothing pays it once that payout is paid, though a
  reversal of the job charges it back (`LateBonusIsNeverPaid`, `LateBonusIsOwedBack`); and one credited
  after its job was reversed unpaid is held by a row that never pays it (`CreditAfterReversalIsLost`).
- A rating threshold is rounded, so one just above a sum of stars lets that sum pass (`VerdictErrsExactly`).
- `Date.UTC` reads years 0 to 99 as 1900 to 1999, so instants in those years fall outside their window, and
  weekly keys of the two hundred years collide (`PeriodLimits`).
- A monthly plan that loses its day to a short month does not get it back, and a plan the clock
  overtakes is never generated or deactivated again.
- The preview promises a refund for a paid booking still in window A; the cancellation writes none.
- A cancellation writes its refund before asking for it, without regard to earlier refunds: where they leave
  too little, the booking shows a refund that was never sent (`CancellationRefundIsTrue`,
  `PartRefundMakesItFalse`).
- The earliest slot the reschedule preview names is cut to whole milliseconds and can be refused.
- The transition service is not the only writer of status: reassignment, suspension and rescheduling write it
  too, and the first two make moves the table does not have.
- The two conditions on a Pro's id in the eligibility query overwrite each other, so a Pro over the cash
  ceiling is kept out of city-wide searches only.
- The ranking's tolerance makes its comparator intransitive for close scores, and distance stops
  deciding far enough out.
- The dispatch lock keeps a booking from being assigned twice at a time, but once it lapses, or a run breaks
  off between writing its rows and assigning, one Pro can be assigned twice.
- The attempt counter does not always rise while the lock holds: both writes that end an attempt, assigning
  and closing, put the number the attempt began with over whatever ops have counted meanwhile
  (`CounterFallsExactlyWhenOvertaken`).

## Model

| member | source | states |
|---|---|---|
| CommissionCalculator.DivideRoundHalfUp | src/modules/commission/commission-calculator.ts:49-53 | The nearest multiple, ties going up: the quotient is within half a divisor of the exact value, on the right side |
| CommissionCalculator.SharesRebuildThePrice | src/modules/commission/commission-calculator.ts:68-97 | Both shares are non-negative and sum to the price; the clamp bites exactly when the configured rate is worth more than the job |
| CommissionCalculator.ProShareIsMonotone | src/modules/commission/commission-calculator.ts:68-97 | A dearer job or a better rate of the same kind never lowers the Pro's share |
| CommissionCalculator.RoundingDriftIsBounded | src/modules/commission/commission-calculator.ts:49-127 | Over any list of n percentage jobs at most 100%, what is paid differs from the exact rational total by at most n/2 paise |
| Deductions.PlanIsExact | src/modules/commission/deductions.service.ts:140-175 | What is taken is the smaller of the available amount and the total owed; the lines are a prefix of the queue of positive debts and only the last may be partial |
| Deductions.OldestFirstIsUnique | src/modules/commission/deductions.service.ts:140-175 | Those two requirements leave no other list of lines |
| Deductions.TakeInOrder | src/modules/commission/deductions.service.ts:152-172 | The loop yields exactly the specified plan, for every queue and every available amount |
| Deductions.PlanConsumption | src/modules/commission/deductions.service.ts:140-175 | The plan is made over the outstanding rows of this Pro, oldest first, and the reported total is the sum of its lines |
| Deductions.Queue | src/modules/commission/deductions.service.ts:112-120 | Outstanding rows of this Pro, in creation order, each with what is still owed; that none is left out is `DraftLaws.AttemptIsDecidedSo` and `OldestDebtsFirst` |
| Deductions.Raise | src/modules/commission/deductions.service.ts:51-104 | A debt is added once per dedupe key and never for a non-positive amount; the row handed back carries the key asked for |
| Deductions.Waive | src/modules/commission/deductions.service.ts:184-216 | Only an existing row that is neither waived nor taken is waived, and nothing else changes |
| Deductions.WaivedIsNoLongerOwed | src/modules/commission/deductions.service.ts:184-216 | A waived row asks nothing of anybody and is otherwise as it was; a settled row and every other row stand |
| Deductions.RaisingAddsARow | src/modules/commission/deductions.service.ts:51-104 | In columns: a claim for something under a key no row carries appends one untouched row for that Pro and amount; any other claim appends nothing |
| PayoutBatch.ClaimDeductions | src/modules/commission/payout-batch.service.ts:308-342 | The loop of claims and splits equals folding the lines one by one |
| PayoutBatch.BuildOne | src/modules/commission/payout-batch.service.ts:182-346 | One Pro is drafted for, skipped with the reason and the amount withheld, or has nothing to pay; every table after it is determined |
| PayoutBatch.GenerateBatch | src/modules/commission/payout-batch.service.ts:73-149 | The loop over Pros: payouts created and Pros skipped, in order, with the resulting tables |
| PayoutBatch.ApprovePayout | src/modules/commission/payout-batch.service.ts:356-382 | Only a draft is approved; the refusals are told apart |
| PayoutBatch.RejectPayout | src/modules/commission/payout-batch.service.ts:391-449 | Only a draft or approved payout is rejected; its commissions are detached and its debts given back |
| DraftLaws.AttemptIsDecidedSo | src/modules/commission/payout-batch.service.ts:182-304 | In any sound state, from the columns alone: a draft pays the sum of the rows due and of their bonuses, deducts the smaller of that total and all the Pro owes, and is made exactly when there is a payable account, something due and the net reaches the minimum; otherwise the reason and the amount withheld |
| DraftLaws.DraftTakesTheRowsDue | src/modules/commission/payout-batch.service.ts:184-304 | A draft takes the next number and attaches exactly the rows due; without a draft nothing changes |
| DraftLaws.OldestDebtsFirst | src/modules/commission/payout-batch.service.ts:220-342 | Each debt row stands, is taken whole or, once at most, in part with the rest a new row; where a draft takes from a row, every older open row of its Pro is taken whole |
| BatchLaws.PlanIsClaimable | src/modules/commission/payout-batch.service.ts:220-342 | Where outstanding rows are whole, every planned line names a distinct untouched row and takes at most what it owes |
| BatchLaws.ClaimTakes | src/modules/commission/payout-batch.service.ts:308-342 | Claiming raises what the new payout owns by exactly the sum of the lines and no other payout changes |
| BatchLaws.ClaimGrows | src/modules/commission/payout-batch.service.ts:308-342 | Rows of other Pros are untouched, and a split only appends remainders without a key |
| BatchLaws.ClaimKeepsTotal | src/modules/commission/payout-batch.service.ts:308-342 | Splitting and claiming move no total that a split preserves |
| GenerateLaws.DecisionSeesOnlyItsPro | src/modules/commission/payout-batch.service.ts:182-232 | What is decided for a Pro depends on that Pro's rows alone |
| GenerateLaws.GenerationIsComplete | src/modules/commission/payout-batch.service.ts:73-149 | Every approved, unattached, unreversed row before the cutoff ends in one new draft for its own Pro, or its Pro is listed as skipped and the row is as it was |
| GenerateLaws.LeftToPay | src/modules/commission/payout-batch.service.ts:73-149 | After a generation the Pros with anything left to pay are exactly those it skipped, and each would be decided the same way again |
| GenerateLaws.GenerationIsIdempotent | src/modules/commission/payout-batch.service.ts:73-149 | An immediate second generation, in any order of Pros, creates nothing, changes nothing and skips the same Pros for the same reasons and amounts |
| Commissions.RecordCompletion | src/modules/commission/commission.service.ts:54-160 | A row is written once per booking, and only for a completed, started job of this Pro whose service has a rate; its amounts are told by `CompletionWrites` |
| Commissions.CompletionWrites | src/modules/commission/commission.service.ts:54-160 | In columns: exactly a done, started job of this Pro with a rate and no row gets one, pending, with the job's own booking, price and Pro; the two amounts sum to the price, and the Pro's is the rate's share to the nearest paisa or the flat rate, the whole price at most |
| Commissions.SweepMissing | src/modules/commission/commission.service.ts:201-244 | The sweep is the recording of each orphan in turn, and its count is exactly the orphans that have a Pro |
| Commissions.SweepPaysOnce | src/modules/commission/commission.service.ts:54-244 | Whatever repeats, a sweep leaves one row a booking, pays every payable orphan and changes no earlier row |
| Commissions.ApproveMatured | src/modules/commission/commission.service.ts:254-283 | Exactly the pending rows past the hold window and not held back become approved; no other row and no other column moves; the count is the number of rows that changed |
| Commissions.ReleasedIsTheUpdate | src/modules/commission/commission.service.ts:262-276 | Those facts determine the whole table after the pass |
| MoneyRuns.HoldEndsExactly | src/modules/commission/commission.service.ts:254-283 | Over every kind of step, a pending row becomes approved exactly by a maturing pass that finds it past the cutoff and not held back, becomes reversed exactly by its own reversal, and never becomes paid |
| Incentives.RatingVerdictIsExact | src/modules/commission/incentive-evaluators.ts:154-191 | For a threshold in hundredths the verdict holds exactly when there are enough jobs and the true average reaches the threshold |
| Incentives.VerdictErrsExactly | src/modules/commission/incentive-evaluators.ts:169-188 | For any threshold, the verdict on a sum of stars is wrong exactly when the scaled threshold lies less than a half above that sum, and then a Pro below the bar passes |
| Incentives.VerdictIsRightExactlyWhen | src/modules/commission/incentive-evaluators.ts:169-188 | So a threshold is judged rightly for every sum of stars exactly when it lies just above none |
| Incentives.ThirdDecimalIsRoundedAway | src/modules/commission/incentive-evaluators.ts:169-188 | An input where it goes wrong: one job, four stars, a bar of 4.004 |
| Incentives.EvaluateScheme | src/modules/commission/incentive-evaluation.service.ts:86-162 | The evaluation of one scheme: upsert, derive, sync, judge and credit; what that comes to is `EvaluationLaws.EvaluationWrites` |
| EvaluationLaws.EvaluationWrites | src/modules/commission/incentive-evaluation.service.ts:86-345 | From the columns alone: short of the mark an uncredited row shows what its jobs come to and the target; at the mark, with a job to hang it off, reward and credit go to the triggering job if it counts, else to one computed last; every other row stands. The mark is that the jobs of this Pro in the clipped period, not reversed, reach the target, or their stars the average |
| EvaluationLaws.DerivedAddsUp | src/modules/commission/incentive-evaluators.ts:154-191 | The jobs evaluated are as many as count in the window, and their values come to the same sum |
| EvaluationLaws.ShownIsStored | src/modules/commission/incentive-evaluation.service.ts:108-162 | Falling short with nothing stored before, a row shows exactly the sum of the contributions it then has |
| EvaluationLaws.ProgressColumns | src/modules/commission/incentive-evaluation.service.ts:108-427 | Over every kind of step: a progress row is added only by opening one that is not there, scored or credited only while it has no credit, and otherwise changed only by the reversal of a job, by what that contributed |
| Incentives.CreditBonus | src/modules/commission/incentive-evaluation.service.ts:291-345 | The credit re-checks its row: the reward lands on the progress row and the job together, or nothing changes |
| Incentives.SyncIsExact | src/modules/commission/incentive-evaluation.service.ts:259-282 | After a sync the stored jobs of a progress row are exactly the derived ones |
| Incentives.SyncIsIdempotent | src/modules/commission/incentive-evaluation.service.ts:259-282 | Syncing again changes nothing |
| Incentives.EvaluationStoresTheDerivedJobs | src/modules/commission/incentive-evaluation.service.ts:108-162 | An evaluation of an uncredited row leaves its stored contribution ids equal to the jobs that count in the window |
| Incentives.ReevaluationChangesNothing | src/modules/commission/incentive-evaluation.service.ts:86-162 | Evaluating again at any instant of the same window on unchanged rows changes nothing |
| Incentives.ClearCredits | src/modules/commission/incentive-evaluation.service.ts:386-412 | Exactly the rows credited against the job lose their credit, and each is reported with its snapshotted reward |
| Incentives.UnwindForCommission | src/modules/commission/incentive-evaluation.service.ts:370-427 | The job leaves every progress row, its bonuses are uncredited and reported, and the rows it counted for are recounted |
| Incentives.RecountAll | src/modules/commission/incentive-evaluation.service.ts:412-443 | Progress is the sum of the contributions that remain, for the touched rows only, in whatever order they are visited; how far it falls is `EvaluationLaws.ProgressFallsByItsShare` |
| EvaluationLaws.ReversalTakesBackItsShare | src/modules/commission/incentive-evaluation.service.ts:370-443 | A reversal takes exactly what the job contributed out of the sum behind every progress row; a row it counted for shows what remains, every other shows what it did, and the bonuses hung off the job are gone and no others |
| EvaluationLaws.ProgressFallsByItsShare | src/modules/commission/incentive-evaluation.service.ts:412-443 | So a row that showed that sum falls by exactly the reversed job's value |
| Disbursement.DisbursePayout | src/modules/commission/payout-disbursement.service.ts:56-211 | Sends an approved payout once: processing before the call, then paid, failed or left open by the answer; success is told apart exactly |
| Disbursement.RetryPayout | src/modules/commission/payout-disbursement.service.ts:220-249 | Only a failed payout is retried, by way of approved |
| Disbursement.SettlePayout | src/modules/commission/payout-disbursement.service.ts:259-333 | The payout carrying the reference is paid, with its approved commissions; an unknown reference or a paid payout changes nothing |
| Disbursement.MarkPayoutFailed | src/modules/commission/payout-disbursement.service.ts:343-379 | The payout carrying the reference is failed unless it is paid |
| Disbursement.HandleWebhook | src/modules/commission/payout-webhook.service.ts:84-115 | A delivery settles, fails or changes nothing by what the gateway says now, not by the event it names |
| MoneyColumns.PayoutColumns | src/modules/commission/payout-disbursement.service.ts:56-379 | Over every kind of step, a payout's status, reference and attempts are functions of that payout, the answer and the request whose reference it carries; no other column ever changes |
| MoneyColumns.RequestsAreLogged | src/modules/commission/payout-disbursement.service.ts:117-199 | The gateway's record grows by one request exactly when a payout is sent, open where it was not answered, and otherwise changes only by deciding on an open one |
| MoneyColumns.PayRowColumns | src/modules/commission/payout-disbursement.service.ts:259-333 | Over every kind of step, every column of a pay row: released, drafted, given back, paid with its payout, credited or reversed, each exactly when told |
| MoneyColumns.PayRowsAreAdded | src/modules/commission/commission.service.ts:54-160 | Over every kind of step, rows are added by completions alone, one for a job that earns pay and has none |
| MoneyColumns.RejectingGivesRowsBack | src/modules/commission/payout-batch.service.ts:391-449 | In any sound state a rejection makes exactly the rows the payout holds untouched again |
| MoneyColumns.DebtColumns | src/modules/commission/payout-batch.service.ts:296-449 | Over every kind of step, a debt row changes only when a draft takes it whole or in part, it is waived, or the payout that holds it is rejected, and then so |
| MoneyColumns.DebtsAreAdded | src/modules/commission/deductions.service.ts:51-104 | Debt rows are added only by hand for a positive amount, by a draft that takes part of one, and by a reversal |
| Reversal.ReverseCommission | src/modules/commission/commission-reversal.service.ts:98-207 | Unpaid rows are dropped, paid ones carried as debts with their bonuses; the answer and every table are determined, repeat calls included |
| Reversal.RaiseEachBonus | src/modules/commission/commission-reversal.service.ts:165-190 | The loop over unwound bonuses raises each once and reports the sum of the rewards |
| Reversal.OnRefund | src/modules/commission/commission-reversal.service.ts:69-88 | Only a full refund of a job with a commission reverses by itself |
| MoneyColumns.ReversalAddsDebts | src/modules/commission/commission-reversal.service.ts:155-190 | In columns: an unpaid job's reversal adds no debt; a paid one's adds only its commission's and one for a bonus hung off it, whole, under their own keys, and touches no row there was |
| MoneyColumns.FirstAnswerIs | src/modules/commission/commission-reversal.service.ts:98-207 | The first answer is nothing for an unpaid job, and for a paid one its commission plus every bonus its progress rows show hung off it |
| ReversalLaws.ReversalRecovers | src/modules/commission/commission-reversal.service.ts:98-207 | In every sound state: an unpaid row raises no debt; a paid row raises its commission plus the bonuses credited against it, in full exactly when no progress row involved was unwound before |
| ReversalLaws.ReversedUnpaidIsNeverPaid | src/modules/commission/commission-reversal.service.ts:128-150 | A commission reversed before it was paid sits in no payout in any later run, so is never paid |
| ReversalLaws.RecordStands | src/modules/commission/commission-reversal.service.ts:210-232 | No step of any kind changes the amount recorded against a reversed commission: batches that split or release it, waivers and other reversals included |
| ReversalLaws.RecordStandsThroughout | src/modules/commission/commission-reversal.service.ts:210-232 | Nor does any run, failures delivered out of turn included |
| ReversalLaws.RepeatedReversalAgrees | src/modules/commission/commission-reversal.service.ts:98-127 | Asked again after any run at all, a reversal changes nothing, and reports the same effect and total exactly when the first answer was nothing paid, or positive with no bonus unwound before |
| BonusGaps.BonusWonAgainIsNotRecovered | src/modules/commission/commission-reversal.service.ts:165-190 | How that comes about: a bonus on a paid job is charged back with it, an evaluation wins it again on another paid job, and reversing that one raises less than it reports and reports less when asked again |
| MoneyRuns.StepKeepsSound | src/modules/commission/payout-batch.service.ts:182-449 | Every step keeps the tables sound, a failure out of turn included: debt rows whole and held by one live payout of their Pro, rows attached and paid together with their payout, requests and references on record, incentive amounts, keys and sources |
| MoneyRuns.RunKeepsSound | src/modules/commission/payout-disbursement.service.ts:56-379 | The tables are sound after every run of all sixteen kinds of step |
| MoneyRuns.StepKeeps | src/modules/commission/payout-batch.service.ts:182-449 | Every step fair to a payout as to one of three facts keeps that fact: it holds what it says it deducted; it is rejected; no request of it is open but its latest, and none while it neither waits nor is paid |
| MoneyRuns.RunKeeps | src/modules/commission/payout-disbursement.service.ts:56-379 | So does every run fair to it as to that fact, whatever befalls other payouts |
| MoneyRuns.FailureIsSafeExactlyWhenFair | src/modules/commission/payout-disbursement.service.ts:343-379 | Recording a failure keeps each fact if and only if it is fair as to it: it does not revive a rejected payout with something deducted, for the first; nor any rejected payout, for the second; and all requests of the payout were refused, for the third |
| MoneyRuns.RejectedIsForGood | src/modules/commission/payout-disbursement.service.ts:343-379 | A rejected payout stays rejected through every run that delivers it no refusal while rejected |
| PayLaws.PayoutsPayForTheirRows | src/modules/commission/payout-batch.service.ts:198-304 | In every state any run reaches, what a payout says it pays in commissions is the sum of the rows attached to it, reversed out of it unpaid, or sent back by its rejection; and what it says it pays in bonuses is that sum of theirs less the bonuses won on its rows after it was drafted |
| PayLaws.LivePayoutsSendNothingBack | src/modules/commission/payout-batch.service.ts:391-449 | Through a run that delivers it no refusal while rejected, nothing was ever sent back out of a payout live at its end |
| BonusGaps.LateBonusIsNeverPaid | src/modules/commission/payout-batch.service.ts:184-304 | A bonus won on a row already paid is paid by no payout in any later run: the row stays in its payout, and the payout as it was |
| BonusGaps.LateBonusIsOwedBack | src/modules/commission/commission-reversal.service.ts:155-190 | Though reversing that row charges the Pro for it in full |
| BonusGaps.PaidIsForGood | src/modules/commission/payout-disbursement.service.ts:259-286 | Over any run, a paid row stays paid in its payout and a paid payout as it is, those reversed afterwards included |
| MoneyRuns.PaidMeansInAPaidPayout | src/modules/commission/payout-disbursement.service.ts:259-286 | In every state any run reaches, a commission is paid exactly when attached to a paid payout of its Pro; an attached unpaid one is approved; none is attached to a rejected payout; a reversed unpaid one is unattached |
| MoneyRuns.TransfersAreOnRecord | src/modules/commission/payout-disbursement.service.ts:117-199 | In every state any run reaches, a payout was sent as often as it moved to processing, carries no reference but to one of its own requests, and is paid only if one went through |
| MoneyRuns.NoPayoutIsSentTwice | src/modules/commission/payout-disbursement.service.ts:117-199 | At most one transfer of a payout is processed in every run whose failures reach it only after all its requests were refused |
| MoneyRuns.EachRequestIsOneMove | src/modules/commission/payout-disbursement.service.ts:117-137 | A request reaches the gateway in exactly the steps that move one payout to processing, one request a step |
| MoneyRuns.RedeliveredSettlementChangesNothing | src/modules/commission/payout-disbursement.service.ts:259-275 | A confirmation delivered again changes nothing, in any state whose payouts carry no references but their own, which every run keeps so |
| TransferLaws.SettlementLandsExactlyWhenReferenced | src/modules/commission/payout-disbursement.service.ts:259-275 | A processed transfer makes its payout paid if and only if the payout still carries the reference of that transfer |
| TransferLaws.UnansweredStaysProcessing | src/modules/commission/payout-disbursement.service.ts:189-211 | A first transfer the gateway never answered stays in processing through every later run |
| TransferLaws.UnansweredRetryStaysProcessing | src/modules/commission/payout-disbursement.service.ts:189-249 | A payout whose transfer went through while it carries an older reference, or none, stays in processing through every such run |
| UnfairRuns.UnansweredRetryIsLost | src/modules/commission/payout-disbursement.service.ts:189-249 | From any sound state: a refused payout retried without an answer comes to just that, if the retry goes through |
| MoneyRuns.IncentiveIsTheCreditedRewards | src/modules/commission/incentive-evaluation.service.ts:291-427 | In every state any run reaches, for every unreversed commission the incentive amount is the sum of the snapshotted rewards of the progress rows credited to it |
| MoneyRuns.CreditStaysUntilUnwound | src/modules/commission/incentive-evaluation.service.ts:291-427 | A credit, once given, changes only in the step that reverses the job it hangs off, other evaluations' late writes included |
| MoneyRuns.CreditedOnceAtATime | src/modules/commission/incentive-evaluation.service.ts:291-427 | However evaluations of one row interleave between deriving and crediting, over any run it was given its bonus as often as it was taken back, and once more if it holds one |
| BonusGaps.CreditAfterReversalIsLost | src/modules/commission/incentive-evaluation.service.ts:291-345 | A bonus credited to a job reversed unpaid since the evaluation read it counts as won in every later run, on a row no payout pays and no reversal clears |
| MoneyRuns.EvaluationIsItsWrites | src/modules/commission/incentive-evaluation.service.ts:86-162 | Made without interruption, the separate writes that runs interleave come to exactly the evaluation |
| MoneyRuns.EvaluationKeeps | src/modules/commission/incentive-evaluation.service.ts:86-345 | Evaluating any scheme at any time keeps the tables sound |
| UnfairRuns.StaleFailureSendsTwice | src/modules/commission/payout-disbursement.service.ts:343-353 | From any sound state: a refusal delivered a second time, after a retry that went unanswered, lets one payout be transferred twice, though it is fair as to its deduction and its rejection |
| UnfairRuns.StaleFailureRevivesARejectedPayout | src/modules/commission/payout-disbursement.service.ts:343-353 | From any sound state: a refusal delivered after rejection makes the payout retryable for an amount whose deductions it gave back |
| UnfairRuns.RevivedPayoutPaysForNothing | src/modules/commission/payout-disbursement.service.ts:343-353 | Whatever it had deducted, a rejected payout revived so and retried is paid while no commission sits in it |
| MoneyInvariants.BuildKeepsHolding | src/modules/commission/payout-batch.service.ts:208-342 | A draft holds exactly the rows its deduction says, splits included, and no other payout holds more or less |
| MoneyInvariants.BuildKeepsKeys | src/modules/commission/payout-batch.service.ts:308-342 | Splitting copies no dedupe key and loses none |
| MoneySteps.RejectKeepsSound | src/modules/commission/payout-batch.service.ts:391-449 | Rejecting keeps the tables sound: nothing stays attached to, or claimed by, the payout |
| MoneySteps.DisburseKeepsSound | src/modules/commission/payout-disbursement.service.ts:56-211 | Sending keeps them sound under every answer of the gateway |
| MoneySteps.SettleKeepsSound | src/modules/commission/payout-disbursement.service.ts:259-333 | Settling a processed transfer keeps them sound |
| MoneySteps.MarkFailedKeepsSound | src/modules/commission/payout-disbursement.service.ts:343-379 | So does recording a refusal, whenever it is delivered |
| MoneySteps.ReverseKeepsSound | src/modules/commission/commission-reversal.service.ts:98-207 | Reversing keeps them sound |
| DebtLaws.RowsAddUp | src/modules/commission/deductions.service.ts:112-223 | With every row whole, what a Pro was ever charged is outstanding, waived, or taken |
| DebtLaws.DebtsAddUp | src/modules/commission/deductions.service.ts:112-223 | Where payouts hold what they say, what a Pro was ever charged is outstanding, waived, or in the stored deductions of live payouts |
| DebtLaws.StepRaises | src/modules/commission/payout-batch.service.ts:296-342 | Only raising and reversing change the total ever raised, by exactly what they charge; splitting, claiming, releasing and waiving move none of it |
| DebtLaws.DebtIsConserved | src/modules/commission/payout-batch.service.ts:296-449 | Over every run, for every Pro, debt ever raised equals outstanding plus waived plus taken by live payouts, and every row is untouched or wholly taken by one live payout of its Pro |
| DebtLaws.StoredDeductionIsItsRows | src/modules/commission/payout-batch.service.ts:296-449 | A payout's stored deduction is the sum of the rows it holds in every state reached without a refusal delivered to it while rejected with something deducted |
| DebtLaws.StoredDeductionsAreTheRows | src/modules/commission/payout-batch.service.ts:296-449 | With no such refusal for any payout, what is taken from a Pro is the sum of the stored deductions |
| RejectLaws.RejectGivesBackWhatItHolds | src/modules/commission/payout-batch.service.ts:391-449 | Rejecting any rejectable payout in any sound state gives its Pro back exactly what it holds and nobody else anything; every job's total and every key stand, and exactly the rows attached to it are detached |
| RejectLaws.RejectGivesBackTheDeduction | src/modules/commission/payout-batch.service.ts:391-449 | Where it holds what it says, that is exactly its stored deduction |
| RejectLaws.DraftTakesItsDeduction | src/modules/commission/payout-batch.service.ts:182-346 | In any sound state a draft takes from its Pro's outstanding total exactly its deduction, from nobody else anything, and changes no job's total |
| RejectLaws.RejectionRestoresTheDebts | src/modules/commission/payout-batch.service.ts:296-449 | After any run between the two, other drafts and the approval included, that delivers it no refusal while rejected with something deducted, the rejection moves every outstanding total by exactly what the draft moved it by, the other way |
| RejectLaws.RejectionRestoresTheRows | src/modules/commission/payout-batch.service.ts:296-449 | And, with no refusal delivered to it while rejected, every row the draft took can be batched again if and only if it was not reversed meanwhile |
| DebtLaws.RejectUndoesDraft | src/modules/commission/payout-batch.service.ts:296-449 | With nothing between, drafting then rejecting puts every commission row and debt row back, but that the one row half afforded stays split in two |
| DebtLaws.RejectForgivesNothing | src/modules/commission/payout-batch.service.ts:391-449 | With nothing between, every Pro's outstanding total, every job's deduction total and every dedupe key are as they were, and at most one keyless row is added |
| DebtLaws.SplittingMovesNothing | src/modules/commission/payout-batch.service.ts:313-342 | Splitting an untouched row changes no total, and the new row carries no key |
| DebtLaws.ReversalRaises | src/modules/commission/commission-reversal.service.ts:155-190 | A paid reversal adds its commission and each bonus whose key is new, whatever is being summed |
| Calendar.CivilRoundTrip | src/modules/commission/incentive-periods.ts:30-56 | Calendar dates and day numbers are in bijection |
| Calendar.YearIsUnique | src/modules/commission/incentive-periods.ts:30-56 | The year of a day number is the only one whose days include it |
| Calendar.TheCalendarIsGregorian | src/modules/commission/incentive-periods.ts:30-56 | Day 0 is the first of 1970, each month has its thirty, thirty-one or twenty-eight days, twenty-nine in leap years, and each follows the one before |
| IncentivePeriods.ComputeIsoWeek | src/modules/commission/incentive-periods.ts:58-84 | Stepping the two Date objects yields the year and number of the week in closed form |
| IncentivePeriods.KeyIsInjective | src/modules/commission/incentive-periods.ts:86-129 | Two printed keys agree only when year and part agree, negative and long years included |
| PeriodLaws.EveryInstantIsInItsWindow | src/modules/commission/incentive-periods.ts:86-129 | Every instant lies in its own half-open window exactly when its Indian year is not 0 to 99; where the window lies is `WindowsTurnAtIndianMidnight` and `WindowHoldsItsSpan` |
| PeriodLaws.WindowsTurnAtIndianMidnight | src/modules/commission/incentive-periods.ts:19-129 | For years but 0 to 99 every recurring window starts and ends at 18:30 universal time |
| PeriodLaws.WindowHoldsItsSpan | src/modules/commission/incentive-periods.ts:86-129 | And it holds exactly the instants that five and a half hours ahead of universal time have the same date, the same Monday-to-Sunday week, or the same year and month |
| PeriodLaws.KeysNameTheDate | src/modules/commission/incentive-periods.ts:86-129 | A daily or monthly key spells the date, or the year and month, five and a half hours ahead of universal time |
| PeriodLaws.NumbersReadBack | src/modules/commission/incentive-periods.ts:86-129 | The digits in a key read back as the number |
| PeriodLaws.OnceIsForAll | src/modules/commission/incentive-periods.ts:86-129 | A scheme that does not recur has one window, from the epoch to the last day of 9999 |
| PeriodLimits.ShortKeysTellExactly | src/modules/commission/incentive-periods.ts:86-129 | An instant shares its daily or monthly key with exactly the instants of its window, if and only if its year is not 0 to 99 |
| PeriodLimits.WeekKeysTellExactly | src/modules/commission/incentive-periods.ts:58-129 | An instant shares its weekly key with exactly the instants of its window, if and only if its week has no day in the years 0 to 99 or 1900 to 1999 |
| PeriodLaws.WeekIsTheStandards | src/modules/commission/incentive-periods.ts:58-84 | The year and number are those of section 4.1.4 of ISO 8601:2004 (the week starts on that Monday and most of its days are in its year) exactly for dates whose year and week year are not 0 to 99, and the number is then 1 to 53 |
| PeriodLaws.WeeksAreMondays | src/modules/commission/incentive-periods.ts:58-84 | Years and week numbers are in bijection with Mondays |
| PeriodLaws.PayoutPeriodIsWhole | src/modules/commission/incentive-periods.ts:131-147 | A batch window is always its number of days long, and ends at the Indian midnight after its end date exactly when that year is not 0 to 99 |
| RecurringPlans.StepMonth | src/modules/bookings/recurring-plans.service.ts:206-229 | The two setter calls land on the clamped day of the next month |
| RecurringPlans.ComputeAdvance | src/modules/bookings/recurring-plans.service.ts:206-229 | The next occurrence for every frequency, the unknown one included |
| RecurringPlans.MonthlyStepLands | src/modules/bookings/recurring-plans.service.ts:206-229 | A monthly step is strictly later, in exactly the next calendar month, at the same time of day, on the same day or the last |
| RecurringPlans.NextIsDaysLater | src/modules/bookings/recurring-plans.service.ts:206-229 | Any other step keeps the time of day and goes one, seven or fourteen days on, seven for an unknown frequency |
| RecurringPlans.MonthlyRun | src/modules/bookings/recurring-plans.service.ts:206-229 | After n steps the day is the smaller of the starting day and the shortest month visited |
| RecurringPlans.RecurringPlan.GenerateOne | src/modules/bookings/recurring-plans.service.ts:174-204 | The plan advances past the slot it booked, and ends when the next would pass its end date; a refused booking changes nothing |
| RecurringPlans.GenerateDueBookings | src/modules/bookings/recurring-plans.service.ts:136-172 | Each plan ends as its own pass leaves it, a failing plan stops or changes no other, and the two counts are exactly the plans that booked and those due that could not |
| RecurringPlans.PassesSo | src/modules/bookings/recurring-plans.service.ts:136-204 | In columns: exactly when a pass books, and then the slot that follows, or the plan's end where that would be past its end date |
| RecurringPlans.EachDuePlanIsCounted | src/modules/bookings/recurring-plans.service.ts:136-172 | The first count is the number of plans that booked, and both together the number due |
| RecurringPlans.OccurrencesFollowThePlan | src/modules/bookings/recurring-plans.service.ts:136-229 | Over any passes an unedited plan books exactly the successive iterates of its first slot, strictly increasing, none past its end date |
| RecurringPlans.OvertakenPlanIsStuck | src/modules/bookings/bookings.service.ts:123-135 | A slot the clock has overtaken is refused on every later pass, so the plan never moves again |
| CancellationPolicy.FeeAndRefundRebuildThePrice | src/modules/bookings/cancellation-policy.ts:111-189 | Fee plus refund is the payable amount, with the fee between nothing and all of it |
| CancellationPolicy.FeeNeverFallsWithTime | src/modules/bookings/cancellation-policy.ts:76-189 | The fee never falls as time advances |
| CancellationPolicy.RefundGrowsWithThePrice | src/modules/bookings/cancellation-policy.ts:111-189 | Neither refund nor fee falls as the payable amount grows |
| CancellationPolicy.WhoeverPaysIsLate | src/modules/bookings/cancellation-policy.ts:111-189 | A fee is charged only to a customer past window A, without a waiver, inside the cutoff or with a Pro on the way |
| CancellationPolicy.FeeIsTheLateShare | src/modules/bookings/cancellation-policy.ts:111-189 | When the policy charges it charges the percentage of the price, cut to whole paise, or with somebody on the way the flat fee where that is more, up to the price; and otherwise nothing |
| CancellationPolicy.WaiverIsNoted | src/modules/bookings/cancellation-policy.ts:111-189 | The waiver is on record exactly where it spared a customer a fee to ask about, and the timing is late exactly inside the free hours |
| CancellationPolicy.ChargesAreSo | src/modules/bookings/booking-cancellation.service.ts:408-444 | Override, started job or policy decides the fee, in that order; the refund follows from payment, window and override |
| CancellationPolicy.PreviewIsSo | src/modules/bookings/booking-cancellation.service.ts:177-255 | The preview asks for ops once a job has started, promises nothing back on an unpaid booking and nothing at all on a finished one |
| CancellationPolicy.PreviewIsWhatHappens | src/modules/bookings/booking-cancellation.service.ts:177-315 | A customer is charged and refunded what the preview showed, if and only if the booking is not a paid one still in window A |
| CancellationPolicy.PaidCancellationSplitsThePrice | src/modules/bookings/booking-cancellation.service.ts:408-444 | In windows B to D a paid cancellation without overrides splits the price between fee and refund |
| CancellationPolicy.PreviewSpeaksForEverySlot | src/modules/bookings/booking-reschedule.service.ts:60-97 | A refusing preview (but SAME_SLOT) means no slot passes; an allowing one means every other slot past the cutoff and past now does |
| CancellationPolicy.RefusalsAreSo | src/modules/bookings/cancellation-policy.ts:248-310 | A move is refused for the first thing wrong with it, each reason told from status, slots, moves and milliseconds |
| CancellationPolicy.EarliestSlotIsHonest | src/modules/bookings/booking-reschedule.service.ts:92-95 | With the preview allowing, every different slot from the earliest one named is accepted exactly when the cutoff is a whole number of milliseconds, or that first slot is the one held or now |
| CancellationPolicy.ProbeIsAnHourLater | src/modules/bookings/booking-reschedule.service.ts:60-97 | What the preview asks about is the slot an hour after the one it names |
| Bookings.Booking.Transition | src/modules/bookings/booking-state.service.ts:54-133 | Status, its columns and its timeline entry are written together when the move is expected and legal, and not at all otherwise |
| Bookings.Booking.AdvanceAfterCreation | src/modules/bookings/bookings.service.ts:737-766 | Cash goes to dispatch, online to payment |
| Bookings.Booking.OnAuthorized | src/modules/payments/orders.service.ts:659-687 | An authorisation marks only an unpaid booking, and never after a capture |
| Bookings.Booking.OnCapture | src/modules/payments/orders.service.ts:507-594 | The first capture marks the booking paid and releases it to dispatch if it was waiting for that; a capture told again moves nothing |
| Bookings.Booking.Collect | src/modules/payments/cash-collection.service.ts:40-71 | Cash marks a started or completed cash job of this Pro paid |
| Bookings.Booking.InitiateRefund | src/modules/payments/refunds.service.ts:36-171 | A refund goes out when something positive is asked for that fits in what is left of the capture and the gateway accepts, and then order and booking carry the cumulative total; the status of the booking is not read |
| Bookings.Booking.OnRefundSettled | src/modules/payments/refunds.service.ts:208-245 | A settled refund marks the booking refunded only when all that was captured has been sent back |
| Bookings.Booking.AssignWinner | src/modules/dispatch/dispatch.service.ts:279-295 | The winner is written only onto a booking still waiting for one |
| Bookings.Booking.MarkUnassignable | src/modules/dispatch/dispatch.service.ts:629-640 | The attempt number and outcome are written whatever the booking has become |
| Bookings.Booking.AssignPro | src/modules/bookings/bookings.service.ts:602-635 | Ops assign a waiting booking to an eligible Pro, counting an attempt |
| Bookings.Booking.ReassignByAdmin | src/modules/bookings/bookings.service.ts:642-727 | An assigned or travelling booking is given to another Pro or sent back to dispatch; refused otherwise |
| Bookings.Booking.ReleaseSuspended | src/modules/pros/pros.service.ts:225-260 | A suspended Pro's assigned and travelling work goes back to dispatch, the rest stays |
| Bookings.Booking.ExpireAcknowledgement | src/modules/dispatch/dispatch.service.ts:398-430 | An unacknowledged assignment past its deadline goes back to dispatch |
| Bookings.Booking.RecordAcknowledgement | src/modules/pros/pro-counters.service.ts:104-147 | Receipt is recorded once a Pro, only while pending and inside the window |
| Bookings.Booking.MarkEnRoute | src/modules/bookings/booking-lifecycle.service.ts:80-105 | Only the assigned Pro sets out, from assigned or arrived |
| Bookings.Booking.MarkArrived | src/modules/bookings/booking-lifecycle.service.ts:107-155 | Arrival is stamped once and issues a fresh start code with its tries reset |
| Bookings.Booking.ResendStartCode | src/modules/bookings/booking-lifecycle.service.ts:188-197 | A new code replaces the old only while the Pro waits at the door |
| Bookings.Booking.VerifyStartCode | src/modules/bookings/booking-lifecycle.service.ts:207-297 | The right code within the tries starts the job and is spent; a wrong one is counted and noted |
| Bookings.Booking.ForceStartByOps | src/modules/bookings/booking-lifecycle.service.ts:307-335 | The bypass is noted first, then the door is tried |
| Bookings.Booking.CompleteJob | src/modules/bookings/booking-lifecycle.service.ts:419-479 | Only the assigned Pro of a started job with a photo completes it |
| Bookings.Booking.CancelBooking | src/modules/bookings/booking-cancellation.service.ts:257-315 | The fee and refund written are those the policy and the overrides resolve to; an assigned Pro is withdrawn; a paid booking then asks for that refund |
| Bookings.Booking.Reschedule | src/modules/bookings/booking-reschedule.service.ts:135-285 | The slot, its counter, its history row, the original slot and, with a Pro on it, the status move together, or the policy refusal is returned and nothing does |
| ColumnLaws.RefusedWritesNothing | src/modules/bookings/booking-state.service.ts:54-133 | Which of the 21 operations go through is told from the columns alone; a refused one writes nothing, but that a wrong code is counted and a forced start noted |
| ColumnLaws.EveryColumnIsTold | src/modules/bookings/booking-state.service.ts:54-133 | One that goes through leaves every column as told, column by column: status and Pro; outcome, attempt and deadline; the times and the start code; slot and history; capture, fee, refund and payment; and the timeline with who is on record |
| BookingRuns.BookingsStayConsistent | src/modules/bookings/booking-state.service.ts:33-107 | From creation on, under every writer of status: the Pro column follows the status, started and completed jobs have a start time, the timeline is a legal path (cash never awaits payment, online is dispatched only after it), slot moves form a chain from the slot first sold to the current one, and the payment status says what was captured and sent back |
| BookingRuns.OverIsForGood | src/modules/bookings/booking.types.ts:72-114 | Completed and cancelled are absorbing under every writer: status, Pro, slot, slot history and fee never change again, and the refund changes only with the total sent back, to which it is then equal |
| BookingRuns.RefundsAreTotalled | src/modules/payments/refunds.service.ts:36-144 | The total sent back grows exactly when a refund is asked for that is accepted and fits, directly or by a cancellation that goes through; never past the capture; and the booking is left with that total |
| BookingRuns.CancellationRefundIsTrue | src/modules/bookings/booking-cancellation.service.ts:261-296 | The refund a cancellation of a paid booking writes is what has been sent back exactly when the gateway accepts it and earlier refunds leave room for it, or those already came to that amount |
| BookingRuns.PartRefundMakesItFalse | src/modules/bookings/booking-cancellation.service.ts:261-296 | A run from creation where it is not: paid, part refunded, then called off by the system, a booking shows the whole price as sent back |
| BookingRuns.OnlySideDoorsLeaveTheTable | src/modules/bookings/bookings.service.ts:685-723 | A change of status follows the table of moves if and only if it is not a travelling Pro being taken off the job |
| BookingRuns.SideDoorsOpen | src/modules/bookings/bookings.service.ts:685-723 | Every travelling booking can be taken back to dispatch, a move the table refuses |
| BookingRuns.StartsOnlyWithConsent | src/modules/bookings/booking-lifecycle.service.ts:207-335 | A job starts only on the customer's current code, by the assigned Pro with tries left, or on a bypass the timeline shows |
| BookingRuns.WrongCodesAreBounded | src/modules/bookings/booking-lifecycle.service.ts:207-297 | Wrong tries never pass the limit and are forgotten only with a new code |
| BookingRuns.SlotsMoveWithinTheAllowance | src/modules/bookings/booking-reschedule.service.ts:135-259 | A slot moves only by a reschedule, which a customer may make only while the moves on record leave some of the allowance |
| DispatchService.DispatchService.Run | src/modules/dispatch/dispatch.service.ts:104-132 | Takes the lock, makes one attempt, lets go; turned away when the lock is held, and what it reports is what the booking holds |
| DispatchService.DispatchService.Attempt | src/modules/dispatch/dispatch.service.ts:134-253 | One attempt from reading the booking, through the widening search and the cash ceiling, to assigning the best candidate or closing it, with every row it leaves; what each way of ending means is `AttemptLaws.AttemptEndsSo` |
| DispatchService.AttemptReportsNoSupply | src/modules/dispatch/dispatch.service.ts:155-185 | With widening allowed, an attempt with tries left reports no supply exactly when nobody is in the city, those over the ceiling aside for a cash booking, but where everyone in the city is barred while somebody posted on the ladder works |
| AttemptLaws.AttemptEndsSo | src/modules/dispatch/dispatch.service.ts:134-253 | From the booking, the rows and what was seen alone: when an attempt is idle, gives up and why, or sends one Pro who can be asked and comes before all others who can; and which rows it leaves |
| AttemptLaws.OnlineIgnoresTheCeiling | src/modules/dispatch/dispatch.service.ts:155-185 | Who is over the cash ceiling makes no difference at all to an online booking |
| AttemptLaws.CashKeepsToTheCeiling | src/modules/dispatch/dispatch.service.ts:155-185 | A cash booking without a staffed area is never offered to anybody over the ceiling |
| DispatchService.DispatchService.ScoreAll | src/modules/dispatch/dispatch.service.ts:188-200 | Every eligible Pro is scored, those who won before marked as already tried |
| DispatchService.SoloIsOneAttempt | src/modules/dispatch/dispatch.service.ts:104-253 | Made read by read and write by write without interruption, a run comes to exactly that one attempt |
| DispatchRuns.OneAssignmentAVisit | src/modules/dispatch/dispatch.service.ts:262-295 | However runs interleave, lapsed locks and crashes included, a booking is assigned at most once each time it comes to wait for a Pro |
| DispatchRuns.TheCycleEnds | src/modules/dispatch/dispatch.service.ts:104-253 | While the lock outlives its runs, those that break off anywhere included: one run at a time, attempt numbers of assignments strictly increase, and there are at most the configured number of assignments |
| DispatchRuns.NobodyIsAssignedTwice | src/modules/dispatch/dispatch.service.ts:104-253 | While besides no run breaks off once its rows are written and winners are kept on record, no Pro is assigned the booking twice |
| DispatchRuns.StepKeepsCycle | src/modules/dispatch/dispatch.service.ts:104-253 | The facts behind the bound are kept wherever a run breaks off |
| DispatchRuns.StepKeepsLock | src/modules/dispatch/dispatch.service.ts:104-253 | Every read and write of a run that does not so break off, and every other writer of the booking between them, keeps the facts those results rest on |
| DispatchRuns.ElsewhereMovesOn | src/modules/dispatch/dispatch.service.ts:398-433 | Any other writer leaves a waiting booking waiting under the same number, or moves its number on, or ends it |
| DispatchRuns.BestIsNew | src/modules/dispatch/dispatch.service.ts:570-613 | The best of a ranking has not won this booking before and is kept on record |
| DispatchRuns.LapsedLockOffersTwice | src/modules/dispatch/dispatch.service.ts:106-131 | From any booking waiting with the lock free, a lapse can have one Pro assigned twice under one attempt number |
| DispatchRuns.BrokenRunOffersTwice | src/modules/dispatch/dispatch.service.ts:587-613 | A run that breaks off after writing its rows can have a later Pro assigned twice, the row that should have said so being skipped as a duplicate |
| DispatchRuns.RepeatNeedsAMissedWin | src/modules/dispatch/dispatch.service.ts:570-576 | A run can choose a Pro already assigned this booking exactly when an earlier win was not among the rows it has read |
| DispatchRuns.CounterFallsExactlyWhenOvertaken | src/modules/dispatch/dispatch.service.ts:279-290 | The attempt counter falls exactly when an assignment or a closing writes a number others have counted past; both write the number the attempt began with, and nothing else lowers it |
| DispatchRuns.HeldLockRaisesByOne | src/modules/dispatch/dispatch.service.ts:104-290 | While the lock holds and the booking is not over, each such write raises the counter exactly when it stands where the attempt found it, and then by one |
| DispatchRuns.ClosingOverwritesOps | src/modules/dispatch/dispatch.service.ts:629-640 | An input, the lock held throughout: an attempt that finds nobody lowers the counter ops have raised and marks an assigned booking as without supply |
| DispatchRuns.AssigningOverwritesOps | src/modules/dispatch/dispatch.service.ts:279-290 | Another: so does one that finds somebody, once ops have assigned, reassigned and sent the booking back |
| DispatchLadder.FirstRungWithAnyone | src/modules/dispatch/dispatch.service.ts:484-541 | With widening allowed the rung used is the first with anybody on it, or the last |
| DispatchLadder.NoSupplyMeansAnEmptyCity | src/modules/dispatch/dispatch.service.ts:484-568 | No supply is reported exactly when the city less those barred is empty, if and only if it is not the case that everyone in the city is barred while somebody posted on the ladder works |
| DispatchLadder.BarredStayOut | src/modules/dispatch/dispatch-scoring.service.ts:108-125 | Those over the cash ceiling are kept out always where the booking has no staffed area, and else exactly when none of them works in the area, or, with nobody there and widening allowed, in the area and its neighbours |
| DispatchLadder.BarredProIsOffered | src/modules/dispatch/dispatch-scoring.service.ts:108-125 | A staffed area whose only free Pro is over the ceiling offers that Pro the job |
| DispatchLadder.StrictAreaIsAFence | src/modules/dispatch/dispatch.service.ts:514-523 | Without widening a staffed area is a fence |
| DispatchRanking.Rank | src/modules/dispatch/dispatch-scoring.service.ts:375-395 | Ranks are 1 to k down the sorted list of the candidates not excluded |
| DispatchRanking.RankingIgnoresTheInputOrder | src/modules/dispatch/dispatch-scoring.service.ts:375-395 | With each measure compared equal or apart by more than the tolerance, every candidate not excluded is ranked once, each strictly before the next, and the order they came in makes no difference |
| DispatchRanking.OrderIsUnique | src/modules/dispatch/dispatch-scoring.service.ts:378-388 | Two orderings of the same such candidates are the same ordering |
| DispatchRanking.ComparesInTurn | src/modules/dispatch/dispatch-scoring.service.ts:378-388 | Score, then fit, then rating, each only where those before are level within the tolerance; then fewer offers; then the lower id |
| DispatchRanking.ScoreIsShared | src/modules/dispatch/dispatch.types.ts:187-221 | What rotation, fit, rating and load each add to a score |
| DispatchRanking.ScoreRunsToOne | src/modules/dispatch/dispatch.types.ts:187-221 | The best there can be scores one; at the hour the target allows, and nothing else but idleness, three tenths |
| DispatchRanking.CloseScoresCanCircle | src/modules/dispatch/dispatch-scoring.service.ts:378-388 | Closer than the tolerance, three candidates can each come before the next in a circle |
| DispatchRanking.NearerWinsWithinRange | src/modules/dispatch/dispatch.types.ts:187-221 | All else equal the nearer Pro is ranked first exactly while the weighted gap exceeds the tolerance, or by the lower id |

## Left out

- Ledger postings, loyalty points, notifications, counters, invoices and tax: ports or figures derived from the state modelled here.
- Booking creation's pricing, discounts and number retry (`commitDiscounts`, `createWithUniqueBookingNumber`): a booking starts with its payable amount given.
- Races inside one read-then-write handler outside dispatch and evaluation: each such handler, each transaction and each reversal is one step.
- Races inside `disburse` and `retry`: sending is one step, from the write to processing over the gateway's call to the reference and a settlement at once, and a retry also takes in its write to approved.
- The `take` limits of the queries (100, 200, 500 rows): each query returns all it matches.
- Ties in `createdAt`: rows are ordered by their position in the table.
- Mirrored display columns (a pay row's net and deduction amounts, the names of unwound incentives): derived from the rows by `refreshTotals`.
- Gateway answers other than a verdict or silence: a refusal is final, so a server error the client reports as a refusal, and a transfer the bank returns after processing, are not told apart.
- Malformed incentive criteria are one case that throws before writing; their JSON parsing is not modelled.
- Which schemes `evaluateForPro` selects, and what an evaluation in a run has read: its writes may come at any time with any facts, which is more.
- A booking has at most one gateway order that is ever captured.
- Settings are constant over a dispatch run, and the candidate pool holds at least one, as the admin bounds require.
- Travel times, free windows and the cached commitments behind them: scoring's inputs, taken as given.
- Floating point: scores, thresholds and hours are exact reals, and integers are unbounded (amounts stay within what a double holds exactly).
- The Redis queue and its draining loop: a run may begin at any time.
- Start-code generation, photo uploads and tracking: codes are opaque values, photos a count.
- Dashboards, reports, HTTP, authentication and configuration: no state rules.
- DebtLaws.RejectUndoesDraft: speaks of a rejection right after its draft, because only then are whole tables comparable; across other steps see `RejectLaws`.
- DebtLaws.RejectForgivesNothing: the same; `RejectLaws.RejectGivesBackTheDeduction` is the general form.
- DebtLaws.StoredDeductionsAreTheRows: a refusal delivered to a rejected payout with something deducted breaks it (`UnfairRuns.StaleFailureRevivesARejectedPayout`), and nothing else does.
- DispatchRuns.TheCycleEnds: holds while the lock outlives its runs; otherwise `LapsedLockOffersTwice` applies.
- DispatchRuns.NobodyIsAssignedTwice: holds while besides no run breaks off between its rows and its last write; otherwise `BrokenRunOffersTwice` applies.
