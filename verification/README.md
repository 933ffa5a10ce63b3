# A verified model of the aeghash core

A Dafny model of the stateful heart of aeghash: the point wallet with its withdrawal
workflow and mining saga, the organisation trees, bonus distribution with its closing and
retry queue, idempotent order intake, and the access decision built on the closure table.

Each component comes twice. A class with mutable fields follows the source's methods step by
step, and each of its methods states its whole new state and result as a function of the old
state. The laws are then proved about those functions: over single calls, over whole runs
(any sequence of calls from the empty state), and across components. For each operation one
law gives its acceptance, its errors and its effect on the stored fields alone.

| files | component |
|---|---|
| `PointWallet`, `PointWalletEffects`, `PointWalletLaws` | point wallet service, every call in full, ledger replay, conservation, holds, life of a request |
| `Retry`, `Risk`, `Mining`, `MiningLaws` | retry wrapper, risk rules, mining service and saga |
| `Workflow`, `WorkflowLaws` | withdrawal workflow, how approvals end, audit agreement |
| `WorkflowCalls`, `WorkflowRequests` | every workflow call in full |
| `WorkflowReview`, `WorkflowSaga`, `WorkflowHolds` | two-step review, mining submissions and holds over workflow runs |
| `OrganizationStore`, `Organization`, `OrganizationLaws`, `OrganizationCalls`, `OrganizationRuns` | trees, every call in full, placement search, closure table, slots, spillover log, level order |
| `Decimals`, `BonusDistribution`, `BonusLaws`, `BonusOrders` | rounding, paths, level and direct bonuses, payout bound, one order entry by entry |
| `BonusQueue`, `BonusQueueLaws`, `BonusQueueBatches` | bonus closing, retry queue, exactly-once credit, attempt budgets, what a run takes up and leaves |
| `Commerce`, `OrderIntake` | idempotent intake with any pipeline, and on the real one |
| `Kpi` | access to the figures of a node |
| `Wrappers` | Option, Result, maximum |

`dafny verify dfyconfig.toml` checks the project.

## Conventions

- Wallets and requests get their ids from one counter. Wallet amounts are integers in the
  smallest unit. Timestamps, ledger ids and ledger metadata, audit notes and audit metadata
  are dropped. A wallet's status changes by an environment step.
- Organisation node ids come from the caller, non-empty and without the path separator. A
  node id already used, or a user already in the tree, is refused and leaves the store
  unchanged. One store holds the indexes of the in-memory repository and the tables of the
  SQL one.
- The miner, the wallet creditor and, in `Commerce`, the bonus pipeline are functions from
  the number of the call to its answer, the miner's from the coin and amount asked for too,
  otherwise arbitrary. Listeners and notifiers never
  raise.
- Decimals of the bonus pipeline and the pauses of the retry wrapper are exact reals,
  rounded where the source rounds.
- The payload hash is taken to be injective: two payloads have the same hash exactly when
  they have the same content, that is the event, the channel, the amounts as written and all
  of the metadata.
- Among candidates with equal times the order of a batch is left open.
- Recording a bonus under an id in use is refused, as the primary key does; the in-memory
  store would overwrite it.

## Where the code and its promise differ

The model follows the code. The theorems named with each point say exactly when the promise
holds, and those named as examples or runs give an input for which it does not.

- `fail_withdrawal` subtracts the hold of an approved request a second time and clamps at
  zero. Pending stays exact throughout a run if and only if no approved request is failed
  beside another open hold (`ExactIffClean`); otherwise pending may become negative
  (`UncleanRunGoesNegative`).
- A final approval that raises gives the money back, except when mining is wanted (by the
  provider mark, or by an empty or textless coin) and no coin is named: the request stays
  approved and deducted (`RaisedApprovalRestoresIff`, `NoCoinExample`).
- The automatic cancellation of a risk-blocked request is refused when pending is already
  negative (`BlockedRequestCancelledIff`). That never happens on clean runs
  (`BlockedOnCleanRun`), and it does after others (`BlockedRequestStays`).
- A `stage1_approver` in the caller's own metadata defeats the check for distinct approvers:
  one person can give both approvals exactly to the requests opened with one
  (`OnePersonSufficesIff`, `OnePersonExample`).
- A `hashdam_withdraw_id` in the caller's own metadata survives an approval without
  submission (`ForgedReceiptExample`). The approved requests that carry an id are all
  submitted ones if and only if no such approval happened (`SubmissionsCorrespond`).
- A retry count of zero is not written to the queue over a known one: an entry recorded with
  a count of -2 or less differs from its queue record exactly while its count is zero
  (`RetryIffWaiting`, `CountOutOfStep`).
- An entry recorded with a negative retry count may see more than the maximum of attempts
  (`AttemptsBounded`, `BudgetWithinIff`, `NegativeCountExceeds`).
- `run_closing` counts an exhausted entry as retried and leaves its failed counter at zero,
  which is right if and only if no call of the batch both raised and used up the maximum
  (`FailedCounterRightIff`, `FailedUncounted`).
- A buyer with unilevel ancestors but no binary node gets an accepted order without
  bonuses, while each retry attempt records the recommend bonuses again
  (`HalfRegisteredOrder`, `HalfRegisteredExample`, `RecordsWhatItReturnsIff`).
- An order with an empty order id is never recognised as a duplicate, and repeating it pays
  its bonuses again (`RepeatIsDuplicateIff`, `RepeatPaysAgainIff`).

## Model

| member | source | states |
|---|---|---|
| PointWalletLaws.RunKeeps | src/aeghash/core/point_wallet.py:140-391 | After any sequence of service calls: replaying the ledger gives `balance_after` at every entry and every live balance; balance = credits - debits - amounts of requests now approved; pending never exceeds the open holds; the ledger holds a withdrawal entry of an approved request and none of a held one |
| PointWalletLaws.StepKeeps | src/aeghash/core/point_wallet.py:140-399 | Each single call, accepted or refused, keeps that invariant from any state that has it |
| PointWalletLaws.ExactIffClean | src/aeghash/core/point_wallet.py:189-391 | Pending equals the sum of the open requests at every point of a run if and only if the run never fails an approved request while another hold is open on its wallet |
| PointWalletLaws.StepExact | src/aeghash/core/point_wallet.py:189-391 | From an exact state one call keeps pending exact if and only if it is clean in that sense |
| PointWalletLaws.FailExact | src/aeghash/core/point_wallet.py:293-328 | `fail_withdrawal` keeps pending exact if and only if the request was not approved or no other hold is open |
| PointWalletLaws.ApproveThenFailExact | src/aeghash/core/point_wallet.py:228-328 | Approving and then failing a request keeps pending exact if and only if it was the only request on hold |
| PointWalletLaws.CleanRunSolvent | src/aeghash/core/point_wallet.py:163-391 | On clean runs 0 <= pending = open holds <= balance, and the ledger also replays `pending_after` at every entry |
| PointWalletLaws.CleanRunNeverStuck | src/aeghash/core/point_wallet.py:228-391 | On clean runs a request can be approved exactly when it is held and its wallet active, rejected or cancelled exactly when pending: the pending guard never refuses |
| PointWalletLaws.CleanRunSpendable | src/aeghash/core/point_wallet.py:163-226 | On clean runs a debit or a new request is accepted exactly when the wallet is active and its balance less the open requests covers a positive amount; a failure exactly for a request in either approved state |
| PointWalletLaws.UncleanFailThenApprove | src/aeghash/core/point_wallet.py:293-328 | What pending becomes when an approved request is failed beside an open one that is then approved: negative if and only if the failed amount exceeds the other holds |
| PointWalletLaws.UncleanRunGoesNegative | src/aeghash/core/point_wallet.py:293-328 | A six-call run from the empty service that ends with pending at -10 |
| PointWalletLaws.StepLife | src/aeghash/core/point_wallet.py:228-391 | A call only appends to the ledger, never removes a request or changes its terms, and moves its status along the documented edges or not at all |
| PointWalletLaws.AtMostThreeChanges | src/aeghash/core/point_wallet.py:228-391 | No request changes status more than three times on any run |
| PointWalletEffects.CreditEffect | src/aeghash/core/point_wallet.py:140-161 | When a credit is accepted, its error otherwise, and every field of the state after it, the wallet new or known |
| PointWalletEffects.DebitEffect | src/aeghash/core/point_wallet.py:163-187 | When a debit is accepted, its error otherwise, and every field after it: the balance lower by the amount, pending as before, one debit entry |
| PointWalletEffects.RequestEffect | src/aeghash/core/point_wallet.py:189-226 | When a request is accepted, its error otherwise, and every field after it: pending higher by the amount, one hold entry, the new pending request |
| PointWalletEffects.ApproveEffect | src/aeghash/core/point_wallet.py:228-264 | When an approval is accepted, its error otherwise, and every field after it |
| PointWalletEffects.Stage1Effect | src/aeghash/core/point_wallet.py:266-291 | When a first approval is accepted, its error otherwise, and what the metadata holds after it, key by key |
| PointWalletEffects.FailEffect | src/aeghash/core/point_wallet.py:293-328 | When a failure is accepted, its error otherwise, and every field after it, the refund and the clamped hold included |
| PointWalletEffects.RejectEffect | src/aeghash/core/point_wallet.py:330-363 | A rejected request ends rejected: when, its error otherwise, and every field |
| PointWalletEffects.CancelEffect | src/aeghash/core/point_wallet.py:365-391 | A cancelled request ends cancelled with its notes kept: when, its error otherwise, and every field |
| PointWalletEffects.AnnotateEffect | src/aeghash/core/point_wallet.py:393-399 | What an annotation leaves, key by key |
| PointWalletEffects.BalanceFromCalls | src/aeghash/core/point_wallet.py:140-391 | On every run a wallet's balance is what its accepted credit calls brought, less what its accepted debit calls took, less its requests now approved, summed over the calls |
| PointWallet.PointWalletService.GetOrCreateRecord | src/aeghash/core/point_wallet.py:418-432 | Returns the user's wallet, creating a zero one if there is none; the whole new state is stated |
| PointWallet.PointWalletService.Credit | src/aeghash/core/point_wallet.py:140-161 | Whole new state and result, including the zero wallet a rejected credit leaves behind |
| PointWallet.PointWalletService.Debit | src/aeghash/core/point_wallet.py:163-187 | Whole new state and result; each guard in the source's order, with nothing written when one refuses |
| PointWallet.PointWalletService.RequestWithdrawal | src/aeghash/core/point_wallet.py:189-226 | Whole new state and result of placing a hold |
| PointWallet.PointWalletService.ApproveWithdrawal | src/aeghash/core/point_wallet.py:228-264 | Whole new state and result of paying a held request out |
| PointWallet.PointWalletService.MarkStage1Approval | src/aeghash/core/point_wallet.py:266-291 | Whole new state and result of the first approval, with the metadata merge |
| PointWallet.PointWalletService.FailWithdrawal | src/aeghash/core/point_wallet.py:293-328 | Whole new state and result, with the second subtraction of the hold and its clamp at zero |
| PointWallet.PointWalletService.RejectWithdrawal | src/aeghash/core/point_wallet.py:330-363 | Whole new state and result of releasing a hold by rejection |
| PointWallet.PointWalletService.CancelWithdrawal | src/aeghash/core/point_wallet.py:365-391 | Whole new state and result of releasing a hold by cancellation |
| PointWallet.PointWalletService.AnnotateWithdrawal | src/aeghash/core/point_wallet.py:393-399 | Merges the metadata and changes nothing else |
| Retry.FromMeaning | src/aeghash/utils/retry.py:19-35 | From attempt k on: returns at the first success, raises the last error only if all allowed attempts failed |
| Retry.RunMeaning | src/aeghash/utils/retry.py:19-35 | The same for a whole call, with no attempt at all exactly when none is configured |
| Retry.RetryCall | src/aeghash/utils/retry.py:19-35 | The loop yields that outcome, and the i-th pause is initial_delay * backoff_factor^i |
| Retry.PausesGrow | src/aeghash/utils/retry.py:19-35 | Such pauses start with the initial delay and each is the one before times the factor |
| Risk.BlockedIff | src/aeghash/security/risk.py:64-148 | A withdrawal is blocked if and only if some amount or address rule blocks it, whatever the order of the rules and the known devices |
| Risk.ReviewedIff | src/aeghash/security/risk.py:64-148 | A review is asked for if and only if a rule asks for it on the devices known before; of several device rules only the first can |
| Risk.DevicesAfter | src/aeghash/security/risk.py:112-148 | What the evaluation leaves in the device store: one more known device at most, keeping when a known one was first seen |
| Risk.EvaluationExact | src/aeghash/security/risk.py:180-220 | An evaluation reports, and stores one event for, exactly the rules that block or ask for a review, in their order, and remembers devices as said |
| Risk.RiskService.EvaluateWithdrawal | src/aeghash/security/risk.py:180-220 | Devices and events are kept also when the withdrawal is rejected; rejected exactly when a finding blocks |
| Mining.MiningService.RequestWithdrawal | src/aeghash/core/mining_service.py:49-81 | Exactly one log record per call whatever the number of attempts, submitted or failed as the retried call went |
| Mining.MiningOrchestrator.ApproveAndExecute | src/aeghash/core/mining_workflow.py:43-83 | Wallet state, mining log and result of the saga: approve unless approved, submit, and fail the withdrawal when the miner failed |
| MiningLaws.SubmitLogs | src/aeghash/core/mining_service.py:49-81 | The one record logged carries what the first accepted attempt answered for that coin and amount, and is a failed one with the coin and amount asked for when no allowed attempt is accepted |
| MiningLaws.SagaExact | src/aeghash/core/mining_workflow.py:43-83 | When the call reaches the miner, and the error when it does not; one that does asks for the request's amount in the call's coin or else the metadata's, logs one record, and either deducts the amount once and leaves the request approved, or gives it back and fails the request |
| Workflow.WithdrawalWorkflowService.RequestWithdrawal | src/aeghash/core/withdrawal_workflow.py:59-117 | Whole new state of wallets, risk store and audit log, and the result |
| Workflow.WithdrawalWorkflowService.Screen | src/aeghash/core/withdrawal_workflow.py:82-117 | Risk screening: cancel at once, flag, or leave alone |
| Workflow.WithdrawalWorkflowService.Approve | src/aeghash/core/withdrawal_workflow.py:119-188 | Whole new state and result over the step rules |
| Workflow.WithdrawalWorkflowService.Mark | src/aeghash/core/withdrawal_workflow.py:132-142 | Whole new state and result of the first approval |
| Workflow.WithdrawalWorkflowService.Complete | src/aeghash/core/withdrawal_workflow.py:154-188 | Whole new state and result of the final approval |
| Workflow.WithdrawalWorkflowService.Execute | src/aeghash/core/withdrawal_workflow.py:160-188 | Whole new state and result of the mining branch |
| Workflow.WithdrawalWorkflowService.Reject | src/aeghash/core/withdrawal_workflow.py:190-199 | Whole new state and result |
| Workflow.WithdrawalWorkflowService.Cancel | src/aeghash/core/withdrawal_workflow.py:201-210 | Whole new state and result |
| WorkflowLaws.CompleteEnds | src/aeghash/core/withdrawal_workflow.py:154-188 | A final approval ends in one of five ways, each with all it changes in request, wallets, mining log and audit log |
| WorkflowCalls.ApproveExact | src/aeghash/core/withdrawal_workflow.py:119-188 | An approval call in full: every refusal in the order of the rules, the first approval, and for a final one the wallet, mining log, audit log and answer of each way it can end |
| WorkflowCalls.MinerAskedIff | src/aeghash/core/withdrawal_workflow.py:154-176 | The mining log grows, by one record, exactly when the rules let the call approve finally, the wallet pays, there is an orchestrator, the call or the metadata asks for mining, and a coin is known |
| WorkflowRequests.RequestExact | src/aeghash/core/withdrawal_workflow.py:59-117 | A request call in full: each refusal, the hold, the audit records, and what screening makes of it |
| WorkflowRequests.RejectExact | src/aeghash/core/withdrawal_workflow.py:190-199 | A rejection in full: the request rejected, its hold off, one audit record |
| WorkflowRequests.CancelExact | src/aeghash/core/withdrawal_workflow.py:201-210 | A cancellation in full: the request cancelled, its hold off, one audit record |
| WorkflowLaws.ApprovalMoney | src/aeghash/core/withdrawal_workflow.py:154-188 | The balance drops by the amount once when the approval stands, and is back to its value when the miner failed; no other wallet is touched |
| WorkflowLaws.RaisedApprovalRestoresIff | src/aeghash/core/withdrawal_workflow.py:154-176 | A final approval that raises restores every balance if and only if it is not the case of execution wanted without a coin |
| WorkflowLaws.NoCoinExample | src/aeghash/core/mining_workflow.py:56-59 | That case is reachable: the call raises, yet the request stays approved and deducted with no mining record |
| WorkflowLaws.MinerFailureHolds | src/aeghash/core/mining_workflow.py:66-81 | After a miner failure pending is exact again if and only if no other request was on hold |
| WorkflowLaws.FlowRunKeeps | src/aeghash/core/withdrawal_workflow.py:59-210 | The wallet invariant holds on every run of the workflow |
| WorkflowLaws.StepMirrors | src/aeghash/core/withdrawal_workflow.py:59-210 | Every call changes at most one request, in a way its configuration allows, and writes exactly the audit records of that change |
| WorkflowLaws.AuditAlwaysAgrees | src/aeghash/core/withdrawal_workflow.py:59-253 | After every call, returning or raising, the last audit record of each request carries its current status |
| WorkflowLaws.BlockedRequestCancelledIff | src/aeghash/core/withdrawal_workflow.py:91-105 | A risk-blocked request ends cancelled with all wallets as before if and only if its wallet's pending was not negative; otherwise the automatic cancellation is itself refused |
| WorkflowReview.TwoPeopleApproved | src/aeghash/core/withdrawal_workflow.py:132-154 | With two steps and distinct approvers, on every run: every approved or failed request passed the first-approval state, one audit record tells of it, its final approver is not the one its metadata names, and is somebody else than that record's actor unless the caller brought a stage1_approver |
| WorkflowReview.OnePersonSufficesIff | src/aeghash/core/withdrawal_workflow.py:132-154 | After any run, a payable pending request can be given both approvals by one person if and only if it was opened with a stage1_approver of the caller's own |
| WorkflowReview.ApprovedByOneIff | src/aeghash/core/withdrawal_workflow.py:132-154 | One actor's two approval calls both go through if and only if the request's metadata names somebody else as first approver |
| WorkflowReview.OnePersonExample | src/aeghash/core/withdrawal_workflow.py:145-149 | Such a run from the empty state: one person approves twice and the request is paid out |
| WorkflowReview.SamePersonRefusedIff | src/aeghash/core/withdrawal_workflow.py:145-149 | One person approving twice is refused if and only if the request came without another stage1_approver |
| WorkflowSaga.TriggeredAtMostOnce | src/aeghash/core/withdrawal_workflow.py:157-166 | Each request triggers approve_and_execute at most once on any run |
| WorkflowSaga.SubmissionsCorrespond | src/aeghash/core/withdrawal_workflow.py:157-182 | On every run the submitted mining records belong one to one, in order, to the executed requests, all approved and carrying their record's id; any other hashdam_withdraw_id was brought by a caller; and all approved requests with an id are executed ones if and only if no call approved, without submitting it, a request that had one before |
| WorkflowSaga.UnforgedSubmissions | src/aeghash/core/withdrawal_workflow.py:157-182 | When no caller brought an id, the requests that carry one, in any status, are exactly the executed ones |
| WorkflowSaga.ForgedReceiptExample | src/aeghash/core/withdrawal_workflow.py:157-188 | A run from the empty state ending with an approved request that carries an id and with no mining record |
| WorkflowHolds.FlowExactIffClean | src/aeghash/core/withdrawal_workflow.py:59-210 | Pending equals the open holds at every point of a workflow run if and only if no execution the miner refused met another open hold on its wallet |
| WorkflowHolds.FlowStepExact | src/aeghash/core/withdrawal_workflow.py:59-210 | From an exact state one workflow call keeps pending exact if and only if it is clean in that sense |
| WorkflowHolds.BlockedOnCleanRun | src/aeghash/core/withdrawal_workflow.py:91-105 | On such clean runs a risk-blocked request always ends cancelled with all wallets as before |
| WorkflowHolds.BlockedRequestStays | src/aeghash/core/withdrawal_workflow.py:91-105 | A workflow run after which a blocked request is not cancelled: pending is at -10, the cancellation is refused, and the request stays pending |
| BonusQueue.ListEarliest | src/aeghash/utils/memory_repositories.py:254-259 | Lists the earliest candidates in order of time, up to the limit, none twice |
| BonusQueue.Insert | src/aeghash/utils/memory_repositories.py:254-259 | Inserts one key into a sorted listing: same members plus the key, still sorted |
| BonusQueue.InsertAtSorted | src/aeghash/utils/memory_repositories.py:254-259 | Inserting between the earlier and the later keys keeps the listing sorted |
| BonusQueue.SortedPrefix | src/aeghash/utils/memory_repositories.py:254-259 | The first keys of a sorted listing of all candidates are the earliest ones |
| BonusQueue.BonusRepository.RecordBonus | src/aeghash/infrastructure/repositories.py:1068-1084 | Stores a new entry and refuses an id already used, as the primary key does |
| BonusQueue.BonusRepository.Confirm | src/aeghash/utils/memory_repositories.py:264-284 | Whole new state: entry confirmed, its queue record completed |
| BonusQueue.BonusRepository.Schedule | src/aeghash/utils/memory_repositories.py:286-313 | Whole new state: entry in retry, queue record waiting, with the source's treatment of a zero count |
| BonusQueue.BonusRepository.Fail | src/aeghash/utils/memory_repositories.py:315-339 | Whole new state: entry failed, queue record failed |
| BonusQueue.BonusRepository.ListPending | src/aeghash/utils/memory_repositories.py:254-259 | The earliest 500 pending entries |
| BonusQueue.BonusRepository.ListRetryCandidates | src/aeghash/utils/memory_repositories.py:341-348 | The earliest waiting records that are due, up to the limit |
| BonusQueue.BonusClosingService.RunClosing | src/aeghash/core/bonus_closing.py:49-81 | Closes the listed batch; total = confirmed + retry, confirmed counts the successful credits, and the failed counter stays zero whatever becomes of the entries |
| BonusQueue.BonusClosingService.CloseAll | src/aeghash/core/bonus_closing.py:60-68 | The loop performs the attempts of the batch in order |
| BonusQueue.BonusClosingService.Attempt | src/aeghash/core/bonus_closing.py:83-103 | One credit attempt and its effect |
| BonusQueue.BonusRetryService.Process | src/aeghash/core/bonus_retry.py:43-74 | Retries the listed batch; processed = succeeded + rescheduled + failed |
| BonusQueue.BonusRetryService.RetryAll | src/aeghash/core/bonus_retry.py:49-73 | The loop performs the attempts of the batch in order and tallies them |
| BonusQueue.BonusRetryService.Attempt | src/aeghash/core/bonus_retry.py:49-108 | One retry and its effect |
| BonusQueueLaws.RunKeeps | src/aeghash/core/bonus_retry.py:43-108 | On every interleaving of recording, closing and retrying, whatever retry counts entries come with: entries, queue and credits in step, every entry within the budget it was recorded with, all attempts within the sum of the budgets |
| BonusQueueBatches.BatchesIff | src/aeghash/utils/memory_repositories.py:254-348 | A batch may be taken up by a closing or a retry run if and only if it lists stored pending entries, or waiting records due by now, earliest first, none twice, and leaves one out only when full and no earlier |
| BonusQueueBatches.ClosingExact | src/aeghash/core/bonus_closing.py:49-103 | A closing run calls the creditor once for each entry taken up, in order, leaves each entry and its queue record as its own answer says, the due time included, and everything else alone |
| BonusQueueBatches.ProcessExact | src/aeghash/core/bonus_retry.py:43-113 | The same for a retry run, whose records are all due, with the counts it reports |
| BonusQueueLaws.CreditedExactlyOnce | src/aeghash/core/bonus_closing.py:60-90 | The sum of successful credits is the sum of the confirmed amounts; an entry was credited once if confirmed and never otherwise |
| BonusQueueLaws.RetryIffWaiting | src/aeghash/utils/memory_repositories.py:286-402 | Between calls an entry is in retry exactly when its queue record waits, and the counts agree if and only if the count is not zero or the entry was recorded with a count of at least -1 |
| BonusQueueLaws.ClosingOutcome | src/aeghash/core/bonus_closing.py:83-103 | Which status closing gives an entry: failed exactly when the call raised and used up the maximum |
| BonusQueueLaws.FailedCounterRightIff | src/aeghash/core/bonus_closing.py:57-79 | The failed counter of a closing job, always zero, is the number of entries the batch left failed if and only if no call both raised and used up the maximum |
| BonusQueueLaws.FailedUncounted | src/aeghash/core/bonus_closing.py:57-79 | A run whose closing leaves an entry failed while the counter is zero |
| BonusQueueLaws.AttemptsBounded | src/aeghash/core/bonus_closing.py:92-103 | With the same maximum M >= 1 in both services an entry recorded with count n sees at most max(1, M - n) credit attempts, so at most M unless n is negative |
| BonusQueueLaws.BudgetWithinIff | src/aeghash/core/bonus_closing.py:92-103 | A new entry starts with a budget of at most M attempts if and only if its recorded count is not negative |
| BonusQueueLaws.NegativeCountExceeds | src/aeghash/core/bonus_closing.py:92-103 | A run in which an entry recorded with a count of -1 sees two attempts under M = 1 |
| BonusQueueLaws.BudgetIsRemaining | src/aeghash/core/bonus_retry.py:91-96 | With the same M in both services the budget of an unsettled entry is max(1, M - retry_count), and M - retry_count unless it was recorded with M or more |
| BonusQueueLaws.AttemptLowersTotal | src/aeghash/core/bonus_retry.py:84-108 | Every attempt lowers the sum of the budgets |
| BonusQueueLaws.CloseOneKeeps | src/aeghash/core/bonus_closing.py:83-103 | One closing attempt keeps entries and queue in step and uses up budget of its entry alone |
| BonusQueueLaws.RetryOneKeeps | src/aeghash/core/bonus_retry.py:84-108 | One retry keeps entries and queue in step and uses up budget of its entry alone |
| BonusQueueLaws.RetryOutcome | src/aeghash/core/bonus_retry.py:84-113 | Which outcome a retry has, and that the n-th failure is due again after base * factor^(n-1) minutes |
| BonusQueueLaws.DelayNeverShrinks | src/aeghash/core/bonus_retry.py:110-113 | A later failure never waits for less time |
| BonusQueueLaws.CountInStepIff | src/aeghash/utils/memory_repositories.py:286-313 | A rescheduled retry leaves both counts equal if and only if it did not start from a count of -1 |
| BonusQueueLaws.CountOutOfStep | src/aeghash/utils/memory_repositories.py:286-313 | An entry recorded with a retry count of -2 falls out of step at its first retry |
| Organization.RunKeeps | src/aeghash/core/organization.py:43-106 | After any sequence of `create_root` and `add_member` with well-formed new ids all views agree: paths, depths, user index, children lists, closure table, slots and spillover log |
| Organization.StepKeeps | src/aeghash/core/organization.py:43-106 | Each single call keeps that agreement |
| OrganizationCalls.AddMemberEffect | src/aeghash/core/organization.py:60-106 | When a member is accepted, the error otherwise, and what is stored: below the sponsor's own node in the unilevel tree, at the first free slot of the sponsor's subtree in the binary tree, with its spillover entry |
| OrganizationCalls.CreateRootEffect | src/aeghash/core/organization.py:43-58 | When a root is accepted, the error otherwise, and what is stored |
| Organization.PlacementFound | src/aeghash/core/organization.py:114-125 | Every node of a well-formed tree has a first free slot in its subtree: the search cannot come up empty |
| Organization.PlacementIs | src/aeghash/core/organization.py:114-125 | Whatever slot is found free first is the placement: there is only one |
| Organization.RelatedIff | src/aeghash/infrastructure/repositories.py:929-939 | Two nodes are related by the closure table exactly when the ancestor is reached from the descendant by parent links, in that tree |
| Organization.OrganizationService.LocateBinarySlot | src/aeghash/core/organization.py:114-125 | The queue search terminates, never reaches its raise, and returns the first free slot in level order: every earlier place is occupied |
| Organization.OrganizationService.ChildrenByPosition | src/aeghash/core/organization.py:118 | The children of a node by position |
| Organization.OrganizationService.AddMember | src/aeghash/core/organization.py:60-106 | Whole new store and result, errors included; keeps the views in agreement |
| Organization.OrganizationService.CreateRoot | src/aeghash/core/organization.py:43-58 | Whole new store and result; keeps the views in agreement |
| Organization.OrganizationRepository.Create | src/aeghash/infrastructure/repositories.py:816-845 | Writes node, index, children list, closure rows and slots, or nothing when an id or user is taken |
| Organization.OrganizationRepository.EnsureClosureEntries | src/aeghash/infrastructure/repositories.py:941-980 | Adds the self row and the parent's rows lifted by one, once |
| Organization.OrganizationRepository.EnsureBinarySlots | src/aeghash/infrastructure/repositories.py:982-996 | Opens the slots that are missing |
| Organization.OrganizationRepository.IsDescendant | src/aeghash/infrastructure/repositories.py:929-939 | Answers exactly reachability by parent links in that tree |
| OrganizationLaws.InsertKeeps | src/aeghash/infrastructure/repositories.py:816-845 | Attaching one node at a free place keeps every view in agreement with the parent links |
| OrganizationLaws.FirstFreeExists | src/aeghash/core/organization.py:114-125 | A filled front of the tree extends to a first free place: the tree is finite |
| OrganizationLaws.FirstFreeUnique | src/aeghash/core/organization.py:114-125 | The first free place, with its parent and side, is unique |
| OrganizationLaws.PlaceUnique | src/aeghash/core/organization.py:114-125 | A node has at most one place below a root |
| OrganizationLaws.OccupantUnique | src/aeghash/core/organization.py:114-125 | A place has at most one node |
| OrganizationRuns.ClosureIsAncestry | src/aeghash/infrastructure/repositories.py:941-980 | On every run the closure table holds row (a, d, t, n), once, exactly when a is the n-th ancestor of d in tree t |
| OrganizationRuns.DepthIsDistance | src/aeghash/core/organization.py:88 | On every run `depth` is the distance to the root |
| OrganizationRuns.SlotsMirrorChildren | src/aeghash/infrastructure/repositories.py:982-1022 | On every run a slot row is filled with c exactly when c's parent and position are that node and slot, and exists for both slots of every binary node |
| OrganizationRuns.SpilloversLogged | src/aeghash/core/organization.py:95-105 | On every run a spillover is logged, once, exactly when the parent is not the sponsor's node, and the parent then lies strictly below it |
| OrganizationRuns.LevelOrder | src/aeghash/core/organization.py:60-125 | If every member sponsored inside a binary tree names its root, the tree is at all times exactly the complete one, in the order of joining |
| OrganizationRuns.KthMember | src/aeghash/core/organization.py:60-125 | After k-1 accepted calls, accepted being a new id and a user not in the tree, its k-th node hangs below node k/2, left if k is even and right if odd, at depth floor(log2 k) |
| OrganizationRuns.JoinedBelow | src/aeghash/core/organization.py:60-125 | In that tree the nodes below the root by parent links are at all times exactly the root and those that joined |
| OrganizationRuns.BelowListed | src/aeghash/core/organization.py:114-125 | In a level-ordered tree a node is below the root if and only if it has a place in the listing |
| OrganizationRuns.NewRootChildless | src/aeghash/core/organization.py:43-58 | A root just created meets the starting condition of that theorem |
| Decimals.HalfEvenIff | src/aeghash/core/bonus.py:72 | Half-even rounding by its meaning: within half a unit, even on a tie, and the only such integer |
| Decimals.Quantize4Error | src/aeghash/core/bonus.py:72 | Quantizing to four decimals errs by at most 0.00005 |
| Decimals.Quantize4Exact | src/aeghash/core/bonus.py:72 | Values with four decimals are left alone |
| Decimals.Truncate8Below | src/aeghash/core/bonus_pipeline.py:224-225 | Truncation to eight decimals stays below, by less than a unit |
| Decimals.Quantize4Iff | src/aeghash/core/bonus.py:72 | Quantizing yields exactly the value with four decimals nearest to x, the even one on a tie |
| Decimals.Truncate8Iff | src/aeghash/core/bonus_pipeline.py:224-225 | Cutting yields exactly the value with eight decimals next to x toward zero |
| BonusDistribution.BonusPipeline.DistributeRule | src/aeghash/core/bonus.py:60-94 | The loop creates and records exactly the level bonuses of the rule, under consecutive ids |
| BonusDistribution.BonusPipeline.ApplyDirect | src/aeghash/core/bonus_pipeline.py:102-125 | Creates and records the direct bonus unless the rate or the rounded amount is not positive |
| BonusDistribution.BonusPipeline.ApplyCenter | src/aeghash/core/bonus_pipeline.py:136-178 | The same for an optional center user |
| BonusDistribution.BonusPipeline.ApplyAll | src/aeghash/core/bonus_pipeline.py:96-97 | Share, center and referral bonus in this order |
| BonusDistribution.BonusPipeline.ApplyRest | src/aeghash/core/bonus_pipeline.py:94-97 | Sponsor bonuses and then the direct ones |
| BonusDistribution.BonusPipeline.ProcessUplines | src/aeghash/core/bonus_pipeline.py:92-98 | The whole order; an unregistered buyer raises, with the recommend bonuses already recorded if only the binary tree lacks the buyer |
| BonusDistribution.BonusPipeline.ProcessOrder | src/aeghash/core/bonus_pipeline.py:82-98 | The same from the organisation tables |
| BonusLaws.SplitAppend | src/aeghash/core/bonus.py:102 | Splitting a path extended by a separator and a segment yields the earlier pieces and the segment |
| BonusLaws.PathIsChain | src/aeghash/core/bonus.py:102 | Splitting a node's path gives exactly the ids from its root down to it |
| BonusLaws.AncestorsCollected | src/aeghash/core/bonus.py:96-109 | `_collect_ancestors` returns the nearest min(depth, max_levels) ancestors, nearest first, none filtered out |
| BonusLaws.PathsOnEveryRun | src/aeghash/core/organization.py:54-89 | Both hold for every node on every run of the organisation service |
| BonusLaws.LevelsSound | src/aeghash/core/bonus.py:67-93 | Every level bonus pays its level's ancestor that level's percentage, in order |
| BonusLaws.LevelsComplete | src/aeghash/core/bonus.py:67-93 | Every level with a positive percentage gets its bonus |
| BonusLaws.KthLevelPaid | src/aeghash/core/bonus.py:60-109 | On every run the level-k bonus goes to the k-th ancestor by parent links at percentages[k-1] |
| BonusOrders.OrderExact | src/aeghash/core/bonus_pipeline.py:82-195 | On every run the records of one order are exactly: an entry per unilevel level, an entry per binary level, then the share of the buyer, of the named center user and of the named referrer, each exactly when due; with user, amount, kind, level, order and id of each |
| BonusLaws.LevelsExact | src/aeghash/core/bonus.py:72 | For a pv with at most two decimals the level bonuses sum to exactly pv times the percentages of the existing levels |
| BonusLaws.DefaultTables | src/aeghash/core/bonus_pipeline.py:183-195 | The default tables are positive whole percentages that sum to 0.50 and 0.20 |
| BonusLaws.PayoutBound | src/aeghash/core/bonus_pipeline.py:82-98 | One order pays at most 0.70 pv + 0.15 total + 0.00005 for each of at most 30 level entries, complete or aborted |
| Commerce.StepLaws | src/aeghash/core/commerce_service.py:75-112 | No call changes the content of a key; settled keys never change; conflicts, duplicates and calls in progress write nothing; other keys are untouched |
| Commerce.OutcomeExact | src/aeghash/core/commerce_service.py:92-150 | Each answer is given exactly under its condition, a crash if the call executes and the store refused, no attempt was allowed, or the last allowed attempt raised something else than a ValueError; and what a created or crashed call leaves behind |
| Commerce.ExecutedExact | src/aeghash/core/commerce_service.py:110-150 | What a call that executes leaves in keys, orders and records and what it answers, from the attempt that decided |
| Commerce.NothingExecuted | src/aeghash/core/commerce_service.py:110-150 | The same when the store refuses the order or no attempt is made |
| Commerce.UsersApart | src/aeghash/core/commerce_service.py:79-90 | A call touches the record of its own user and key alone: another user's record under the same key stays |
| Commerce.KeysOk | src/aeghash/utils/memory_repositories.py:84-90 | On every run a succeeded key names the order id of its own content, and that order is stored |
| Commerce.DuplicateFound | src/aeghash/core/commerce_service.py:99-107 | After any run no call is answered as in progress, and a duplicate is answered with a stored order of the same order id |
| Commerce.SettledForever | src/aeghash/core/commerce_service.py:99-112 | A settled key stays as it is through any further calls |
| Commerce.CleanStepGain | src/aeghash/core/commerce_service.py:119-137 | If faulty pipeline calls record nothing, a call records the one batch it returns or nothing |
| Commerce.OneBatchPerKey | src/aeghash/core/commerce_service.py:75-150 | Under that condition and with non-empty order ids, all calls of a run under one key together record at most one batch |
| Commerce.RepeatIsDuplicateIff | src/aeghash/core/commerce_service.py:99 | A repeated payload is recognised as a duplicate if and only if its order id is not empty |
| Commerce.RepeatPaysAgainIff | src/aeghash/core/commerce_service.py:99-137 | After a call that executed and paid bonuses, repeating its payload records bonuses again if and only if the order id is empty |
| OrderIntake.FaultsCleanIff | src/aeghash/core/bonus_pipeline.py:92-98 | Failing calls of the real pipeline record nothing if and only if the buyer is not registered in the unilevel tree alone, with ancestors |
| OrderIntake.HalfRegisteredOrder | src/aeghash/core/commerce_service.py:119-137 | For such a buyer the order succeeds with no bonuses while every retry attempt leaves its recommend bonuses recorded |
| OrderIntake.HalfRegisteredExample | src/aeghash/core/commerce_service.py:119-137 | Such a buyer after two organisation calls, and its first order: accepted without bonuses, one recommend bonus recorded per allowed attempt |
| OrderIntake.RecordsWhatItReturnsIff | src/aeghash/core/commerce_service.py:119-137 | On the real pipeline a call that executes records exactly the bonuses it returns if and only if the buyer is not such a one |
| OrderIntake.OneBatchOnRealPipeline | src/aeghash/core/commerce_service.py:75-150 | On every run of the service on the real pipeline, however the organisation grows, all calls under one key with order ids and no such buyer together record at most one batch, retries included |
| OrderIntake.AegmallOrderService.ProcessOrder | src/aeghash/core/commerce_service.py:75-150 | Whole new state and result on the real pipeline |
| OrderIntake.AegmallOrderService.Execute | src/aeghash/core/commerce_service.py:110-150 | Whole new state and result of storing the order, running the pipeline and marking the key |
| OrderIntake.AegmallOrderService.RunPipeline | src/aeghash/core/commerce_service.py:120-137 | The retried pipeline: its outcome and everything its attempts recorded |
| OrderIntake.AegmallOrderService.RetryUplines | src/aeghash/core/commerce_service.py:120-137 | The retry loop on the real pipeline |
| OrderIntake.AegmallOrderService.MarkStatus | src/aeghash/utils/memory_repositories.py:84-90 | Changes status and, if given, resource of an existing key |
| Kpi.AccessExact | src/aeghash/api/kpi.py:114-174 | On every run of the organisation service each decision is given exactly under its condition; without global access and for an existing node of the tree, granted exactly when a scoped node, or without scopes the caller's own node, is that node or above it by parent links |
| Kpi.InScopeIff | src/aeghash/api/kpi.py:151-174 | The scope test answers reachability from some scoped node of that tree |
| Kpi.AccessInherited | src/aeghash/api/kpi.py:114-174 | Who may read a node may read its whole subtree |

## Left out

- HTTP layers, OAuth, Turnstile, the HashDam and MBlock clients, webhooks, configuration and bootstrap: I/O, replaced by arbitrary answers where the core calls them.
- SQL sessions, commits, rollbacks, migrations and column sizes; `SQLAlchemy` repositories other than the organisation tables. A refused call leaves the store unchanged, except for the zero wallet of a rejected credit, which is modelled.
- The bonus repository follows the in-memory store, with the primary key of the SQL one; its other SQL statements are not modelled.
- Concurrency between callers: every call is one step.
- The 28-digit context of Decimal: amounts are exact integers or reals between roundings.
- Real id generation and clocks: wallet ids come from a counter, node ids from the caller, times are parameters.
- Reading scopes out of role strings (`allowed_kpi_nodes`) and the permission sets behind global access: the caller's scopes and global access are parameters.
- Idempotency expiry: nothing in the modelled code reads it.
- Crashes in the middle of a call: a call either returns or raises as the code does.
- Password hashing, one-time passwords, encryption, login, masking, metrics, notifications: opaque cryptography or branch-by-branch code.
- KPI totals, commerce line totals, listings by filter and the front end: easy sums or presentation.
- Commerce.OneBatchPerKey: assumes that faulty pipeline calls record nothing, because the claim is false otherwise; `OrderIntake.RecordsWhatItReturnsIff` says exactly for which buyers it holds, and `OrderIntake.OneBatchOnRealPipeline` states the law on the real pipeline.
