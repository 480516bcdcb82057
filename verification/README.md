# Bugalizer: the guarantees of its protocols

Bugalizer is one process with one SQLite database. It takes bug reports from a
sonicgrid source, analyses them, proposes fixes on paid and free models, opens
pull requests and reports back. Its hard part is what the rows guarantee when
the process dies between two writes, a remote commits and loses its answer, or
several tasks work on one report. This project models those protocols as step
machines, proves what every run keeps, and proves the imperative code of the
main operations against the machines.

## How the model is built

Each protocol is a `State`, a total function `Next(s, event)` and `Run` over a
sequence of events. Everything the code does not decide is in the event: the
clock, every remote answer, the outcome of a stage, the moment of a crash. An
event that is not enabled changes nothing, so a theorem about all sequences of
events is a theorem about all runs. A crash drops what is in memory and keeps
the tables; restart runs `release_orphaned_claims` first. A transaction is one
step. Fields that only count (`trace`, `pushes`, `calls`, `sent`, `staged`,
`snapshot`, `late`) are an observer's and decide nothing.

Where the source updates state in place there is a class with the same fields
(`TriageSync.Sync`, `OpenPrStore.Report`, `ResultsPush.Pusher`,
`IngestStore.Project`, `Clock.Source`) whose methods are written as the code
is; each one's `ensures` says that its effect is the machine's step, or run. The
sync's handlers also keep `Valid()`, the invariant behind the run theorems, and
leave alone every outcome and grant already written and every other action; the
ingest's walks keep theirs while the source grows and the configuration changes
between any two of their requests and commits.

| files | what they hold |
|---|---|
| `Workflow.dfy` | the status table and the gate of the public PATCH |
| `Ledger.dfy`, `Actions.dfy`, `TriageMachine.dfy` | the triage action ledger, its decisions and its steps |
| `TriageInvariant.dfy`, `TriageRuns.dfy`, `TriageAuthority.dfy` | what every step keeps, and the run theorems |
| `TriageProgress.dfy`, `TriageStages.dfy`, `TriageDecisions.dfy` | what a listing, a claim, a stage, a PR call and a POST lead to, and exactly when |
| `TriageSync.dfy`, `TriageExample.dfy` | the handlers, and one whole run |
| `OpenPr.dfy`, `OpenPrSafety.dfy`, `OpenPrResults.dfy`, `OpenPrRetries.dfy`, `OpenPrProgress.dfy`, `OpenPrStore.dfy` | the open-pr claim protocol: steps, invariant, results, retries and failing runs, what a call does when it may, writers |
| `ResultsContent.dfy`, `ResultsPush.dfy` | what a payload says, and its revisions and fingerprints against a newest-revision-wins store |
| `Ingest.dfy`, `IngestSafety.dfy`, `IngestStore.dfy` | the forward walk and the re-walk over a growing source |
| `RetryBudget.dfy`, `FixAnalysis.dfy`, `Clock.dfy` | the retry gate, the proposal-to-analysis lookups, and the clock both rest on |
| `Duplicates.dfy`, `Numstat.dfy` | duplicate links, and the `numstat -z` parser |

The triage machine and the open-pr machine meet in one predicate,
`OpenPrAnswer.Answers`: the sync assumes it of every 200 and 201, and
`TriageDecisions.OpenPrAnswersFit` and `OpenPrResults.RecordIsFinal` prove it of
the open-pr machine.

## What turned out not to hold, and exactly when it does

- **DELETE and open-pr.** The DELETE route runs in a thread, and a call is
  entered in `_active_claims` only after its claim is committed. A DELETE whose
  read and check both fall in that window takes the claim from a live call
  (`DeleteCanTakeALiveClaim` is the run); it does so in no other case
  (`DeleteTakesALiveClaimIff`).
- **Results push.** `triage_result_stage` keeps `acked_fingerprint`. A payload
  that comes back to the acknowledged fingerprint, and whose PUT is lost, is
  never sent again, whatever the store holds (`RecurrenceDiverges`). A stage
  keeps "acknowledged means stored" if and only if its fingerprint is not the
  acknowledged one (`StageKeepsTheLawIff`). The fingerprint includes
  `bugalizerUpdatedAt`, and the one write that moves no stamp, the first read of
  the PR as open, is never undone; so, with analysis stamps as assumed below, it
  comes back in two ways only. The project's head commit moves off the localized
  commit and back (`HeadReturnDiverges`): without a retry reset this is the only
  way (`RecurrenceNeedsTheHead`), so for every other history an acknowledgement
  does mean stored (`AckedMeansStoredWithoutTheHead`). Or a manual retry deletes
  the failed row that was the newest stamp (`ResetDiverges`), which can happen
  when the report was moved back to `triaged` while its fix attempt ran.
- **Retry budget.** The bound is `max(1, max_fix_retries)`: the gate never
  blocks an empty list of failures, so a limit of 0 lets one attempt through. An
  attempt the worker had sampled before a manual attempt failed for good still
  runs (`StaleSampleCallsTheModel`), at most one
  (`NoneAfterAPermanentFailure`). An attempt whose report was moved out of
  `fix_proposing` under it leaves no row if the process then dies, and such
  attempts are not bounded (`CrashIsRecordedIff`, `LostAttemptsAreUnbounded`).
- **numstat.** An ordinary path with a TAB in it is dropped; the parser inverts
  the printer if and only if there is none (`ParseInvertsPrintIff`).
- **A 409 as a return value.** `_record_existing_pr` returns its 409 for another
  proposal's PR, and `pr_step` reads a key that body lacks; the model follows
  the code: the attempt ends in an exception and decides nothing (`Broken`).
- **A second PR.** At most one PR of a branch is ever open, but a further one
  is opened exactly when a creation reaches GitHub, a live call's or one given
  up earlier, while the existing ones are all closed (`FurtherPrIff`). A call
  asks for one beside an existing PR only if its listing missed that PR or a
  late creation overtook it (`CreatingBesideAPr`); without either there is one
  PR at most (`OnePrIfPrompt`). `TwoPrs` is the run.
- **A stranded branch.** If a process dies in its push, a retry records a new
  intent for the same proposal, and then the old push lands, the tip matches no
  recorded intent (`LatePushStrands`). From the pushed branch an answered retry
  finishes if and only if the tip is still its author's recorded intent and the
  retry asks for that proposal or for none (`RetryResumesIff`). Once the tip is
  no recorded intent, no later run opens or records a PR (`StrandedForGood`), and
  only then: as long as it is one, some run does (`StrandedForGoodIff`).

## Assumptions

One process on the database; no lost database; no clock step backwards across
restarts; Bugalizer is the only writer of a report's branch and the only one to
open PRs for it, and a closed PR is not reopened; a PR's commit listing holds
its head; a commit sha and a fingerprint identify their contents; claim tokens
are never drawn twice; a listed action's kind, report and parameters do not
change; projects are not deleted while their actions are open; the ingest
source only grows. An analysis takes `completed_at` straight from the clock, not
from `_now` (src/bugalizer/pipeline/localizer.py:200,
src/bugalizer/pipeline/fix_proposer.py:511): it is taken to be newer than its
report's earlier stamps and behind the later ones. A push or a PR creation may
take effect at any time after the call that sent it was given up.

## Model

| member | source | states |
|---|---|---|
| Workflow.ClaimIsClosedToThePublic | src/bugalizer/models.py:44-116 | no public status change enters or leaves `fix_approved` or enters `fix_committed` or `verified`, while the ungated table has exactly the claim's own two edges out and one in |
| TriageRuns.PaidActionRunsAtMostOnce | src/bugalizer/sync/triage_sync.py:488-644 | over every run with crashes at any step, an action with `no_auto_retry` is dispatched, keyed and sent to a model at most once each, and if its fix step was refused no model was called |
| TriageRuns.KeysAreNeverMixed | src/bugalizer/sync/triage_sync.py:387-418 | for every history of the per-user-keys gate, a paid action with `params.llm` reaches a model only on its requester's key and asks for it at most once; with the gate on no paid model is reached on the environment's key |
| TriageRuns.CompoundIsConsistent | src/bugalizer/sync/triage_sync.py:421-469 | a finished `fix_and_open_pr` has a step pair legal for its outcome; each PR call used the checkpointed proposal, one the action made; `done` means the report's PR is recorded on it |
| TriageRuns.SlotsAreBounded | src/bugalizer/sync/triage_sync.py:136-161 | in every reachable state at most one held slot a report and at most `max(1, limit)` LLM slots |
| TriageRuns.LiveTaskIsAlone | src/bugalizer/sync/triage_sync.py:157-161 | no step of the tick, the sweep, another action or the environment gives a live task's slot a second task or frees it, timed out or not |
| TriageRuns.OutcomeIsWrittenOnce | src/bugalizer/db.py:2135-2159 | no later run changes a finished row's outcome, message, steps or proposal |
| TriageRuns.PostsAgree | src/bugalizer/sync/triage_sync.py:683-698 | every terminal POST of an action carries the same body, the row's own, and an acknowledgement without a breach means sonicgrid holds that outcome |
| TriageRuns.ReopenExactlyWhenDone | src/bugalizer/db.py:2163-2199 | an action performs `closed -> triaged` once if it is a `reopen` whose outcome is `done`, and otherwise never, over every run |
| TriageRuns.TraceCountsReopenings | src/bugalizer/sync/triage_sync.py:326-340 | the count in the previous row is the number of steps of the action that really wrote its report from `closed` to `triaged` |
| TriageInvariant.EventKeeps | src/bugalizer/sync/triage_sync.py:258-698 | every event of an action keeps the whole ledger invariant: slot, phase, spending, keys, compound, steps, record, reopen and posts |
| TriageInvariant.RestartKeeps | src/bugalizer/db.py:847-896 | a crash and restart at any point keep it, whichever way the keys gate flips |
| TriageDecisions.PaidGrantIff | src/bugalizer/sync/actions.py:147-217 | a paid action is granted if and only if the consents, the pin or allowlist of the gate in force, and a freshly localized triaged report are there |
| TriageDecisions.PaidGrantPins | src/bugalizer/sync/actions.py:201-219 | a grant pins the requester's model or the project's and never mixes them, and is `no_auto_retry` exactly when it is paid or `analyze_cloud` |
| TriageAuthority.AuthorizedOnceForEver | src/bugalizer/sync/triage_sync.py:548-582 | an action is authorized once: its pins, key mode and `no_auto_retry` are those that one authorization granted, and no later run, restart or flip of the keys gate changes them |
| TriageAuthority.NothingRunsUnconsented | src/bugalizer/sync/actions.py:147-241 | over every run, whatever was dispatched even once was covered by its own listing: repository and spending consents, mode, model and key; a local analysis is pinned to two models that cost nothing |
| TriageDecisions.InterruptedRowsProveNothing | src/bugalizer/sync/actions.py:422-465 | rows a crash cut off are no evidence after the restart |
| TriageAuthority.OutcomesMatchTheRows | src/bugalizer/sync/actions.py:422-483 | over every run, a cloud analysis is `done` only with a proposal of its own, and recovery's unconfirmed outcome stands only where the tagged rows prove nothing |
| TriageDecisions.RecoveryDispatchesIff | src/bugalizer/sync/triage_sync.py:595-644 | recovery dispatches again if and only if no time-out, evidence, stage claim, drain rule, retry ban or slot forbids it |
| TriageDecisions.SweepFinishesIff | src/bugalizer/sync/triage_sync.py:272-318 | the sweep finishes exactly the open rows whose bound has passed since their intent, as timed out, keeps what a compound had done, and leaves slots alone |
| TriageDecisions.AnsweredPostSettles | src/bugalizer/sync/triage_sync.py:683-698 | an answered terminal POST is always acknowledged, as a breach exactly when sonicgrid held another outcome or never saw the claim |
| TriageDecisions.LostPostIsRetried | src/bugalizer/sync/triage_sync.py:683-698 | a lost POST leaves the row as it was and is sent again with the same body |
| TriageDecisions.ThirdTroubleEndsThePrStep | src/bugalizer/sync/actions.py:355-386 | over every run, the durable attempt count stays below three and the third trouble ends the PR step as failed |
| TriageProgress.ListingResumesIff | src/bugalizer/sync/triage_sync.py:595-615 | a compound past its checkpoint, a dispatched `open_pr` or a dispatched inline action with no slot gets its slot and its step at the next listing if and only if the bound has not passed and no other action holds its report; past the bound it is ended as timed out, and otherwise left as it is |
| TriageProgress.ResumedStepCallsThePr | src/bugalizer/sync/triage_sync.py:421-445 | one listing and the start of the step make the PR call, with exactly the checkpointed proposal of a compound, if and only if both are within the bound and the report is free |
| TriageProgress.ProposalConcludes | src/bugalizer/sync/actions.py:436-465 | a run cut off after its proposal is concluded by it at the next listing: a cloud analysis is done, a compound is checkpointed on the newest proposal and takes up its PR step if its report is free |
| TriageProgress.FinishedRowsConclude | src/bugalizer/sync/actions.py:422-465 | one that left no proposal is concluded by the finished rows of its stages, done only for a local analysis that completed a localization |
| TriageProgress.UnprovedIsDecided | src/bugalizer/sync/triage_sync.py:616-644 | one whose rows prove nothing waits for a stage that holds its report, is refused under a gate turned on against it, is failed as unconfirmed if it may not run twice, and else is dispatched again exactly when it gets its slot |
| TriageProgress.OverdueIsEnded | src/bugalizer/sync/triage_sync.py:595-603 | past the bound it is ended as timed out, whatever its rows prove, with the steps a compound had |
| TriageProgress.PrAnswerDecides | src/bugalizer/sync/triage_sync.py:432-459 | an opened PR, a refusal and the third trouble end the action as done, refused and failed; every other answer leaves the row open, its slot free and the count as the answer says |
| TriageProgress.LatePrAnswerIsNoted | src/bugalizer/sync/triage_sync.py:299-309 | past the bound, or after another ending, a PR answer is only noted, and the outcome stands |
| TriageProgress.FirstListingReservesIff | src/bugalizer/sync/triage_sync.py:647-680 | a listed action without a row is reserved and claimed exactly when its report is imported and it gets its slot |
| TriageProgress.ReservedIsClaimedAgainIff | src/bugalizer/sync/triage_sync.py:647-680 | a reserved action left by a dead process is claimed again at the next listing exactly when it gets its slot |
| TriageProgress.LostClaimIsMadeAgainIff | src/bugalizer/sync/triage_sync.py:548-582 | a claim that was lost, refused as unknown or in conflict frees its slot, and the next listing makes it again exactly when the action gets its slot; nothing is dispatched for it |
| TriageProgress.ClaimedRunsIff | src/bugalizer/sync/actions.py:147-241 | a granted claim writes the intent if and only if the consents, models, allowlist, gate and report status of its kind are there, and otherwise ends the action refused for a reason that holds |
| TriageProgress.ClaimedIsDispatchedIff | src/bugalizer/sync/triage_sync.py:525-582 | and the next step dispatches it, once, if and only if they are: as a task, as the PR step or as the inline step |
| TriageStages.FixCallsItsModelIff | src/bugalizer/sync/triage_sync.py:350-418 | from its task on, a fix calls its model if and only if it has the key it needs, its report is triaged and nothing is in its way; then once, on the key its grant says; and otherwise its stage is over |
| TriageStages.KeyIsUsedIff | src/bugalizer/sync/triage_sync.py:350-418 | the requester's key is used if and only if the answer is a 200 with an Anthropic key; a denial refuses the action, and anything else fails it, each saying why |
| TriageStages.FixRunFinishes | src/bugalizer/pipeline/fix_proposer.py:344-473 | a fix stage with nothing in its way and a valid answer in time keeps its proposal and ends a cloud analysis as done with it, or checkpoints a compound on it and takes up its PR step in the same slot |
| TriageStages.BrokenFixFails | src/bugalizer/pipeline/fix_proposer.py:486-515 | a fix stage that breaks, under its claim or outside, fails its action, with a failed row of its own exactly when it broke under its claim |
| TriageStages.LocalRunEnds | src/bugalizer/sync/actions.py:258-269 | a local analysis is done only with a localization; a stage that ran and failed fails it, and one that did not run refuses it |
| TriageStages.LateStageEndIsNoted | src/bugalizer/sync/triage_sync.py:498-522 | past the bound, or after another ending, a stage that returns is only noted, and its slot is freed |
| TriageStages.InlineStepEnds | src/bugalizer/sync/actions.py:389-419 | `reopen`, `set_mode` and `close`, run and written, end the action by the report's status, and move that report exactly as that ending says, and no other |
| TriageStages.LateInlineIsNoted | src/bugalizer/sync/triage_sync.py:326-340 | an inline step whose action was ended meanwhile is only noted |
| TriageStages.DrainPostsIff | src/bugalizer/sync/triage_sync.py:683-698 | a finished action is posted exactly when it is not acknowledged and no POST of it is in flight, with its row's outcome, message and steps |
| TriageStages.RejectedPostIsABreach | src/bugalizer/sync/triage_sync.py:683-698 | a 400, a 404 and a 409 with another outcome are acknowledged as a breach; a lost POST or answer leaves the row as it is |
| TriageStages.ListingLeavesTheBusy | src/bugalizer/sync/triage_sync.py:647-665 | a listing leaves a finished action and a live task alone, but ends an open row past the bound while its task goes on |
| TriageStages.RestartFrees | src/bugalizer/db.py:847-896 | a restart keeps every row, proposal and count, empties every slot, marks running stage rows interrupted, and takes back the stages' claims but not open-pr's |
| TriageStages.TraceCounts | src/bugalizer/sync/triage_sync.py:387-445 | the credentials, model calls and PR calls that the run theorems count are counted exactly when an action enters them |
| TriageExample.CompoundCanFinish | src/bugalizer/sync/triage_sync.py:488-545 | a run from a fresh ledger to an acknowledged `done` on which sonicgrid agrees, with one dispatch, one credential, one model call on that key, one PR call for the proposal made and recorded, and one POST |
| TriageSync.Sync.TryHold | src/bugalizer/sync/triage_sync.py:141-154 | takes the slot exactly when no other action holds the report and, for an LLM action, fewer than `max(1, limit)` LLM slots are taken, and is refused otherwise |
| TriageSync.Sync.FinishAction | src/bugalizer/sync/triage_sync.py:258-269 | writes the outcome once, from the expected phase, else keeps it as a note |
| TriageSync.Sync.ExpireOverdue | src/bugalizer/sync/triage_sync.py:312-323 | the sweep's loop keeps the invariant, ends exactly the claimed rows past the bound, and gives up no slot |
| TriageSync.Sync.DispatchGranted | src/bugalizer/sync/triage_sync.py:525-545 | dispatching what was granted is the machine's step, which `ClaimedIsDispatchedIff` pins; keeps the invariant, and touches no other action, outcome or grant |
| TriageSync.Sync.ClaimAndStart | src/bugalizer/sync/triage_sync.py:548-582 | an answered `claimed` POST is the machine's step, which `ClaimedRunsIff` and `LostClaimIsMadeAgainIff` pin; keeps the invariant, and touches no other action, outcome or grant |
| TriageSync.Sync.HandleListed | src/bugalizer/sync/triage_sync.py:647-680 | handling one listed action, recovery included, is the machine's step, which `FirstListingReservesIff`, `ReservedIsClaimedAgainIff` and `ListingLeavesTheBusy` pin; keeps the invariant, and touches no other action, outcome or grant |
| TriageSync.Sync.RecoverAction | src/bugalizer/sync/triage_sync.py:595-644 | recovering a row nothing works on is the machine's step, which `ListingResumesIff`, `ProposalConcludes`, `FinishedRowsConclude`, `UnprovedIsDecided` and `OverdueIsEnded` pin for every such row; keeps the invariant, and touches no other action, outcome or grant |
| TriageSync.Sync.EndTask | src/bugalizer/sync/triage_sync.py:498-522 | recording a stage that returned is the machine's step, which `FixRunFinishes`, `BrokenFixFails`, `LocalRunEnds` and `LateStageEndIsNoted` pin; keeps the invariant, and touches no other action, outcome or grant |
| TriageSync.Sync.EndPr | src/bugalizer/sync/triage_sync.py:432-459 | recording an open-pr call that answered is the machine's step, which `PrAnswerDecides` and `LatePrAnswerIsNoted` pin; keeps the invariant, and touches no other action, outcome or grant |
| TriageSync.Sync.InlineKind | src/bugalizer/sync/triage_sync.py:326-340 | `reopen`, `set_mode` and `close` are the machine's step, which `InlineStepEnds` pins; keep the invariant, and touch no other action, outcome or grant |
| TriageSync.Sync.TerminalPosted | src/bugalizer/sync/triage_sync.py:683-698 | an answered terminal POST is the machine's step, which `AnsweredPostSettles` and `RejectedPostIsABreach` pin; keeps the invariant, and touches no other action, outcome or grant |
| OpenPrSafety.StepKeeps | src/bugalizer/git_ops/pull_request.py:476-695 | every step of a call, of the PATCH and DELETE routes and of the environment, late pushes and creations included, keeps the protocol's invariant |
| OpenPrSafety.OwnerIsTheAuthor | src/bugalizer/git_ops/pull_request.py:621-639 | among any listed commits that hold the head, the owner found by intent or trailer is the author of the PR's head |
| OpenPrResults.OneCallOnePushOneOpenPr | src/bugalizer/git_ops/pull_request.py:586-621 | over every run, late effects included: at most one live call, one push that changed the branch, one open PR, and one recorded proposal, the author of the head every PR carries; no call builds or pushes while a PR exists or may still land, and a PR is asked for only of the tip that is its author's recorded intent |
| OpenPrResults.PushesAfterAnAbsentBranch | src/bugalizer/git_ops/pull_request.py:592-621 | a call builds a commit only on reading that there is no branch, while there is no PR, and pushes only what it built and recorded as its proposal's intent |
| OpenPrResults.FurtherPrIff | src/bugalizer/git_ops/pull_request.py:671-695 | beside an existing PR another is opened if and only if a creation reaches the remote while none is open |
| OpenPrResults.CreatingBesideAPr | src/bugalizer/git_ops/pull_request.py:592-597 | a call asks for a PR beside an existing one only if its own listing missed it or a creation landed after that listing |
| OpenPrResults.MarksAreSetBy | src/bugalizer/git_ops/pull_request.py:592-597 | the only steps that make a call one of those two |
| OpenPrResults.OnePrIfPrompt | src/bugalizer/git_ops/pull_request.py:586-621 | over every run in which no listing misses a PR and no creation lands late, at most one PR is ever created |
| OpenPrResults.RecordIsFinal | src/bugalizer/db.py:1325-1410 | a recorded PR is never changed, and no second one recorded, by any later run |
| OpenPrResults.AnswersHold | src/bugalizer/git_ops/pull_request.py:462-473 | every 200 and 201 ever given names the recorded proposal, which is the requested one if one was, and exactly the PR recorded on it |
| OpenPrResults.AnswerIsCreatedIff | src/bugalizer/git_ops/pull_request.py:452-473 | an answer says `created` exactly when it is given by the step of its own call that made that PR |
| OpenPrProgress.CheckDecides | src/bugalizer/git_ops/pull_request.py:476-525 | before its claim a call is answered if and only if a PR is recorded, on the requested proposal if one is named; it goes on, for that proposal or the newest, if and only if there is none, no call runs, the status may be claimed and the configuration is there; and else it is refused, with no row written |
| OpenPrProgress.ClaimIsWonIff | src/bugalizer/db.py:802-914 | whatever other routes and stages do after the checks, the claim is won if and only if the status, and for an adoption the token, is still the one read; a loser has changed nothing |
| OpenPrProgress.AnsweredCallOpens | src/bugalizer/git_ops/pull_request.py:586-695 | for any claimable report with nothing on the remote, a call whose requests are answered pushes one commit, opens its PR, records both on its proposal and on nothing else, and answers 201 with them |
| OpenPrProgress.OpenPrIsRecorded | src/bugalizer/git_ops/pull_request.py:682-695 | a creation GitHub refuses beside an open PR ends in that PR recorded on the author of its head, answered as not created, or with 409 to a call for another proposal |
| OpenPrProgress.OpenedIsRecordedIff | src/bugalizer/db.py:1378-1410 | a PR just opened is recorded if and only if its call still holds its claim; otherwise the PR stands and no row is written |
| OpenPrProgress.FailedCallReleases | src/bugalizer/git_ops/pull_request.py:556-583 | from any point, a call that fails and is released leaves no call, and the report proposed and without a token if it still held its claim; what is on the remote stays |
| OpenPrProgress.DeleteDeletesIff | src/bugalizer/api/reports.py:514-539 | a DELETE deletes if and only if no call was registered at its check and, whatever comes before its write, status and token are then as it read them; otherwise it writes nothing |
| OpenPrProgress.PatchWritesIff | src/bugalizer/db.py:719-747 | a PATCH is accepted exactly for a change the public may make, and made if and only if the status is still the one it read |
| OpenPrResults.ClaimIsExclusive | src/bugalizer/git_ops/pull_request.py:500-583 | while a live call holds its claim, no step of another call, adoption, release or PATCH, however its read and write interleave, moves the report's status or token |
| OpenPrResults.HolderKeepsItsClaim | src/bugalizer/git_ops/pull_request.py:556-583 | the holder itself gives the claim up only by recording the PR or by releasing it |
| OpenPrResults.DeleteTakesALiveClaimIff | src/bugalizer/api/reports.py:514-539 | a DELETE takes a live call's claim exactly when it read that claim and checked for a running call before the call was registered |
| OpenPrRetries.DeleteCanTakeALiveClaim | src/bugalizer/api/reports.py:514-539 | a run in which that happens |
| OpenPrResults.ReleasedClaimIsGone | src/bugalizer/db.py:917-929 | a call that ends without finalizing and whose release write succeeds leaves no claim of its own, then or ever after |
| OpenPrRetries.RetryFinishesOnTheBranch | src/bugalizer/git_ops/pull_request.py:642-695 | once the branch is pushed, any call that ends finalized, in any interleaving, has recorded a PR of that branch on the proposal whose commit it carries, and nothing was pushed again |
| OpenPrRetries.RetryCanRecord | src/bugalizer/git_ops/pull_request.py:642-668 | if a PR exists unrecorded, a retry whose requests are answered does finish |
| OpenPrRetries.RetryResumesIff | src/bugalizer/git_ops/pull_request.py:598-615 | if the branch was pushed and no PR opened, an answered retry finishes if and only if the tip is still its author's recorded intent and the retry asks for that proposal or for none |
| OpenPrRetries.StrandedForGood | src/bugalizer/git_ops/pull_request.py:598-607 | a branch whose tip matches no recorded intent stays so: no later run opens or records a PR |
| OpenPrRetries.StrandedForGoodIff | src/bugalizer/git_ops/pull_request.py:598-668 | with no call building a commit, no recorded intent is the tip of the pushed branch if and only if no later run ever has a PR recorded |
| OpenPrRetries.LatePushStrands | src/bugalizer/git_ops/pull_request.py:617-620 | a run that strands a branch: the old push lands after a retry's new intent |
| OpenPrRetries.TwoPrs | src/bugalizer/git_ops/pull_request.py:671-695 | a run with two PRs: the first unheard of, closed, and missed by the retry's listing |
| TriageDecisions.OpenPrAnswersFit | src/bugalizer/sync/actions.py:355-377 | every 200 or 201 of a reachable open-pr state is an answer the sync's machine expects |
| OpenPrStore.FindPusher | src/bugalizer/git_ops/pull_request.py:600-607 | the loop finds the first proposal whose recorded intent is the tip |
| OpenPrStore.FindOwner | src/bugalizer/git_ops/pull_request.py:624-639 | the loops compute the owner: the one intent among the commits, else the first trailer |
| OpenPrStore.Report.Checks | src/bugalizer/git_ops/pull_request.py:476-525 | is the machine's step up to the claim, which `CheckDecides` and `AnswersHold` pin: answer with the recorded PR, refuse or go on, writing nothing |
| OpenPrStore.Report.TakeClaim | src/bugalizer/db.py:802-914 | the two compare-and-sets are the machine's claim step |
| OpenPrStore.Report.RecordPullRequest | src/bugalizer/db.py:1378-1410 | writes the proposal and the report together, or neither |
| OpenPrStore.Report.RecordExistingPr | src/bugalizer/git_ops/pull_request.py:642-668 | is the machine's step once the PR's commits are read |
| OpenPrStore.Report.BranchTip | src/bugalizer/git_ops/pull_request.py:598-615 | is the machine's step once the branch's tip is read |
| OpenPrStore.Report.RecordIntent | src/bugalizer/git_ops/pull_request.py:617-620 | the intent is durable before the push |
| OpenPrStore.Report.Exit | src/bugalizer/git_ops/pull_request.py:570-583 | releases what was not finalized, then unregisters |
| OpenPrStore.Report.DeleteReport | src/bugalizer/db.py:750-778 | deletes only the row the route checked and only once, and is the machine's DELETE write |
| OpenPrStore.Report.UpdateStatus | src/bugalizer/db.py:719-747 | writes only over the status the PATCH validated, and is the machine's PATCH write |
| ResultsPush.OneRevisionOnePayload | src/bugalizer/db.py:2010-2032 | over every run with lost, late and repeated PUTs, equal revisions carry equal payloads |
| ResultsPush.NewPayloadIsNewer | src/bugalizer/sync/triage_sync.py:721-725 | a changed payload gets a revision above everything sent and above what the store reported, at least the clock's, and is put in flight under it |
| ResultsPush.RecurrenceNeedsTheHead | src/bugalizer/sync/results.py:124-203 | over every run without a retry reset, a recurring fingerprint is of a payload whose detail the head commit decides; the head moved, and no stamp, `prState` or other content did in between |
| ResultsPush.AckedMeansStoredWithoutTheHead | src/bugalizer/sync/triage_sync.py:705-745 | over every such run where the head did not move or does not decide the payload's detail, an acknowledged fingerprint means the store holds exactly the staged payload |
| ResultsPush.AckedMeansStored | src/bugalizer/sync/triage_sync.py:705-745 | with the ledger kept and no fingerprint reused, an acknowledged fingerprint means the store holds exactly the staged payload |
| ResultsPush.StageKeepsTheLawIff | src/bugalizer/db.py:2010-2032 | a stage keeps that if and only if its fingerprint is not the acknowledged one |
| ResultsPush.AheadStoreIsOvertaken | src/bugalizer/sync/triage_sync.py:733-737 | with a store ahead of a lost ledger, the next change after an acknowledgement is stored by one answered PUT |
| ResultsPush.OnePushConverges | src/bugalizer/sync/triage_sync.py:705-745 | with the ledger kept, one answered PUT of a payload that is not settled makes store and ledger agree |
| ResultsPush.PutIsRepeatedIff | src/bugalizer/sync/triage_sync.py:705-745 | with unchanged content, the build and tick after a PUT put the same payload under the same revision in flight again if and only if it was not answered, not rejected with 400, 404 or 413, and its fingerprint not acknowledged before |
| ResultsPush.SettledIsLeftAlone | src/bugalizer/sync/triage_sync.py:705-745 | after an answer, or a 400, 404 or 413, no later tick, build, crash or late PUT with unchanged content sends anything |
| ResultsPush.OpenPrIsPushed | src/bugalizer/db.py:1434-1451 | the first read of a recorded PR as open is sent by the next tick under a newer revision, and a later read changes nothing |
| ResultsPush.RecurrenceDiverges | src/bugalizer/db.py:2018-2024 | whatever takes the content away and brings it back, a recurring fingerprint can leave the store on another payload for good |
| ResultsPush.HeadReturnDiverges | src/bugalizer/sync/stage.py:47-87 | that run for a localized report whose head commit moves away and back |
| ResultsPush.ResetDiverges | src/bugalizer/db.py:1683-1694 | that run for a failed fix that was the newest row and a manual retry that deletes it |
| ResultsContent.HeadDecides | src/bugalizer/sync/stage.py:36-87 | a move of the head changes a payload only between `localized` and `stale` |
| ResultsContent.DetailDecides | src/bugalizer/sync/stage.py:43-77 | the detail of a report that its status and mode leave open is `fix_failed`, `pr_closed`, `not_localized`, `localized` or `stale`, each for its own newest event |
| ResultsContent.NewestIsTheNewest | src/bugalizer/sync/results.py:168-175 | `bugalizerUpdatedAt` is one of the report's stamps, and none is newer |
| ResultsPush.Pusher.Prepare | src/bugalizer/sync/triage_sync.py:705-728 | one report's turn is the machine's tick: skip, resend as stored, or stage |
| ResultsPush.Pusher.Finish | src/bugalizer/sync/triage_sync.py:730-745 | what an answer, a rejection or a loss writes is the machine's step, which `PutIsRepeatedIff`, `SettledIsLeftAlone` and `OnePushConverges` pin |
| IngestSafety.CompletedWalkCoversItsStart | src/bugalizer/ingest/poller.py:211-246 | when a re-walk completes, every item the source held when its start was recorded is imported or unmappable, for any growth, caps, restarts and bad cursors |
| IngestSafety.RewalkLeavesTheForwardCursor | src/bugalizer/ingest/poller.py:211-246 | no commit of a re-walk moves the forward cursor |
| IngestSafety.RejectedCursorIsDropped | src/bugalizer/ingest/poller.py:183-199 | a forward walk whose cursor the source rejects stores none, and the next poll asks its first page without one; after any other error the next poll asks with the cursor stored last; the re-walk in progress stays |
| IngestSafety.RejectedWalkCursorIsDropped | src/bugalizer/ingest/poller.py:213-246 | a re-walk whose cursor is rejected stays in progress and starts over; after any other error it goes on where it was; the forward cursor stays |
| IngestSafety.ForwardPageIsCommitted | src/bugalizer/ingest/poller.py:183-199 | a committed page has its items imported and its next cursor stored, if it has one; the walk is over exactly when it has none or the page is short |
| IngestSafety.WalkPageIsCommitted | src/bugalizer/ingest/poller.py:213-246 | the same of a re-walk, which goes on at the next cursor and otherwise is complete |
| IngestSafety.RewalkGoesOnIff | src/bugalizer/ingest/poller.py:202-232 | after its forward walk a poll goes on with the re-walk in progress, at its cursor, or records the start of one that is due, or ends |
| IngestSafety.StoppedWalkKeepsItsCursor | src/bugalizer/ingest/poller.py:183-246 | the page cap and an exception leave both cursors and the re-walk as they are, and only the exception counts as a failure |
| IngestSafety.ObsoletePollWritesNothing | src/bugalizer/db.py:1885-1965 | once its generation is obsolete a poll imports nothing and writes no checkpoint, however it and everything else go on |
| IngestSafety.AppendOnlySourceHasNoGap | src/bugalizer/ingest/poller.py:183-199 | from a source that only appends, every mappable item at or before the stored cursor is imported |
| IngestSafety.ImportedTotalIsExact | src/bugalizer/db.py:1885-1965 | `imported_total` is the number of reports inserted since its state row was created |
| IngestSafety.StepKeeps | src/bugalizer/ingest/poller.py:183-326 | every fetch, commit, cap, crash, growth and configuration change keeps the invariant of both walks |
| IngestSafety.PageExists | tests/test_ingest.py:94-106 | every request has a page in the source's sense |
| IngestStore.MapPage | src/bugalizer/ingest/poller.py:166-174 | the loop keeps exactly the mappable items and counts the rest |
| IngestStore.Project.CommitRows | src/bugalizer/db.py:1885-1965 | the transaction is the machine's commit, None exactly when fenced, and returns the number inserted |
| IngestStore.Project.ForwardWalk | src/bugalizer/ingest/poller.py:183-199 | while the source grows and the configuration changes, the page loop is a run of the machine and keeps the invariant; it stops only at the walk's end, at the page cap, at an error of the server or at the fence; unless it was fenced, the stored cursor is none if the last answer rejected it and else the last page's; and at its end everything the source held when it began is imported, but what had been put in behind its cursor |
| IngestStore.Project.ReconcilingWalk | src/bugalizer/ingest/poller.py:213-246 | the same for the re-walk with the recording of its start: its own cursor is kept or dropped in the same way, it stays in progress unless it is complete, and the forward cursor stays; when it completes, everything the source held at that start is imported |
| IngestStore.Project.PollProject | src/bugalizer/ingest/poller.py:249-312 | a whole poll, credential or none, is a run of the machine, keeps the invariant and ends with no poll; a complete one has imported what the source held when it began, but late insertions |
| RetryBudget.AttemptsAreBounded | src/bugalizer/db.py:1522-1607 | for every localization the worker's attempts that reached the model are at most `max(1, limit)` besides those whose row a crash lost |
| RetryBudget.NoneAfterAPermanentFailure | src/bugalizer/db.py:1125-1155 | after a permanent failure the worker makes no further attempt for that localization, except one sampled or claimed before it |
| RetryBudget.CrashIsRecordedIff | src/bugalizer/db.py:847-896 | a crash in an attempt leaves a permanent failure, and the gate blocked, if the report was still in `fix_proposing`, and otherwise rows and gate as if there had been no attempt |
| RetryBudget.StaleSampleCallsTheModel | src/bugalizer/queue/worker.py:36-96 | a reachable state, for any limit and delay, in which the sampled exception happened |
| RetryBudget.LostAttemptsAreUnbounded | src/bugalizer/db.py:847-896 | reachable states with any number of lost attempts and no row, for any limit and delay |
| RetryBudget.FailedAttemptsAfter | src/bugalizer/db.py:1108-1122 | the loop returns exactly the failed rows newer than the reference, all of them without one |
| RetryBudget.IsBlocked | src/bugalizer/db.py:1125-1155 | the gate blocks exactly when there is a failure and one of them is permanent, or they are as many as the limit, or the newest completed at `t` with a positive delay and `now < t + delay` |
| RetryBudget.SampleTakesIff | src/bugalizer/db.py:1522-1607 | the worker takes a report if and only if it is triaged, current and localized without a proposal, and of the failures since that localization none is permanent, the newest is not within the delay, and they are fewer than the limit, if any |
| RetryBudget.SampledIsTriedIff | src/bugalizer/pipeline/fix_proposer.py:344-397 | what was sampled is tried if and only if the report is still triaged and localized without a proposal and the stage finds what it needs |
| RetryBudget.AttemptLeaves | src/bugalizer/pipeline/fix_proposer.py:437-515 | a failed attempt leaves one row the gate looks at, of its kind and time; a success a proposal and no such row; a deferral neither |
| RetryBudget.ResetClears | src/bugalizer/db.py:1683-1694 | a manual retry deletes exactly the failed rows |
| FixAnalysis.BothLookupsFindTheSameRun | src/bugalizer/sync/results.py:73-88 | over every interleaving and crash, the search and the query both return, for every proposal, the analysis its own run wrote |
| FixAnalysis.SearchFindsTheNewest | src/bugalizer/db.py:1507-1519 | on a newest-first list the search finds what the query selects |
| FixAnalysis.SearchAnalyses | src/bugalizer/sync/results.py:73-88 | the loop is the search |
| Clock.NextMicroIsNext | src/bugalizer/db.py:255-259 | one microsecond later, with every calendar carry, is the least later instant, and only the last instant has none |
| Clock.IsoOrder | src/bugalizer/db.py:244-261 | the ISO strings sort exactly as the instants do, fraction omitted or not |
| Clock.StampsIncrease | src/bugalizer/db.py:244-261 | for any readings the stamps' texts strictly increase |
| Clock.StampsKeepUp | src/bugalizer/db.py:244-261 | no stamp is before its reading, and stamps run out only at the end of time |
| Clock.StampIsLeast | src/bugalizer/db.py:244-261 | a stamp is the least instant that is not before its reading and after the last stamp |
| Clock.Source.Now | src/bugalizer/db.py:244-261 | each call's text sorts after the previous one's, or the overflow leaves the state alone |
| Duplicates.FindDuplicate | src/bugalizer/pipeline/validator.py:48-85 | returns the first of the best matches over the threshold that is not itself, a duplicate or rejected, and None exactly when there is none |
| Duplicates.BestMatchIsUnique | src/bugalizer/pipeline/validator.py:66-78 | that specification has one answer |
| Duplicates.NoCycles | src/bugalizer/pipeline/orchestrator.py:42-91 | links made in any processing order, with deletions and other status writes, have no cycle |
| Duplicates.ProcessedIsLinkedIff | src/bugalizer/pipeline/orchestrator.py:62-81 | processing links a report if and only if some other report that is no duplicate and not rejected matches it over the threshold, and then to the best of them; otherwise it is triaged |
| Duplicates.DeletedIsUnlinked | src/bugalizer/db.py:750-778 | a deletion drops the report's own link and no other |
| Duplicates.EveryReportHasARoot | src/bugalizer/pipeline/orchestrator.py:62-81 | following links from any report, one after the other, ends at a report that has none |
| Numstat.ParseInvertsPrintIff | src/bugalizer/git_ops/pull_request.py:241-256 | the parser yields every path of every record in order, both for a rename, if and only if no ordinary path holds a TAB |
| Numstat.ParseNumstatZ | src/bugalizer/git_ops/pull_request.py:241-256 | the index loop computes the parse |

## Left out

- HTTP, git, litellm and SQLite themselves: a remote is a small machine that commits, loses or refuses, and a transaction is one step.
- The wording of messages and step texts: an outcome message is modelled by what it says, and a report's free-text resolution reason not at all.
- Secrets, redaction, path and URL checks, API-key authentication, the dashboard, response models, usage aggregation, prompts, the repo map, schema migrations and the retry on a locked database: no state protocol.
- What the local stages (triage and localization) do inside: their tagged rows and their outcome are arbitrary.
- Model output parsing and similarity scoring: a model answer is valid or not, and a score is given.
- `close` and `set_mode` exactly once: the code runs them again after a crash by design.
- Two databases, a second process, a lost ledger of actions, and clock steps backwards across restarts.
- The order in which a tick lists actions and pushes results, the per-tick limits and the backoff of failing projects: the machines allow every order.
- The worker's endless loop: its sampling rule is the `Worker` part of `RetryBudget`, not a method.
- The PR state checks after a PR is recorded, and the status moves they make: to the results push what they write is an event.
- Removal of items from the ingest source: every claim about it is for a source that only grows.
- The steps between two awaits are one step, except where another thread or a crash can see between two writes.
- OpenPrResults.ClaimIsExclusive: a pipeline stage's unconditional status write can move a claimed report, as the code allows it; the claim's token survives it.
- Methods for the start of a task, its credential and the stage's own writes: they are steps of the machine only.
- TriageSync.Sync.EndPr: the call's answer is taken to fit what `TriageDecisions.OpenPrAnswersFit` proves of the open-pr machine's answers.
- IngestStore.Project.PollProject: an exception or a crash inside the poll, and several polls in a row, are runs of the machine only.
- OpenPrStore.Report.Checks: the configuration checks (GitHub token, slug, clone, branch name) are one given answer, since all they do is refuse.
