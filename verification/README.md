# Verified model of the incident workflow engine

This project models the message-handling core of a municipal incident service: a durable inbox, an incident
workflow with leases and answer versions, a durable outbox that resumes multi-part sends, deadlines in working
time, permanent retirement of storage keys, single-use draft screens, the queue panel and registration under a
quota. `dafny verify dfyconfig.toml` checks everything.

How the parts are built:

- **Step systems.** Each protocol is a state, a datatype of events and a function from state and event to state
  (`Workflow`, `Outbox`, `Inbox`, `FileRetirement`, `DraftScreens`, `PinnedPanel`, `Registration`). A database transaction is one
  event. A read made before a transaction is an event of its own, so what it saw may be stale. The messenger MAX,
  storage and the database connection are adversaries: a call may fail, take effect and lose its reply, or take
  effect late. An invariant is proved for every event, and the main results are lemmas about every run.
- **Services.** The code itself changes rows step by step, so next to each step system stands a class whose methods
  do that (`WorkflowService`, `OutboxService`, `InboxService`, `FileRetirementService`, `DraftService`,
  `PanelService`) and whose contracts give the whole new state as the step system's event. `WorkflowRows` and
  `WorkflowTransactions` hold the queries and the transactions that go over several rows; what the transactions do to
  each other is in `WorkflowLaws`, some of it as corollaries that unfold them.
- **One delivery, two models.** `DeliveryLink` runs the workflow and the outbox side by side, joined by the row of an
  answer's delivery; `DeliveryAgreement` proves that they agree in every joint run.
- **Arithmetic.** Deadlines are proved against `WorkingTime.Measure`, which counts working milliseconds one by one,
  and `WorkCalendar.ClosingsAfter`, which counts weekday closings. Time is integer milliseconds, Moscow a fixed UTC+3.

What turned out not to hold as the code and its comments intend; the code is modelled as it is, each time with a
lemma that names a failing sequence of events or input, and with the condition under which the promise is met:

- A photo repair does not look at the review lease, so it changes the status under a reviewer who holds a live
  lease (`StageProtection.RepairIgnoresTheReviewer`); nothing else does
  (`StageProtection.ReviewerOwnsTheStageExceptRepairs`).
- Nor do the repair's writes check what it had read: under READ COMMITTED an approval with its delivery, or a saved
  correction, may commit in between, and the writes then send a delivered answer back
  (`RepairRace.DeliveredMeanwhile`) or leave a waiting version in revision (`RepairRace.CorrectedMeanwhile`). They keep
  every promise exactly when nothing was delivered meanwhile and the version read is still the latest, or the later
  one was sent back too (`RepairRace.WritesAreSafeIff`); a guard on that would restore them over every run
  (`RepairRuns.StepKeepsIff`, `RepairRuns.DeliveredForeverUnderSplitRepairs`).
- A working-deadline notice that failed after an attempt is DEFERRED and is overtaken by later jobs
  (`OutboxGuarantees.FailedDeadlineIsOvertaken`), although the comment above `attemptInOrder` says that an actual
  failed send blocks a chat. An attempted job is overtaken exactly when it is DEFERRED to the future, and only such a
  notice ever is (`OutboxGuarantees.AttemptedIsOvertakenIff`).
- The lease check and the POST are not atomic: with two processes a stored part can be sent again
  (`OutboxGuarantees.TwoProcessesMayRepeat`), but not while the sender's lease runs (`OutboxGuarantees.LeasedPostIsNew`)
  and never in one process (`OutboxOneProcess.StoredPartsAreNeverResent`).
- `prepareRequesterSignature` counts on `lastError` as evidence of an earlier attempt, but `/delivery_retry` clears it,
  so a text that MAX has accepted can be replaced (`OutboxSignature.AcceptedTextIsReplaced`). It cannot while
  `/delivery_retry` is never used on a failed message without stored progress, which whoever uses it can see
  (`OutboxSignature.CheckedRetriesKeepTexts`).
- `splitText` does not end when the text is too long and the repeated heading fills a whole message
  (`MessagePlan.SplitDiverges`, `MessagePlan.SplitEndsIff`). No caller in the repository passes a label of that length.
- Rotation of deletion intents examines n of them within ceil(n / 100) sweeps while the sweep clock is ahead of the
  stamps, but a first sweep at the very millisecond of their stamps may cost one sweep more
  (`FileRotation.TieMissesTheBound`) and never more than that (`FileRotation.TiedFirstSweepCostsOne`);
  `FileRotation.SweepsSufficeIff` says exactly when the smaller number suffices.
- `saveDraftStep` compares the row it has just found, not the one its data came from; a stale copy brings back the
  buttons of a screen already used (`DraftScreensInvariant.StaleCopyResurrects`), exactly in the case of
  `DraftScreensInvariant.ResurrectsIff`. Its callers all run under the resident lock, which makes them safe while it
  lasts (`DraftScreensInvariant.LockedScreensAreSingleUse`); the case needs a handler that outlives the lock's two minutes.
- A panel edit that was given up can land after its panel was retired and left the list, and then shows buttons nobody
  looks for (`PinnedPanel.LateEditIsUnaccounted`). That is the only way (`PinnedPanel.AccountedIff`), and it is closed
  while no panel is retired for good after an edit of it was given up (`PinnedPanel.CautiousRunsAreAccounted`).

Requirements that come from outside the code: one process runs the inbox and the outbox (README.md:351-353), one
retention sweep runs at a time, one refresh runs per panel, the clock never goes back, and tokens, hashes and UUIDs never collide.

## Model

| member | source | states |
|---|---|---|
| WorkingTime.NextWorkingInstant | src/sla/working-time.ts:12-19 | the loop ends at the first working instant at or after the given one |
| WorkingTime.PolicyWorkingHours | src/sla/working-time.ts:20 | holds exactly at working instants |
| WorkingTime.AddWorkingHours | src/sla/working-time.ts:22-34 | for any finite non-negative number of hours the loop ends at the instant, truncated to a millisecond, at which exactly that much working time has passed; a negative or infinite number is refused |
| WorkingTime.WorkingMilliseconds | src/sla/working-time.ts:35-44 | the loop over days returns the number of working milliseconds in the interval, 0 for an empty one |
| WorkingTime.DueIsAdjoint | src/sla/working-time.ts:22-44 | the working time from a start to t reaches a duration exactly when t has reached the due instant |
| WorkingTime.FractionIsAdjoint | src/sla/working-time.ts:22-44 | the working time to t exceeds a duration of no whole number of milliseconds exactly when t is after the due instant, or, before 1970 where truncation rounds up, when t has reached it |
| WorkingTime.DueIsUnique | src/sla/working-time.ts:22-34 | there is only one due instant |
| WorkingTime.DueExists | src/sla/working-time.ts:22-34 | there is one for every start and duration |
| WorkingTime.DueLiesInAWindow | src/sla/working-time.ts:5-34 | it lies after the opening and no later than the closing of a weekday |
| WorkingTime.DueAtComposes | src/sla/working-time.ts:22-34 | adding x and then y is adding x + y |
| WorkingTime.DueIsMonotone | src/sla/working-time.ts:22-34 | a later start and a longer duration never give an earlier instant |
| WorkingTime.MeasureSplit | src/sla/working-time.ts:35-44 | working time is additive over adjacent intervals |
| WorkingTime.MeasureMonotone | src/sla/working-time.ts:35-44 | a part of an interval holds no more working time than the whole |
| WorkingTime.LateProjectWarning | src/sla/policy.ts:60 | the project deadline is later than the answer deadline exactly when more than two working hours passed from registration to assignment |
| WorkingTime.OverdueAtDelivery | src/sla/policy.ts:36-41 | working time has passed since the deadline exactly when more than 24 working hours passed since registration |
| WorkCalendar.IncidentWorkday | src/utils/work-calendar.ts:18-28 | the loops end on the n-th weekday whose closing is strictly after registration and return its opening and closing; only an ordinal below 1 is refused |
| WorkCalendar.NthClosingIsStrictlyIncreasing | src/utils/work-calendar.ts:18-28 | the n-th closing is unique, strictly increasing in n and later than registration |
| WorkCalendar.NthClosingIsMonotone | src/utils/work-calendar.ts:18-28 | registering later never gives an earlier deadline |
| WorkCalendar.NthDayIsNthClosing | src/utils/work-calendar.ts:18-28 | the closed week-arithmetic formula names the n-th closing |
| WorkCalendar.DeadlineIsClosedForm | src/utils/work-calendar.ts:18-28 | so the deadline the loops find is the formula's, whatever the registration |
| MessagePlan.SplitEndsIff | src/max/max-message.service.ts:1319-1334 | splitting ends exactly when the text fits one message or the heading leaves room for a character |
| MessagePlan.SplitDiverges | src/max/max-message.service.ts:1319-1334 | a text of 3801 characters under a label of 3798 is never split to the end |
| MessagePlan.SplitText | src/max/max-message.service.ts:1319-1334 | every part fits 3800 characters, every follow-up repeats the heading, only the last is short, and without headings the parts join to the text |
| MessagePlan.GroupAttachments | src/max/max-message.service.ts:1341-1350 | groups are non-empty, of one kind and at most four, as few as that allows, and list all images then all files in order |
| MessagePlan.PlanMessages | src/max/max-message.service.ts:308-336 | over the plan the text goes out once, every attachment once and in order, the keyboard once on the last text part, the reply link on the first message only, in as few messages as the parts and groups allow |
| WorkflowSafety.RunInv | src/answers/answer.service.ts:116-231 | every run keeps the whole invariant of stages, leases, answers, jobs, cycles and clocks, and only lets incidents evolve forward |
| Workflow.StepGood | src/review/review.service.ts:143-191 | every transaction on an incident, whatever it read before, keeps that incident's invariant and refuses only with a conflict |
| WorkflowGuarantees.OnlyItsIncident | src/incidents/incident.repository.ts:124-140 | an event changes at most its own incident, and only by committing its transaction |
| WorkflowGuarantees.EveryStepIsLegal | src/incidents/incident-state.service.ts:11-32 | in every run each status change is an edge of the table or a photo repair of an undelivered answer, and no step moves a live lease |
| WorkflowGuarantees.StagesAgree | src/sector/sector.service.ts:107-180 | IN_PROGRESS holds exactly with a sector reservation row; a group is missing exactly in DISTRIBUTION and REJECTED; claims live only in DISTRIBUTION, review leases only in WAITING_REVIEW; the responder is the reservation's holder |
| WorkflowGuarantees.LatestAnswerFollows | src/answers/answer.service.ts:116-231 | the latest answer's status follows the incident's, an approved version exists exactly in RESOLVED and is the latest, its review card is queued until it was sent and purged and its delivery until it was recorded |
| WorkflowGuarantees.DeliveredForever | src/max/max-message.service.ts:726-785 | once an answer's delivery is recorded it is the only one ever: the latest version, approved, with one receipt made out to the incident's requester, and no later event adds a version, changes the status or records a delivery again; a repair is one event here, split in two in `RepairRuns` |
| WorkflowGuarantees.TextsNeverChange | src/answers/answer.service.ts:112-160 | versions are 1..n and an old text never changes |
| WorkflowGuarantees.StaleReadsAreHarmless | src/review/review.service.ts:143-191 | a request that commits on a stale read does what it would have done on a fresh one |
| WorkflowGuarantees.SubmitSeesNoRedistribution | src/answers/answer.service.ts:128-159 | an answer is accepted only if the incident was not redistributed since it was read |
| WorkflowGuarantees.CycleErrorsAreUnreachable | src/sla/policy.ts:11-29 | neither SLA_ASSIGNMENT_CYCLE_STILL_OPEN nor SLA_ASSIGNMENT_CYCLE_MISSING can occur in any run |
| WorkflowGuarantees.CyclesAreDisjoint | src/sla/policy.ts:11-34 | assignment cycles are numbered 1..n without gaps and do not overlap in time |
| WorkflowGuarantees.OpenWhileAssigned | src/sla/policy.ts:11-41 | a cycle is open, the last one and for the current group, exactly while the incident is assigned and undelivered |
| WorkflowGuarantees.PreparedIsEarliest | src/sla/policy.ts:20-29 | a cycle's preparation mark is its earliest submission, with that submission's answer |
| WorkflowGuarantees.LateWarningMeans | src/sla/policy.ts:52-61 | in every run the card warns exactly when more than two working hours passed between registration and assignment |
| WorkflowGuarantees.OverdueMeans | src/sla/policy.ts:36-41 | in every run a delivered incident is overdue exactly when more than 24 working hours passed since registration |
| StageProtection.HolderOwnsTheStage | src/work-queues/leases.ts:20-28 | while a distribution claim or a sector reservation is live only its holder changes the status |
| StageProtection.ReviewerOwnsTheStageExceptRepairs | src/work-queues/state.ts:44-48 | under a reviewer's live lease somebody else's event changes the status exactly when the incident's own group asks to repair a lost photo of the latest answer |
| StageProtection.RepairIgnoresTheReviewer | src/answers/answer.service.ts:47-75 | a run in which a photo repair takes an incident out of review under a live lease |
| StageProtection.OneLeaseEach | src/distribution/distribution-queue.service.ts:29-64 | at every instant a dispatcher holds one live claim, a reviewer one live lease, and no lease ends more than 15 minutes ahead |
| StageProtection.HoldingNeverExtends | src/work-queues/work-queue.service.ts:57-81 | a stage held without interruption is held under the same lease, so never past the end first given to it |
| Workflow.ClaimComesFrom | src/distribution/distribution-queue.service.ts:29-64 | a new claim goes only to a dispatcher who holds no other and runs 15 minutes from now |
| Workflow.ReviewComesFrom | src/work-queues/work-queue.service.ts:57-81 | a new review lease goes only to a reviewer who holds no other and runs 15 minutes from now |
| WorkflowLaws.ClaimExcludes | src/distribution/distribution-queue.service.ts:29-64 | corollary of the transactions: a fresh claim shuts every other dispatcher out of claiming, assigning and rejecting for exactly 15 minutes and its owner never; nothing but the claim changes |
| WorkflowLaws.ReservationExcludes | src/work-queues/leases.ts:20-28 | corollary of the transactions: a fresh reservation shuts every other executor out of taking, returning and answering for exactly 15 minutes and out of releasing it for ever; its holder may do all of that, but not take it twice |
| WorkflowLaws.ReviewExcludes | src/work-queues/state.ts:44-48 | a fresh review lease shuts every other reviewer out of claiming and of both verdicts for exactly 15 minutes, and out of saving a correction for ever |
| WorkflowLaws.ReleaseUndoesTake | src/sector/sector.service.ts:107-148 | in every run releasing after taking restores the incident but for its responder, exactly unless it had been sent back with an empty reason |
| WorkflowLaws.SweepIsRelease | src/work-queues/work-queue.service.ts:171-182 | corollary of the transactions: each expiry sweep does what the holder's own release would have done, and the sector sweep only to the reservation it had seen |
| WorkflowLaws.StaleSweepIsRefused | src/work-queues/work-queue.service.ts:171-182 | corollary of the transactions: a sweep that saw one reservation leaves the next one alone |
| WorkflowLaws.DecidedOnce | src/distribution/distribution.service.ts:154-198 | corollary of the transactions: after one dispatcher's assignment or rejection every other is refused, whatever it had read |
| WorkflowLaws.OneAssignmentPerRound | src/sla/policy.ts:11-34 | in every run a working-hours incident was assigned once for each return, and once more while it is with a group |
| WorkflowLaws.AnsweredOnce | src/answers/answer.service.ts:146-175 | one accepted answer refuses every other submission of the stage, and its version is above all earlier ones, which stay |
| WorkflowLaws.JudgedOnce | src/review/review.service.ts:158-179 | one verdict or saved correction refuses every other verdict prepared for the same version |
| WorkflowLaws.CorrectionKeepsMedia | src/review/review.service.ts:51-80 | corollary of the transactions: a correction has the reviewed version's attachments and the next number, and the reviewed version stays as it is |
| WorkflowLaws.ApprovedIsDelivered | src/max/max-message.service.ts:726-785 | an approved answer's delivery, claimed and completed, is recorded for the requester; the attempt cannot end again and /resend changes nothing |
| WorkflowLaws.SupersededIsNeverSent | src/answers/answer.service.ts:61-65 | after a committed photo repair, whatever events follow, the superseded job is never being sent nor sent, a claim finds it FAILED for good, no attempt can complete, renew or fail it, and it goes only with a rejected incident |
| WorkflowLaws.ReturnedReadNeverAnswers | src/answers/answer.service.ts:159 | a request that read the incident before it was returned is never answered on, whatever happens in between |
| RepairRace.UndisturbedIsRepair | src/answers/answer.service.ts:47-75 | with nothing in between the repair's read and writes are its transaction |
| RepairRace.AnswerLockIsolates | src/work-queues/leases.ts:20-28 | while the answer lock is held nobody else touches an incident at the executor's stages, but for its jobs |
| RepairRace.WritesAreSafeIff | src/answers/answer.service.ts:47-75 | whatever commits between a repair's read and its writes, they keep the invariant and make a legal step exactly when nothing was delivered and the version read is still the latest, or the later one was sent back too |
| RepairRace.DeliveredMeanwhile | src/answers/answer.service.ts:66-70 | a run in which they send a delivered answer back |
| RepairRace.CorrectedMeanwhile | src/answers/answer.service.ts:66-70 | a run in which they leave a waiting version in an incident that is in revision |
| RepairRuns.StepKeepsIff | src/answers/answer.service.ts:47-75 | with repairs of any incidents between their read and their writes, an act keeps the whole invariant exactly when it is not a write that finds the incident delivered or the version it read replaced |
| RepairRuns.SafeRunInv | src/answers/answer.service.ts:47-75 | so a run in which every split write is safe keeps it throughout and only lets incidents evolve forward |
| RepairRuns.DeliveredForeverUnderSplitRepairs | src/max/max-message.service.ts:726-785 | and in such runs a recorded delivery is the only one ever, as with repairs in one step |
| WorkflowRows.LatestAnswer | src/answers/answer.service.ts:160-164 | the query by descending version returns the row above which no version is |
| WorkflowRows.UpdateAnswer | src/review/review.service.ts:176-179 | exactly the row with that id is rewritten |
| WorkflowRows.StartCycle | src/sla/policy.ts:11-18 | the next cycle is numbered after the latest, due 22 and 2 working hours after its start, and refused while one is open |
| WorkflowRows.FinishCycles | src/sla/policy.ts:31-34 | every open cycle, and no other, is ended |
| WorkflowRows.RecordSubmission | src/sla/policy.ts:20-29 | the first open cycle is marked unless it is already, the submission is logged, and a missing cycle is an error |
| WorkflowRows.RecordPolicyDelivery | src/sla/policy.ts:36-41 | delivery time and overdue mark are set and the open cycle is ended, for the working-hours policy only |
| WorkflowTransactions.AssignGroup | src/distribution/distribution.service.ts:154-198 | assignment conflicts exactly when the read or the row is out of distribution or somebody else holds the claim; otherwise a legal edge, the group, no claim, one more open cycle under the policy, and all else kept |
| WorkflowTransactions.RejectIncident | src/distribution/distribution.service.ts:230-306 | rejection ends in a status no edge leaves, with no job, no claim and every cycle ended, and keeps answers and log |
| WorkflowTransactions.ReturnIncident | src/sector/sector.service.ts:150-180 | redistribution is refused exactly at another stage or under another's reservation; otherwise nothing is held, no group, responder or open cycle is left, and answers, jobs and log are kept |
| WorkflowTransactions.SubmitAnswer | src/answers/answer.service.ts:116-231 | submission conflicts exactly when the stage, the reservation, the group or the redistributions say so; otherwise a version above all others with the stored attachments, its job queued beside the old ones, and one more logged submission |
| WorkflowTransactions.ReopenForPhotos | src/answers/answer.service.ts:47-75 | repair is refused unless asked in the chat of the incident's own group; it supersedes the one failed job named by its key, keeps every other, and sends back the one latest, undelivered version |
| WorkflowTransactions.ApproveAnswer | src/review/review.service.ts:143-191 | approval is refused exactly under another's lease, an unsaved correction or a version that is no longer the waiting latest; otherwise only that version changes and its delivery is queued beside the jobs there were |
| WorkflowTransactions.ReviseAnswer | src/review/review.service.ts:244-290 | revision is refused in the same cases; otherwise only the latest version changes and no job does |
| WorkflowTransactions.CorrectAnswer | src/review/review.service.ts:51-80 | a correction is saved only under the exact live lease it was started with, as one version above all others with the same attachments, and keeps stage and lease |
| WorkflowTransactions.CompleteAnswerJob | src/max/max-message.service.ts:726-785 | completion happens exactly for the attempt that owns the row; a receipt is written exactly for the current answer, and otherwise answers and cycles stay |
| WorkflowTransactions.ResendAnswer | src/max/max-message.service.ts:179-198 | /resend changes nothing but the failed, not superseded delivery of the current undelivered answer to the same requester |
| WorkflowService.Services.Register | src/incidents/incident.service.ts:203-221 | registration stores the deadline once: 24 working hours later, or the legacy one |
| WorkflowService.Services.Perform | src/incidents/incident.repository.ts:124-140 | whatever transaction runs on the stored rows, and however stale its read, every incident takes a legal step that keeps live leases and only evolves forward, other incidents stand still, and a refused one changes nothing |
| OutboxInvariant.RunInv | src/max/max-message.service.ts:285-351 | the outbox invariant holds in every run with any number of processes, lost replies, crashes and re-claims |
| OutboxInvariant.OwnerIsLatest | src/max/max-message.service.ts:337-346 | a write whose compare-and-swap matches comes from the row's latest claimer |
| OutboxGuarantees.StoredIdsAreAPrefix | src/max/max-message.service.ts:316-350 | stored ids are a prefix of the job's own plan, each acknowledged by MAX for that very part, text and recipient |
| OutboxGuarantees.NoProgressMismatch | src/max/max-message.service.ts:316-322 | no attempt finds a saved plan other than its own: DELIVERY_PROGRESS_MISMATCH is unreachable |
| OutboxGuarantees.SentIsComplete | src/max/max-message.service.ts:726-745 | a message is SENT only with every part of its plan acknowledged and stored |
| OutboxGuarantees.LostLeaseCannotWrite | src/max/max-message.service.ts:337-346 | a worker whose row was claimed again can neither store, complete, fail, put off nor cancel it |
| OutboxGuarantees.OneRowPerKey | src/max/max-message.service.ts:401-470 | in every run no two rows share a key, however often a message is queued |
| OutboxGuarantees.LeasedPostIsNew | src/max/max-message.service.ts:651-654 | with any number of processes a part posted within the worker's lease has no stored id yet |
| OutboxGuarantees.TwoProcessesMayRepeat | src/max/max-message.service.ts:651-654 | a run of two processes in which a stored part is sent again after the lease ran out |
| OutboxGuarantees.ClaimsAreInOrder | src/max/max-message.service.ts:487-516 | a claim goes ahead only if every earlier job to the recipient is finished, or put off to the future without an attempt or as DEFERRED; a message is never put off |
| OutboxGuarantees.PassedIff | src/max/max-message.service.ts:487-516 | when nothing else stands in its way, a claim passes an earlier job exactly when that one is finished or put off |
| OutboxGuarantees.AttemptedIsOvertakenIff | src/max/max-message.service.ts:487-516 | an earlier job that was attempted and is not finished is overtaken exactly when it is DEFERRED to the future, and only a working-deadline notice is ever DEFERRED |
| OutboxGuarantees.AcceptedPartBlocksLaterJobs | src/max/max-message.service.ts:285-300 | once MAX accepted a part of a message, no later job to that recipient is claimed before it is SENT, FAILED or CANCELLED |
| OutboxGuarantees.FailedDeadlineIsOvertaken | src/max/max-message.service.ts:690-713 | a run in which a failed working-deadline notice is overtaken by a later message |
| OutboxOneProcess.RunIsSolo | src/max/max-message.service.ts:271-300 | in one process each recipient has one attempt in memory, by the latest claim of its row |
| OutboxOneProcess.StoredPartsAreNeverResent | src/max/max-message.service.ts:316-350 | in one process no part with a stored id is ever sent again |
| OutboxOneProcess.OneLiveSendPerRecipient | src/max/max-message.service.ts:487-516 | in one process a recipient never has two sends under live leases |
| OutboxSignature.UpgradesAreUntouched | src/max/max-message.service.ts:209-240 | unless /delivery_retry erased the evidence, a text is upgraded only when MAX never accepted a part of that answer |
| OutboxSignature.ErasedEvidenceAllowsUpgrade | src/delivery/delivery-problem.service.ts:108-153 | after any /delivery_retry that erases it, the next claim lets the text be replaced |
| OutboxSignature.AcceptedTextIsReplaced | src/delivery/delivery-problem.service.ts:108-153 | a run that gets there: MAX accepts the only part, the reply is lost, the next attempt fails for good, the error is cleared, and the accepted text is replaced |
| OutboxSignature.CheckedRetriesKeepTexts | src/max/max-message.service.ts:209-240 | if /delivery_retry never clears a failed message without stored progress, no text of which MAX accepted a part is ever replaced |
| DeliveryAgreement.RunsKeepLink | src/max/max-message.service.ts:726-785 | however staff, sweeps, housekeeping and any number of outbox processes interleave, the workflow's job of a delivery and its outbox row agree in status, attempts, lock, target and supersession |
| DeliveryAgreement.DeliveredMeansAcknowledged | src/max/max-message.service.ts:726-785 | an answer recorded as delivered has every part of one plan of its row accepted and acknowledged by MAX, addressed to the incident's requester, also after the row was purged |
| DeliveryAgreement.QueuedDeliveryIsLinked | src/delivery/workflow-outbox.ts:128-143 | the agreement begins where an approval, or an answer of a group without review, queues the delivery |
| OutboxService.MessageService.Enqueue | src/max/max-message.service.ts:401-470 | a row whose key is there already is returned unchanged; a new one gets the next sequence, is due at once, and every other row stays |
| OutboxService.MessageService.Attempt | src/max/max-message.service.ts:487-606 | the predecessor check and claim in place, with hold, skip and refusal right after it; a worker that got the row owns it under a new lock and one more attempt, and no other row changes |
| OutboxService.MessageService.StoreProgress | src/max/max-message.service.ts:333-347 | one acknowledged id is stored and the lease renewed only while the row is exactly as the worker knows it; no other row changes |
| OutboxService.MessageService.DeliverLogical | src/max/max-message.service.ts:302-351 | an undisturbed attempt sends the parts after the stored prefix in plan order, each once, stores each acknowledged id and stops at the first failure |
| OutboxService.MessageService.Deliver | src/max/max-message.service.ts:640-726 | it ends SENT exactly when every missing part was acknowledged; otherwise the prefix is kept and the job waits, or fails after its twelfth attempt |
| InboxInvariant.RunInv | src/server/update-dispatcher.ts:87-285 | the inbox invariant holds in every run with failed reads, lost and late claims, failed writes, restarts and purges |
| InboxGuarantees.DispatchedAtMostOnceInOrder | src/server/update-dispatcher.ts:189-285 | each row reaches business code at most once, and a lane's rows in their order |
| InboxGuarantees.OnlyUndispatchedReturn | src/server/update-dispatcher.ts:263-285 | only an attempt that never began dispatch returns its row to PENDING, and never after a third claim |
| InboxGuarantees.DispatchedNeverPends | src/server/update-dispatcher.ts:189-261 | a dispatched row is never pending again |
| InboxGuarantees.ClaimedAtMostThreeTimes | src/server/update-dispatcher.ts:263-272 | a row is claimed at most three times in its life |
| InboxGuarantees.OneProcessingPerLane | src/server/update-dispatcher.ts:151-208 | at most one row of a lane is being processed |
| InboxGuarantees.EligibleStaysFirst | src/server/update-dispatcher.ts:195-208 | once all earlier rows of a lane are settled they stay settled, so eligibility read before the claim still holds when it arrives |
| InboxGuarantees.OneRowPerUpdate | src/server/update-dispatcher.ts:56-84 | no two rows share an update key |
| InboxService.UpdateDispatcher.ReserveNow | src/server/update-dispatcher.ts:56-84 | an update is stored as a new row unless its key is known |
| InboxService.UpdateDispatcher.SettleFailures | src/server/update-dispatcher.ts:263-285 | every remembered failure settles its own row by token, and no other row changes |
| InboxService.UpdateDispatcher.ProcessClaimed | src/server/update-dispatcher.ts:189-261 | an attempt whose writes arrive claims an eligible row once, calls business code at most once and leaves it done, failed, or back in the queue if it could not be read |
| FileRetirement.RunInv | src/retention/file-deletions.ts:34-121 | fences, references, budgets and calls keep their invariant in every run |
| FileRetirement.NoReferenceToRemoved | src/retention/file-deletions.ts:62-96 | no record ever refers to an object that is removed or whose removal may still finish |
| FileRetirement.FencedForever | src/retention/file-deletions.ts:19-22 | a fenced key stays fenced and is never referred to again |
| FileRetirement.ThreeCallsPerIntent | src/retention/file-deletions.ts:58-62 | each deletion intent costs at most three removal calls, across crashes and failed writes |
| FileRotation.RotationExaminesAll | src/retention/file-deletions.ts:33-49 | while the sweep clock is ahead of the stamps, n intents are all examined within ceil(n / 100) sweeps |
| FileRotation.ExaminedByRank | src/retention/file-deletions.ts:33-49 | more exactly, an intent is examined within m sweeps exactly when fewer than 100 m come before it, whatever is queued or removed meanwhile |
| FileRotation.TiedFirstSweepCostsOne | src/retention/file-deletions.ts:33-49 | whatever the stamps at the first sweep, if the later ones come after all stamps it left, 1 + ceil(r / 100) sweeps examine all, r the intents after the first |
| FileRotation.SweepsSufficeIff | src/retention/file-deletions.ts:33-49 | a smaller number of sweeps suffices exactly when every intent the first sweep did not take ranks low enough among those it left |
| FileRotation.TieMissesTheBound | src/retention/file-deletions.ts:33-49 | of 101 intents stamped at the millisecond of the first sweep the last is missed by two sweeps and found by the third |
| FileRotation.FailedStampsCostOneEach | src/retention/file-deletions.ts:33-49 | sweeps of any sizes, stopped early or not, have examined all intents once their sizes add up to the intents and the stamps that could not be written |
| FileRotation.WholeSweepsWithFailedStamps | src/retention/file-deletions.ts:33-49 | so n intents and f failed stamps take at most ceil((n + f) / 100) whole sweeps |
| FileRetirementService.Retention.ExamineFile | src/retention/file-deletions.ts:46-62 | the budget is counted and saved before any work, and an exhausted or waiting file is skipped |
| FileRetirementService.Retention.FenceFile | src/retention/file-deletions.ts:63-91 | the key is fenced only if nothing refers to it |
| FileRetirementService.Retention.DrainFileDeletions | src/retention/file-deletions.ts:34-121 | the loop treats each file as its events do and keeps the invariant; one that cannot be read or whose record is damaged is marked for review, and a damaged state is left as it is |
| DraftScreensInvariant.OneIncidentPerDraft | src/incidents/incident.service.ts:174-186 | a draft becomes at most one incident and is never brought back |
| DraftScreensInvariant.IncidentsWerePreviewed | src/bot/draft-screen-delivery.ts:139-163 | an incident carries exactly the content of a preview that was acknowledged as shown |
| DraftScreensInvariant.ResurrectsIff | src/bot/draft-screen.ts:64-70 | saving a step makes a used screen's buttons work again exactly when the saved copy still has buttons of a used screen |
| DraftScreensInvariant.OneButtonPerScreen | src/bot/draft-screen.ts:40-61 | apart from that, a screen token executes at most one button in every run |
| DraftScreensInvariant.ResurrectedButtonRunsAgain | src/bot/draft-screen.ts:64-70 | in that case the next press executes a second button of the screen |
| DraftScreensInvariant.StaleCopyResurrects | src/bot/draft-screen.ts:64-70 | a run that reaches that case |
| DraftScreensInvariant.LockedScreensAreSingleUse | src/bot/draft-screen.ts:30-38 | handlers that keep the resident lock from read to save never reach it |
| DraftService.ResidentDrafts.ReplaceCurrent | src/sessions/operator-session.service.ts:131-139 | the session is replaced only if it is still the value that was read |
| DraftService.ResidentDrafts.ClearCurrent | src/sessions/operator-session.service.ts:141-147 | the session is deleted only if it is still the value that was read |
| DraftService.ResidentDrafts.ConsumeDraftButton | src/bot/draft-screen.ts:40-61 | a press gives up the screen's buttons before its action runs, and is refused for another screen, a used one or an unshown preview |
| DraftService.ResidentDrafts.SaveDraftStepOf | src/bot/draft-screen.ts:64-70 | the copy replaces the row found anew if the draft token matches |
| DraftService.ResidentDrafts.ShowIncidentDraftPreview | src/bot/requester-draft.ts:69-131 | a preview gets a fresh token, its own buttons and a pending mark in one swap |
| DraftService.ResidentDrafts.CreateFromDraft | src/incidents/incident.service.ts:174-186 | the incident consumes the session whose confirmed, shown preview it names |
| DraftService.ResidentDrafts.DeliverSavedScreen | src/bot/draft-screen-delivery.ts:113-163 | a delivery that nobody overtakes ends acknowledged exactly when the awaited screen was shown, and only then makes a preview confirmable; a failed one keeps its job with one more attempt counted |
| PinnedPanel.RunInv | src/max/pinned-panel.service.ts:41-127 | intent, identity and retire list keep their invariant through crashes, lost replies and delayed history |
| PinnedPanel.ButtonsAreAccountedFor | src/max/pinned-panel.service.ts:64-126 | a message carries panel buttons only if it is the committed panel or is listed for retirement, unless an edit given up earlier lands after its panel was retired |
| PinnedPanel.AccountedIff | src/max/pinned-panel.service.ts:64-126 | such a landing is the only step that ever breaks this |
| PinnedPanel.CautiousRunsAreAccounted | src/max/pinned-panel.service.ts:110-126 | it holds in every run in which no panel is retired for good after an edit of it was given up |
| PinnedPanel.LateEditIsUnaccounted | src/max/pinned-panel.service.ts:110-126 | a run in which a late edit leaves buttons nobody looks for |
| PinnedPanel.OnePostPerIntent | src/max/pinned-panel.service.ts:75-94 | no intent is posted twice |
| PinnedPanel.PostNeedsStoredIntent | src/max/pinned-panel.service.ts:85-90 | a POST happens only under the intent stored at that moment, which was never posted before |
| PinnedPanel.NothingSentWhileOutstanding | src/max/pinned-panel.service.ts:75-79 | once an intent's POST was sent or lost, nothing is sent while the intent is outstanding |
| PanelHistory.FindPanels | src/max/pinned-panel.service.ts:129-145 | the page loop returns only own panels and all of those in its window; a full first page is never taken for the whole history |
| PanelService.PinnedPanels.Reconcile | src/max/pinned-panel.service.ts:64-105 | the found panel is committed with the end of the intent and the list of those it replaces |
| PanelService.PinnedPanels.IntendNewPanel | src/max/pinned-panel.service.ts:75-88 | a new intent is stored only with nothing found, none open and the loss confirmed |
| PanelService.PinnedPanels.RetireAll | src/max/pinned-panel.service.ts:115-126 | after the loop no replaced panel in the chat has buttons |
| Registration.QuotaHolds | src/incidents/incident.service.ts:176-195 | however the statements of parallel submissions interleave, no requester registers more than the limit on a day |
| Registration.NumbersAreConsecutive | src/incidents/incident.repository.ts:27-44 | public numbers are 1, 2, 3, ... in order of registration, unique and at most six digits |
| Registration.CommitInv | src/incidents/incident.service.ts:176-238 | a registration leaves every other running transaction's count and number valid |

## Left out

- Interleavings inside one database transaction: a transaction is one step, because its advisory locks and guarded updates make it one (`RepairRace.AnswerLockIsolates` for the executor's stages). The exceptions are modelled statement by statement: registration (`Registration`) and the unguarded photo repair (`RepairRace`, `RepairRuns`).
- Retry delays and the alert schedule: a failed attempt may come back after any delay.
- The delays between the delivery attempts of one draft screen, and the retirement of old screens.
- Scrubbing of phone data from inbox rows.
- Roles, permissions, chat bindings, text validation, privacy screening and bans; the requester's rating, except that it releases the invitation.
- Card texts, keyboards, notification cards, refresh jobs and status messages; clarifications; topic changes; the rejection draft session.
- Retention and cleanup of incidents, and non-durable delivery (immediate previews), except that a sent job may be purged and an outbox or inbox row may disappear.
- MAX uploads, storage contents, HTTP and rate limits.
- Panel and other re-armed outbox jobs: their POST is the subject of `PinnedPanel`, not of `Outbox`.
- Out-of-order commits of two reservations of one lane, which `reserve` serializes in memory.
- Configurable time zones and daylight saving; JavaScript's date range, invalid dates and the rounding of its numbers.
