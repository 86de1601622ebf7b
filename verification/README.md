# Verified model of the mailing service's engines

The service sends campaigns and warmups through mail connections, numbers documents, keeps
companies and their members, and runs a board of agents that work on tasks. This project models
the parts of it that hold state over time or compute on graphs, and proves what they promise:

- **Sender warmup** (`DayPlanner`, `MessageSchedule`, `WarmupModel`, `WarmupProofs`,
  `WarmupPromises`, `WarmupEffects`, `WarmupEngine`): one program with its recipients and
  letters. A step is one database transaction with the queue calls that follow it; sending,
  answers that get lost, crashes, pauses, stops, cancellations that fail, provider reports and
  day planning interleave in any order. `WarmupEngine.Engine` changes the tables in place; each
  of its methods is one step of the model, and it remembers the run it made, so every theorem
  about runs is a theorem about it.
- **Board dispatcher** (`BoardModel`, `BoardProofs`, `BoardDispatcher`): rows of one run,
  a slot limit, a queue, resume priority, bounded review cycles, and logs that are read again
  in every round.
- **Document numbers** (`DocumentNumbers`): any number of callers that interleave statement by
  statement under a row lock, with conflicts, retries and refused statements.
- **Email chains** (`EmailChain`, `ChainPreview`, `ChainCycles`): the normal form, the
  publication check, the preview order and the reported cycles of a graph of letters and links.
- **Migration guard** (`MigrationGuard`), **batch sending** (`BatchSender`) and **company
  access** (`CompanyAccess`).

The database, the network, clocks, agents and random draws are inputs: an event, a parameter or
an oracle value that can be anything the outside may do.

## What the code does not keep

Where a promise fails, the model follows the code; a lemma gives the failing case and another
one says exactly when the promise holds.

- A warmup letter can leave twice. A send that fails although the provider took the message is
  tried again, and so is a letter whose worker crashed mid-send when cancelling its queue entry
  fails (`WarmupPromises.SlipIsSentAgain`, `LostCancellationIsSentAgain`; a whole run is in
  `LettersCanLeaveTwice`). It becomes accepted at most once all the same
  (`WarmupPromises.AcceptedAtMostOnce`), its messages are at most one more than such failures
  (`MessagesAreBounded`). The service cannot see whether a failed or crashed send left. Whatever
  became of those messages, no letter of a run leaves twice, nor could next, if and only if no
  worker goes on to the network with a letter that has a failed send behind it, or a crash
  mid-send and a pause or stop that came mid-send (`LeavesOnceUnlessTriedAgain`).
- A warmup day can stay open for ever. A letter stalls when its queue entry is used up or
  cancelled where only another try could have moved it on: by the failure of a first send, by a
  crash mid-send, or by crashes before the worker looked at it; every outstanding letter has a
  way on if and only if none of the three happens (`WarmupPromises.LettersMoveUnlessStalled`).
  A stalled letter is freed exactly by a stop, or by a pause unless it waits for a retry
  (`StalledStaysIff`), and until then its day does not end (`StalledHoldsTheDay`).
- A warmup day can be left without having been planned. The step to the next day compares only
  the number of the day, so a worker of an earlier run can take it
  (src/campaigns/connection_sender_warmup_service.py:1337-1349). It happens exactly when such a
  worker asks for the day after its own while today has the same number and no letter yet
  (`WarmupPromises.DayIsSkippedIff`, `OldLetterSkipsDay`); a whole run can end that way
  (`RunCanBeSkipped`).
- The board's slot limit can be exceeded. A review agent that crashed leaves its row to be
  reworked; when the dispatcher stops before the rework starts, the next round takes the
  review's log for an implementation and fails the row, and the round after that takes it for
  a review again and puts the row back to work, whether or not a slot is free
  (`BoardProofs.SlotsCanOverflow`). The limit holds exactly as long as no failed row is revived
  while all slots are taken (`BoardProofs.SlotsHoldUnlessRevived`), and it does so in every run
  that starts the rework before reading that log again (`BoardProofs.PromptReworkKeepsSlots`).
- A review cycle can be spent without an agent having worked: exactly by reading a bad review's
  log again in a row that is under review, failed or blocked
  (`BoardProofs.CyclesAreWastedIff`). Two rounds before a rework starts are enough
  (`BoardProofs.StaleReviewSpendsACycle`).
- A row that was answered but got no slot in the same round always goes back to waiting, and
  exactly a further answer makes it ready again (`BoardProofs.ReadyFallsBack`).
- A conflict in document numbering can end the call with an exception although its key has a
  number: the call goes on to a second attempt, which then succeeds, if and only if its session
  closes quietly after the failed insert (`DocumentNumbers.ConflictRetriesIff`). The session
  scope commits at that point (src/infra/db.py:31-40), which SQLAlchemy may refuse.
- A connection's limits count only sends that were acknowledged and could be recorded: other
  messages that left come on top (`BatchSender.UncountedSendsPassTheLimit`), by exactly their
  number (`BatchSender.CountersAddUp`). The messages of a connection stay within a limit if and
  only if none leaves while the counted and the uncounted ones make it up
  (`BatchSender.MessagesWithinLimitIff`). The loop cannot see whether a failed call delivered its
  message. Whatever became of those, the limit holds if and only if nothing goes to the network
  while the counted sends and the calls that failed uncounted make it up
  (`BatchSender.LimitIsSureIff`). The hourly counter is never reset within a batch, so both
  limits act as one limit for the batch.
- A reported cycle of a chain need not be one: the report is wrong exactly when the reachable
  blocks have no cycle and two edges between them come together; no reachable cycle is missed
  (`ChainCycles.WrongReportIff`, `ChainCycles.AcyclicChainIsReported`).
- The migration guard can refuse a present revision. With a single head it accepts every
  present one if and only if every cycle starts at a revision that the head descends to; an
  acyclic graph is one case, a cycle below the head another
  (`MigrationGuard.SingleHeadReachesAllIff`, `LoopBesideTheHead`, `LoopBelowTheHead`).
- Letters can be scheduled after the end of the daily window. They stay inside, for every number
  of letters and every draw, if and only if at least a minute of the window is left after the
  adjusted start, which during the window is a minute from now
  (`MessageSchedule.InsideIffMinuteLeft`): planning less than two minutes before the end can
  overrun it (`TwoMinutesToPlan`), in the last minute every letter does
  (`LastMinuteStartRunsPastTheEnd`).
- Replacing a user's grants by hand can leave a company administrator without a company, or an
  administrator's membership without its grant; it does not if and only if the new grants give
  the manage level where role and membership need it (`CompanyAccess.ReplaceKeepsInvIff`).

## Model

| member | source | states |
|---|---|---|
| `DayPlanner.GrowthFillsGaps` | src/campaigns/connection_sender_warmup_service.py:1282-1310 | a growth plan gives every missing number of 1..target exactly one letter, in increasing order, number s to recipient (s-1) mod n |
| `DayPlanner.AssignNumbers` | src/campaigns/connection_sender_warmup_service.py:1292-1310 | the numbering loop gives the i-th listed recipient the i-th free number from the start on, skipping no free one |
| `DayPlanner.ListMissing` | src/campaigns/connection_sender_warmup_service.py:1283-1287 | the recipients listed for the missing numbers, in their order |
| `DayPlanner.PlanGrowth` | src/campaigns/connection_sender_warmup_service.py:1282-1310 | the two separate loops over recipients and numbers together produce the one-pass growth plan |
| `DayPlanner.GrowthReplanIsEmpty` | src/campaigns/connection_sender_warmup_service.py:1283-1291 | planning a growth day again, for whatever recipients, creates nothing |
| `DayPlanner.GrowthIsBalanced` | src/campaigns/connection_sender_warmup_service.py:1283-1287 | from an empty day the loads of two recipients differ by at most one |
| `DayPlanner.GrowthLoad` | src/campaigns/connection_sender_warmup_service.py:1283-1287 | from an empty day recipient i gets target / n letters, and one more if i is below the remainder |
| `DayPlanner.FixedMeetsQuota` | src/campaigns/connection_sender_warmup_service.py:1270-1280 | after fixed planning an active recipient has max(quota, already planned) letters, nobody else gets any |
| `DayPlanner.FixedDayCreatesTotal` | src/campaigns/connection_sender_warmup_service.py:238-248 | from an empty day fixed planning creates exactly the total that the fixed daily plan promises |
| `DayPlanner.FixedReplanIsEmpty` | src/campaigns/connection_sender_warmup_service.py:1270-1280 | fixed planning creates nothing if and only if every recipient has its quota |
| `DayPlanner.FixedTwiceIsOnce` | src/campaigns/connection_sender_warmup_service.py:1270-1280 | planning a fixed day a second time with the same quotas creates nothing |
| `DayPlanner.FixedIsDealtInRounds` | src/campaigns/connection_sender_warmup_service.py:1270-1280 | a fixed plan deals exactly the letters still due, round by round and in the order of the recipients within a round |
| `DayPlanner.FixedNumbersAreFresh` | src/campaigns/connection_sender_warmup_service.py:1281-1310 | a fixed plan numbers its letters one after the other from the first number above every used one, so it reuses none and repeats none |
| `DayPlanner.PlanFixed` | src/campaigns/connection_sender_warmup_service.py:1270-1310 | the nested loops over rounds and recipients and the numbering loop produce the fixed plan |
| `MessageSchedule.LettersKeepApart` | src/campaigns/connection_sender_warmup_service.py:803-829 | times increase strictly, consecutive letters keep at least 0.7 of the spacing |
| `MessageSchedule.LettersLieAhead` | src/campaigns/connection_sender_warmup_service.py:810-829 | every letter is scheduled in the future |
| `MessageSchedule.LettersRespectWindow` | src/campaigns/connection_sender_warmup_service.py:810-829 | letters stay inside the window when a minute of it is left after the adjusted start, and never pass its end by two minutes |
| `MessageSchedule.LettersGoIntoTheNextWindow` | src/campaigns/connection_sender_warmup_service.py:810-829 | letters go into today's window before it and during it, at least a minute from now, and into tomorrow's after it |
| `MessageSchedule.LettersAreEven` | src/campaigns/connection_sender_warmup_service.py:820-829 | apart from its own draw, letter i lies exactly i + 1 of n + 1 equal parts after the start |
| `MessageSchedule.InsideIffMinuteLeft` | src/campaigns/connection_sender_warmup_service.py:810-829 | all letters stay inside, for every count and every draw, if and only if at least a minute of the window is left after the adjusted start |
| `MessageSchedule.TwoMinutesToPlan` | src/campaigns/connection_sender_warmup_service.py:817-820 | planned during the window: if and only if at least two minutes of it are left |
| `MessageSchedule.LastMinuteStartRunsPastTheEnd` | src/campaigns/connection_sender_warmup_service.py:816-819 | with a minute or less left when planning starts, every letter passes the end |
| `WarmupProofs.StepKeepsInv` | src/campaigns/connection_sender_warmup_service.py:986-1694 | every step of every kind keeps the warmup's invariant: letters, counts, numbers and health |
| `WarmupPromises.AcceptedAtMostOnce` | src/campaigns/connection_sender_warmup_service.py:1375-1567 | in every run a letter becomes accepted at most once, whatever crashes, pauses, retries and lost answers come in between; it has a provider id exactly in the accepted statuses; at most two sends fail, plus one for each time it was put back to paused |
| `WarmupPromises.MessagesAreBounded` | src/campaigns/connection_sender_warmup_service.py:1497-1566 | the messages of a letter that left number at most one, plus one for each send that failed after its message had left, plus one for each cancellation that failed |
| `WarmupPromises.LeavesOnceUnlessTriedAgain` | src/campaigns/connection_sender_warmup_service.py:1392-1480 | whatever became of the messages behind failed and crashed sends, no letter of a run leaves twice, nor could with any next step, if and only if no worker goes on to the network with a letter that has a failed send behind it, or both a crash mid-send and a pause or stop mid-send |
| `WarmupPromises.RepeatNeedsACause` | src/campaigns/connection_sender_warmup_service.py:976-983 | a letter about to be sent again after it left has had a send that failed after leaving or a cancellation that failed; without either it leaves at most once |
| `WarmupPromises.SlipIsRetriedIff` | src/campaigns/connection_sender_warmup_service.py:1527-1566 | a send that failed although its message left is tried again exactly when it was not the retry, was not cancelled and a try is left |
| `WarmupPromises.SlipIsSentAgain` | src/campaigns/connection_sender_warmup_service.py:1527-1566 | then, in a running program with an active recipient, the message leaves a second time |
| `WarmupPromises.LostCancellationIsSentAgain` | src/campaigns/connection_sender_warmup_service.py:976-1012 | a letter left in sending by a crash is not sent again, but it is when a pause comes and cancelling its queue entry fails |
| `WarmupPromises.LettersCanLeaveTwice` | src/campaigns/connection_sender_warmup_service.py:1497-1566 | a run from a new program in which the one letter leaves twice |
| `WarmupPromises.SentForEver` | src/campaigns/connection_sender_warmup_service.py:1392-1393 | once accepted, a letter never leaves the accepted statuses and keeps its recipient and provider id |
| `WarmupPromises.CountsAreConserved` | src/campaigns/connection_sender_warmup_service.py:1541-1567 | in every state a recipient's sent count is the number of letters of all runs that point to it and were sent, despite replacement, pauses and stops mid-send |
| `WarmupPromises.RunningMeansHealthy` | src/campaigns/connection_sender_warmup_service.py:1665-1694 | a running program not restarted from pause within its run has no complaint, at most two soft bounces, and no hard bounce or fewer than five in a hundred sent letters |
| `WarmupPromises.DaysNeverGoBack` | src/campaigns/connection_sender_warmup_service.py:1050-1054 | run number and day never decrease, in that order |
| `WarmupPromises.DayIsLeftWhenDone` | src/campaigns/connection_sender_warmup_service.py:1337-1372 | any day of a run is left only for the next one, and only when none of its letters is queued, paused, being sent or awaiting a retry |
| `WarmupEffects.DayIsLeftIffDone` | src/campaigns/connection_sender_warmup_service.py:1345-1366 | when a worker asks for the day after the running program's day, it is left if and only if none of its letters is pending; the program is then completed if the plan ends there, and otherwise runs on |
| `WarmupEffects.ProgramMovesIff` | src/campaigns/connection_sender_warmup_service.py:1015-1372 | through every run the program enters each status, a new run and another day exactly by the named events: a pause, for instance, by request, for want of recipients, or by a report over a threshold |
| `WarmupEffects.LettersMoveIff` | src/campaigns/connection_sender_warmup_service.py:986-1703 | through every run a letter enters each of its statuses exactly by the named events, and changes its recipient only when it goes out in place of an inactive one |
| `WarmupEffects.NewLettersArePlanned` | src/campaigns/connection_sender_warmup_service.py:1233-1326 | through every run a letter appears only by planning: for today, under a free number, and for an active recipient, in growth plans dealt in turn with the least served first |
| `WarmupEffects.ReplacementIsLeastServed` | src/campaigns/connection_sender_warmup_service.py:1420-1470 | through every run a letter that goes out to somebody else goes to an active recipient to whom the fewest messages were sent |
| `WarmupEffects.TasksMoveIff` | src/campaigns/connection_sender_warmup_service.py:976-1494 | through every run a letter gets, uses, keeps and loses its queue entry, and its row the note of it, exactly by the named events |
| `WarmupEffects.RecipientsMoveIff` | src/campaigns/connection_sender_warmup_service.py:511-1703 | through every run a recipient is credited, blamed, disabled and edited exactly by the named events, and appears only by being added |
| `WarmupPromises.PlannedDayHasLetters` | src/campaigns/connection_sender_warmup_service.py:1208-1334 | a planning step that plans letters never leaves the day without one, so its own call for the next day skips nothing |
| `WarmupPromises.DayIsSkippedIff` | src/campaigns/connection_sender_warmup_service.py:1337-1357 | through every run a day of a run is left without letters if and only if a worker of an earlier run asks for the day after its own, today has the same number and no letter yet, and the program is running |
| `WarmupPromises.OldLetterSkipsDay` | src/campaigns/connection_sender_warmup_service.py:1337-1357 | a letter of an earlier run with the number of an unplanned day is enough to move the day on |
| `WarmupPromises.RunCanBeSkipped` | src/campaigns/connection_sender_warmup_service.py:1337-1372 | a reachable state in which the second run is completed without ever having had a letter |
| `WarmupPromises.ClosedDaysStayClosed` | src/campaigns/connection_sender_warmup_service.py:1337-1372 | a letter of an earlier day of the run is outstanding only if a pause or stop came mid-send |
| `WarmupPromises.NumbersAreUnique` | src/campaigns/connection_sender_warmup_service.py:1292-1310 | in every state no two letters of a run's day share a sequence number |
| `WarmupPromises.PlannedDay` | src/campaigns/connection_sender_warmup_service.py:1292-1326 | planning adds exactly the planned numbers to the day, enqueuing changes none |
| `WarmupPromises.GrowthDayIsFull` | src/campaigns/connection_sender_warmup_service.py:1282-1326 | after a growth planning step every number up to the target has its letter and another planning step adds none |
| `WarmupPromises.FixedDayMeetsQuotas` | src/campaigns/connection_sender_warmup_service.py:1270-1326 | after a fixed planning step each active recipient has max(quota, what it had) letters of the day, others what they had |
| `WarmupPromises.FixedDayIsFull` | src/campaigns/connection_sender_warmup_service.py:1270-1326 | another fixed planning step with the same recipients and quotas adds none |
| `WarmupPromises.LettersMoveUnlessStalled` | src/campaigns/connection_sender_warmup_service.py:1375-1567 | through a run every outstanding letter has a queue entry or is picked up by planning, if and only if no failed first send, no crash mid-send and no crash before the worker looked at it uses up or loses the entry |
| `WarmupPromises.StalledStaysIff` | src/campaigns/connection_sender_warmup_service.py:986-1012 | a stalled letter stays exactly as it is until a stop, or a pause unless it waits for a retry |
| `WarmupPromises.StalledHoldsTheDay` | src/campaigns/connection_sender_warmup_service.py:1345-1356 | a stalled letter keeps its day from ending, through every run in which it is not freed and no new run begins |
| `WarmupPromises.PauseMidSendLosesRetry` | src/campaigns/connection_sender_warmup_service.py:993-1012 | one way to stall: a pause mid-send that cancels the queue entry, followed by the failure of the first send |
| `WarmupEngine.Engine.PauseLocked` | src/campaigns/connection_sender_warmup_service.py:986-1012 | queued letters become paused, one being sent unknown, others stay; returned are exactly the queue entries to cancel |
| `WarmupEngine.Engine.CancelTasks` | src/campaigns/connection_sender_warmup_service.py:976-983 | a waiting entry is dropped, a running one is marked; where the request raises the entry stays and the service goes on |
| `WarmupEngine.Engine.Pause` | src/campaigns/connection_sender_warmup_service.py:1083-1097 | the pause step, refused unless running |
| `WarmupEngine.Engine.Start` | src/campaigns/connection_sender_warmup_service.py:1015-1081 | the start step: a new run from completed or cancelled, refused without an active recipient |
| `WarmupEngine.Engine.Resume` | src/campaigns/connection_sender_warmup_service.py:1100-1135 | the resume step, refused unless paused |
| `WarmupEngine.Engine.Stop` | src/campaigns/connection_sender_warmup_service.py:1138-1171 | the stop step: outstanding letters are cancelled, one being sent becomes unknown |
| `WarmupEngine.Engine.ChooseSlots` | src/campaigns/connection_sender_warmup_service.py:1265-1291 | the day's existing letters, counted from the table, and the mode's planner give the specified slots |
| `WarmupEngine.Engine.EnqueueDay` | src/campaigns/connection_sender_warmup_service.py:1312-1326 | paused letters and queued ones without a recorded entry are enqueued, each with one queue entry |
| `WarmupEngine.Engine.PlanDay` | src/campaigns/connection_sender_warmup_service.py:1208-1326 | the planning step: completes past the last day, pauses without recipients, otherwise plans and enqueues |
| `WarmupEngine.Engine.RunDay` | src/campaigns/connection_sender_warmup_service.py:1174-1334 | the whole day task: nothing unless running, for a stale run or while a campaign runs; else the planning step, and the step to the next day when nothing was scheduled |
| `WarmupEngine.Engine.AdvanceAfterDay` | src/campaigns/connection_sender_warmup_service.py:1337-1372 | the step to the next day or to completion, for a call made after a letter or the planning of a given run and day |
| `WarmupEngine.Engine.BeginMessage` | src/campaigns/connection_sender_warmup_service.py:1375-1494 | the worker's first transaction in all its branches; it goes on to the network exactly when the letter takes off |
| `WarmupEngine.Engine.FinishMessage` | src/campaigns/connection_sender_warmup_service.py:1497-1567 | the worker's second transaction for an accepted, failed or suspended send |
| `WarmupEngine.Engine.RaisesAlarm` | src/campaigns/connection_sender_warmup_service.py:1665-1693 | the three counts over the run and the pause they lead to |
| `WarmupEngine.Engine.RecordOutcome` | src/campaigns/connection_sender_warmup_service.py:1641-1703 | the provider report step; it pauses a running program exactly on an alarm |
| `WarmupEngine.Engine.AddRecipient` | src/campaigns/connection_sender_warmup_service.py:511-577 | a new recipient, or an old one active again with its number per day; refused while running |
| `WarmupEngine.Engine.SetRecipient` | src/campaigns/connection_sender_warmup_service.py:580-616 | status and number per day, each if given; refused as a whole while running when a number is given |
| `WarmupEngine.EngineIsSafe` | src/campaigns/connection_sender_warmup_service.py:1375-1694 | whatever calls an engine went through, its counts, letters, messages and health are those promised for runs, with the same exact conditions |
| `BoardProofs.RunKeepsRows` | src/bitrix_board/dispatcher.py:175-508 | every run keeps what a row promises about its agent, cycle, plan, worktree and review, state by state |
| `BoardProofs.RowsAreTakenInOrder` | src/bitrix_board/store.py:328-338 | in every run the queued rows are a suffix of the snapshot |
| `BoardProofs.RowsAreSound` | src/bitrix_board/dispatcher.py:472-508 | an unfinished row has review cycles left, from implementing on it has a plan and a worktree, and a completed one was approved by its last review |
| `BoardProofs.StepSlots` | src/bitrix_board/dispatcher.py:151-211 | a step from a board within its slots leaves it within them if and only if it does not revive a failed row while all are taken |
| `BoardProofs.SlotsHoldUnlessRevived` | src/bitrix_board/dispatcher.py:151-173 | over every run the active rows stay within the concurrency if and only if no failed row is revived while all slots are taken |
| `BoardProofs.PromptReworkKeepsSlots` | src/bitrix_board/dispatcher.py:619-654 | they do in every run in which a crashed review's log is not read again before the rework starts |
| `BoardProofs.SlotsCanOverflow` | src/bitrix_board/dispatcher.py:646-651 | a reachable board with more active rows than slots |
| `BoardProofs.FirstReadingsDecide` | src/bitrix_board/dispatcher.py:285-508 | through every run a result read for the first time belongs to the stage of its row: a plan that asks is waited for, with its questions, one without an answer fails, any other is implemented; work is reviewed or fails; a review completes, reworks or blocks |
| `BoardProofs.ImplementedOnlyAnswered` | src/bitrix_board/dispatcher.py:312-372 | a row that ever waited is implemented or reviewed by an agent only after at least one more answer and as many as its plan asked questions |
| `BoardProofs.SlotsGoInOrder` | src/bitrix_board/store.py:328-350 | through every run a row takes or resumes only a free slot, ready rows before queued ones and earlier rows before later ones |
| `BoardProofs.MeasureFalls` | src/bitrix_board/dispatcher.py:285-508 | no step raises the measure of cycles and stages left, and every result read for the first time lowers it |
| `BoardProofs.ResultsAreBounded` | src/bitrix_board/dispatcher.py:472-508 | a row has at most two results read per review cycle and one for its plan, and by then it is in a final state |
| `BoardProofs.FinalStaysFinal` | src/bitrix_board/dispatcher.py:619-654 | completed and blocked rows stay so although their logs are read again; a failed one stays terminal unless it is revivable |
| `BoardProofs.ReadyFallsBack` | src/bitrix_board/dispatcher.py:619-649 | in every reachable state reading a ready row's old log puts it back to waiting with its answers kept, and exactly a further answer makes it ready |
| `BoardProofs.CyclesAreWastedIff` | src/bitrix_board/dispatcher.py:619-654 | through every run a step spends at most one review cycle, and spends one without a result read for the first time if and only if it reads a bad review's log again in a row under review, failed or blocked |
| `BoardProofs.StaleReviewSpendsACycle` | src/bitrix_board/dispatcher.py:646-651 | reading a bad review's log twice before the rework spends a cycle without any agent |
| `BoardModel.SlotStatesPartition` | src/bitrix_board/states.py:21-43 | every state either takes a slot or leaves it free, and terminal ones leave it free |
| `BoardDispatcher.Dispatcher.constructor` | src/bitrix_board/store.py:164-213 | a run over the snapshot: all rows queued, both limits at least one |
| `BoardDispatcher.Dispatcher.CountActiveSlots` | src/bitrix_board/store.py:324-326 | the number of rows in active states |
| `BoardDispatcher.Dispatcher.FirstIn` | src/bitrix_board/store.py:328-350 | the first row in a state, in snapshot order |
| `BoardDispatcher.Dispatcher.Advance` | src/bitrix_board/dispatcher.py:175-211 | one row goes one stage further by steps of the model; a row with a live agent is left alone |
| `BoardDispatcher.Dispatcher.FillSlots` | src/bitrix_board/dispatcher.py:151-173 | it terminates and, unless stopped or raising, ends with all slots taken or nothing waiting, and with a live agent in every row that was at work |
| `BoardDispatcher.Dispatcher.ReconcileFinishedAgents` | src/bitrix_board/dispatcher.py:619-654 | every row whose agent has finished is handled by state and phase, all others stay |
| `BoardDispatcher.Dispatcher.HandleRow` | src/bitrix_board/dispatcher.py:285-508 | the three handlers and their dispatch produce the specified row |
| `BoardDispatcher.DispatcherIsSound` | src/bitrix_board/dispatcher.py:122-173 | whatever calls a dispatcher went through, its rows are sound, its queue is a suffix, and its slots were held exactly without a revival at full slots |
| `BoardDispatcher.Dispatcher.AddAnswers` | src/bitrix_board/dispatcher.py:341-372 | answers add up and make the row ready exactly when there are as many as questions |
| `DocumentNumbers.NumbersAreGapFree` | src/campaigns/document_number_service.py:34-120 | under any interleaving the committed numbers of a company and document type are exactly 1..last and distinct keys have distinct numbers |
| `DocumentNumbers.KeyKeepsItsNumber` | src/campaigns/document_number_service.py:50-58 | a key keeps its number for ever |
| `DocumentNumbers.ReturnedNumbersAgree` | src/campaigns/document_number_service.py:76-120 | two calls that return at any time got the same number if and only if they asked for the same key |
| `DocumentNumbers.RetriesNeverRunOut` | src/campaigns/document_number_service.py:84-120 | no call runs out of attempts, none starts a third |
| `DocumentNumbers.ConflictRetriesIff` | src/campaigns/document_number_service.py:104-108 | a call that hit the primary key starts a second attempt if and only if its session closes quietly; else it ends with an exception although its key has a number |
| `DocumentNumbers.ConflictThenSuccess` | src/campaigns/document_number_service.py:104-108 | a call that hit the primary key and whose session closes quietly gets the number at its next lookup, whatever others do in between |
| `DocumentNumbers.PeekIsTheNextNumber` | src/campaigns/document_number_service.py:61-73 | the number shown is the one the next commit gives out |
| `DocumentNumbers.NumberService.AllocateDocumentNumber` | src/campaigns/document_number_service.py:76-120 | the whole call amid others: a returned number is the key's committed one, none is lost, the used-up error is never raised; there is a database error exactly when a statement is refused, the counter row is locked, or a conflict's session raises; alone and unhindered it returns the key's number, or the next one, which it commits |
| `DocumentNumbers.NumberService.BumpAndInsert` | src/campaigns/document_number_service.py:93-106 | the transaction conflicts exactly when the key has a number by then, and otherwise, unless hindered, commits the next one, whatever others do in between |
| `DocumentNumbers.NumberService.NextCounterValue` | src/campaigns/document_number_service.py:34-47 | the locked upsert yields a number that is not issued yet |
| `DocumentNumbers.NumberService.PeekDocumentNumber` | src/campaigns/document_number_service.py:61-73 | every smaller number is issued, the shown one is not; zero without a company |
| `EmailChain.Normalize` | src/campaigns/chain_service.py:322-382 | fails exactly on repeated ids, keeps every edge between two blocks as often as it was there and in order, drops all others, repairs the root, and leaves a normal chain as it is |
| `EmailChain.Walk` | src/campaigns/chain_service.py:440-451 | the walk reports a revisit exactly when some block is met twice, and ends after at most one pop more than there are blocks |
| `EmailChain.TreeIffWalkedOnce` | src/campaigns/chain_service.py:440-454 | no revisit and everything visited means exactly a tree rooted at the root |
| `EmailChain.Validate` | src/campaigns/chain_service.py:385-465 | no structural error if and only if the normal form is a rooted tree, and no error at all if and only if it can be published; each problem is reported exactly when it is there, and the unreachable blocks exactly unless a cycle is reported with them |
| `EmailChain.OnlyBlankNamesAreRefused` | src/campaigns/chain_service.py:322-344 | because missing names get the default one first, the strict check on names refuses exactly linked blocks named by white space alone |
| `EmailChain.TreeEdgeCount` | src/campaigns/chain_service.py:407-454 | an accepted chain has one edge less than blocks |
| `EmailChain.JoiningBranchesAreReportedAsCycle` | src/campaigns/chain_service.py:445-447 | two edges into one reachable block are enough for the cycle error |
| `ChainPreview.PreviewLetters` | src/campaigns/chain_preview_service.py:24-51 | terminates on every chain and lists first, in breadth-first order by first mention, the letters that reachable ids stand for, each once, then the letters under all other ids |
| `ChainPreview.BlockIsLast` | src/campaigns/chain_preview_service.py:27 | an id stands for the last block stored under it |
| `ChainPreview.LettersKeepOrder` | src/campaigns/chain_preview_service.py:47-50 | the letters under the other ids keep their stored order |
| `ChainPreview.LettersListedIff` | src/campaigns/chain_preview_service.py:27-51 | a letter is left out exactly when a later block is stored under the same reachable id |
| `ChainPreview.LettersListedOnce` | src/campaigns/chain_preview_service.py:24-51 | with distinct ids every letter is listed, exactly once, the reachable ones first |
| `ChainPreview.ParentsComeFirst` | src/campaigns/chain_preview_service.py:32-51 | in an accepted chain every letter comes before the letters it leads to |
| `ChainPreview.LevelIsLeast` | src/campaigns/chain_preview_service.py:32-45 | the level of a block is its least distance from the root |
| `ChainCycles.CycleIsReportedIff` | src/campaigns/chain_service.py:445-447 | a block is met twice if and only if there is a cycle among the reachable blocks or two edges between them come together |
| `ChainCycles.WrongReportIff` | src/campaigns/chain_service.py:445-447 | every reachable cycle is reported, and the report is wrong exactly when there is none and two edges come together |
| `ChainCycles.AcyclicChainIsReported` | src/campaigns/chain_service.py:445-447 | a chain without a reachable cycle that is refused because of one |
| `MigrationGuard.Reachable` | scripts/migration_guard.py:75-82 | the worklist ends on every graph and computes exactly what the head descends to |
| `MigrationGuard.HeadsAreUnreferenced` | scripts/migration_guard.py:49-51 | a head is a revision that no revision names among its parents, merges included |
| `MigrationGuard.SingleHeadReachesAllIff` | scripts/migration_guard.py:49-86 | with a single head every revision is its ancestor if and only if every cycle starts at one |
| `MigrationGuard.SingleHeadReachesAll` | scripts/migration_guard.py:49-51 | in an acyclic graph with one head every revision is its ancestor |
| `MigrationGuard.AssertUpgradeable` | scripts/migration_guard.py:54-87 | each verdict exactly in its case, success exactly for ancestors of the single head, and for every present revision when all cycles lie below the head, in particular on acyclic graphs |
| `MigrationGuard.LoopBesideTheHead` | scripts/migration_guard.py:69-86 | a present revision on a cycle beside the head, which is no ancestor |
| `MigrationGuard.LoopBelowTheHead` | scripts/migration_guard.py:69-86 | a graph with a cycle in which all is well |
| `BatchSender.NormalizeConnectionIds` | src/campaigns/connection_service.py:638-651 | each non-empty id once, in the order of first mention, or else the fallback |
| `BatchSender.PickAvailableConnection` | src/campaigns/connection_service.py:679-719 | the first connection that exists, belongs to the owner, is not blocked and has room under its positive limits |
| `BatchSender.Pick` | src/campaigns/connection_service.py:690-719 | a connection is chosen only when every earlier one is missing, somebody else's, blocked or at a limit |
| `BatchSender.CountersAddUp` | src/campaigns/batch_worker.py:684-686 | through the batch, in either mode, hourly and daily counters agree, add up to the number sent over all connections it can choose, and together with uncounted messages make up what was delivered |
| `BatchSender.SendsStayWithinLimits` | src/campaigns/connection_service.py:662-676 | counted sends of a connection never exceed its smaller positive limit, its messages exceed it by at most the uncounted ones |
| `BatchSender.MessagesWithinLimitIff` | src/campaigns/batch_worker.py:657-686 | at every point of the batch the messages of a connection are within a limit if and only if none left while counted and uncounted ones made it up |
| `BatchSender.LimitIsSureIff` | src/campaigns/batch_worker.py:657-714 | whatever became of the messages behind failed calls, they are within it if and only if nothing went to the network while the counted sends and the calls that failed uncounted made it up |
| `BatchSender.OverrunNeedsUncounted` | src/campaigns/connection_service.py:662-676 | a connection is never overrun by counted sends alone |
| `BatchSender.RecordedSendsStayWithinLimits` | src/campaigns/batch_worker.py:672-686 | messages themselves stay within the limit when every message that left was acknowledged and could be recorded |
| `BatchSender.UncountedSendsPassTheLimit` | src/campaigns/batch_worker.py:672-686 | two messages leave through a connection that may send one |
| `BatchSender.FailoverNeverGoesBack` | src/campaigns/connection_service.py:690-719 | while the connections asked for and their rows stay as they are the choice only moves down the list |
| `BatchSender.NobodyIsMailedTwice` | src/campaigns/batch_worker.py:475-476 | a recipient gets at most one message, plus one for each attempt that failed after its message had left |
| `BatchSender.TryChain` | src/campaigns/batch_worker.py:478-514 | one recipient in chain mode: a send is counted only when everything worked, and a rollback keeps what the sending function saved by itself |
| `BatchSender.SendChainNode` | src/campaigns/chain_send_service.py:413-741 | the connection is picked from the campaign's own list; the row becomes part of the chain before the log is written, the counters move last |
| `BatchSender.FirstStopDecides` | src/campaigns/batch_worker.py:466-726 | the first visit that stops the batch, a pause, a cancellation or an exception, decides how it ends, and nothing changes after it |
| `BatchSender.RunsOnIff` | src/campaigns/batch_worker.py:460-726 | a batch runs to its end if and only if no visit stops it |
| `BatchSender.VisitsLeave` | src/campaigns/batch_worker.py:475-718 | every visit leaves exactly the stated row, numbers and messages, in either mode and with or without a rollback, and no other recipient's row changes |
| `BatchSender.RunSenderBatch` | src/campaigns/batch_worker.py:453-726 | the recipient loop in both modes produces the specified state and ends as its first stopping visit says |
| `CompanyAccess.RolesAndGrantsAgree` | src/campaigns/company_service.py:123-422 | from tables that agree, and after any sequence of operations, company administrators manage a company, administrator memberships are backed by grant and role, and nobody is in two companies |
| `CompanyAccess.StepKeepsInv` | src/campaigns/company_service.py:123-422 | every operation keeps that, cascading deletion included |
| `CompanyAccess.RemoveUndoesAdd` | src/campaigns/company_service.py:306-422 | removing a member added as administrator restores the tables exactly under the stated condition on the earlier grant and role |
| `CompanyAccess.ReplaceKeepsInvIff` | src/security/company_access.py:77-121 | replacing a user's grants by hand keeps roles and grants in step if and only if the new ones give manage where role and membership need it |
| `CompanyAccess.Companies.SyncMembershipAdminAccess` | src/campaigns/company_service.py:306-348 | the grant and role changes of a membership's role |
| `CompanyAccess.Companies.DeleteCompany` | src/campaigns/company_service.py:183-210 | the cascade and the demotion of former managers without another company |
| `CompanyAccess.Companies.AddMember` | src/campaigns/company_service.py:351-385 | adding a member; an unknown user is created first and stays when the membership is refused |
| `CompanyAccess.Companies.UpdateMemberRole` | src/campaigns/company_service.py:388-404 | changing a membership's role |
| `CompanyAccess.Companies.RemoveMember` | src/campaigns/company_service.py:407-422 | removing a membership |
| `CompanyAccess.Companies.CreateCompany` | src/campaigns/company_service.py:123-158 | a new company with a manage grant for its manager, refused for an unknown one |
| `CompanyAccess.Companies.NormalizeAccesses` | src/security/company_access.py:84-94 | a company listed more than once keeps the manage level if it is given once; an entry without a company is an error |
| `CompanyAccess.Companies.ReplaceCompanyAccesses` | src/security/company_access.py:77-121 | the user's grants become exactly the listed ones, others stay; refused for an unknown user or company; roles and grants stay in step exactly under the stated condition |

## Left out

- Warmup steps: a pause or stop and the cancelling of queue entries are one step, and so are day planning and its enqueues, and a worker's last transaction and the end of its queue entry; the queue runs at most one execution of a letter at a time and never starts a cancelled one.
- Warmup fields: templates, texts, timestamps, open counts, error texts, the suspended-by-campaign flag, the day's own queue entry and the order among recipients with equal counts (any order by sent count is covered).
- Warmup plan: `_build_daily_plan` is not modelled; the plan is any sequence of numbers, the default one where the stored one is empty.
- `WarmupPromises.RunningMeansHealthy`: the comparison hard / total >= 0.05 is taken over the exact quotient.
- Message schedule: seconds as real numbers, the random draws as any values within their limit; time zones, daylight saving and rounding to microseconds are not part of this model.
- Board: the database, worktrees, prompts, chat messages and the polling interval are left out; `submit_answer` and the collection of new answers are one step each, although the first reads the row before it writes it from another process.
- Board logs: a result is fixed once its log is written and every finished agent keeps its log path; the branch for a row without a log path, which no reachable row has, is left out.
- Document numbers: whether closing a session raises after a failed flush depends on the database library and is a parameter of the retry step; the second lookup block of the loop can never run and is left out, as is `resolve_campaign_company_id`.
- Email chains: names, templates and addresses are reduced to whether they are blank or well formed; blank block ids are replaced before the model starts, button labels and click records are not part of this model.
- Migration guard: parsing the migration files, trimming the revision and the order in which heads are listed.
- Batch sending: pauses between messages, documents, consent requests and the final status of batch and campaign; what they can lead to for the counters is covered by the visit's outcome.
- Company access: logos, work types, password and name checks, cache invalidation, and two requests that add the same user at the same moment.
- Rendering, document generation, mail transports, diagnostics, web endpoints and the follow-up links of chains are not modelled.
