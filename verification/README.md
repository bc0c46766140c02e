# The durable recovery queue, and the agent that feeds it

A subscription debit fails. The system diagnoses the failure, decides what may be tried, and puts
that work in a queue: a debit at a legal time, or a message with a pay link. Workers claim due rows
under leases and run them. Replies, stops, reviewers and payments change the same tables meanwhile.

This project models that as one transition system and proves what holds of every run of it.

* `Models`, `Policies`, `Stops`: the entities, the numbers the shell enforces and the stop rules.
* `Windows`, `Scheduler`, `Limits`, `Ladder`, `Replies`, `Taxonomies`, `Baselines`, `PolicyText`:
  the rules that decide, each with its laws.
* `Tables`: the store's tables as one value, and each statement as a function on it. `Stores`: the
  store itself, a class whose methods update the tables in place and are proved to do just that.
* `Runner`, `Agent`, `AgentLoop`: the pass over the queue and the agent's entry points, as
  functions of the tables and as the imperative code proved equal to them.
* `Effects`, `Runs`, `Histories`: what any decision may do to the tables; the moves, the runs they
  make, and what becomes of a row over a stretch of a run.
* `Ceiling`, `Allowance`, `DebitCalls`, `StopsLast`, `Leases`, `Draining`, `OneBodyPerClaim`,
  `LegalRetries`, `Redelivery`, `ReplyQueue`, `Escalation`, `Outcomes`: the main theorems, over every
  run and every input. `Witnesses`: runs that show where they stop.

A run (`Runs.IsRun`) starts from an empty store and is any interleaving of webhooks, webhooks that
died half-way, direct failures, stops, replies, reviews, rulings, payments, lifted suppressions,
lease reclaims, claims and row bodies, each at whatever time its caller's clock says. Clocks need
not agree or move forwards unless a theorem says so. A row's body, from the re-read to the finish,
is one move; a cancellation may fall anywhere between the claim and the body. So is each of the
agent's entry points, though it is several transactions; a stop is also taken apart, and shown to win
with workers running between its pieces. A run may have more bodies than claims, and the theorems
hold of it too; in the runs shown as counterexamples every body answers a claim of its own, as a
pass's do. `dafny verify dfyconfig.toml` checks everything.

Instants are whole microseconds on the Indian wall clock, confidences and rates exact reals. The
policy is any policy whose contact hours open before they close, whose bands are stretches of one
day, on whole minutes, none of which ends inside another, whose ceiling and cap are at least one, and
whose confidence thresholds are positive and ordered. The loader reads only whole minutes and checks
none of the rest; the shipped file satisfies it all.

## What the code does that its own text does not say

Each of these is a theorem, or a lemma with a concrete input, about the code as it is.

* A deferral can come too early. When more messages than the limit are inside the window, the time
  given is when the oldest ages out, not when the budget reopens. It is exact if and only if no
  contact hour passes between the two; a budget spent to the limit and no further, which clocks that
  do not go back guarantee, always meets that.
* The retry allowance needs care at three entrances: a failure worked, or a review cleared, on a
  case that already has a live retry, and a reply handled on a stale copy of the case. The guards
  are exact: the allowance survives if and only if they hold. A failure held once and cleared twice,
  by two people who saw the same hold, breaks it.
* A worker that resumes a debit after its row was settled runs it again. The allowance survives a row
  body if and only if the executor's answer has room: a late one needs an attempt left beside
  whatever is live. Four workers that claim one debit in turn as each lease runs out, and then each
  run it, take its case past the cap.
* A debit executor that raises has been called, yet draws nothing on the allowance; nor does one that
  puts its debit off. Over a careful run the calls equal the counter if and only if every answer was
  an outcome, and then they are within the cap. Answers of either other kind have no bound.
* A reply read as a complaint "pauses recovery" in its reason; nothing pauses it.
* An event is marked seen before its failure is worked, so a delivery that dies in between is not
  made good by the sender retrying the same event. A new event id makes it good exactly when the case
  is under no stop and the reason needs no check, since a webhook brings no verifier.
* A case worked for the first time is left open with nothing that can run in exactly three places:
  when the ladder has no rung for its class, when the first retry's amount is not permitted, and when
  its rung has no executor, as the broken mandate's has none. The row queued for that one is finished
  by the next pass without its case being held.
* A method whose name is literally `any` reads the list meant for every method, and so can score
  higher than an absent one. Otherwise a method that documents nothing never scores higher than one
  that does. On a match that excludes no source, the order of documented causes is exactly the order
  of scores before rounding.
* A debit its executor puts off is not checked against the bands again, and a redelivered failure is
  checked on the signal it brings, not on the one its case was opened on. A run from the empty store
  queues a debit its case's own signal refuses; the exact condition is on the amount on file and on
  the instant the debit lands.

## Model

| member | source | states |
|---|---|---|
| Windows.BandsGovernByName | src/unhalted/shell/windows.py:42-57 | by the name on the payment: `card`, `emandate`, `nach`, `netbanking` and `wallet`, in any case, run at any time, and every other name or none only outside every band of the policy |
| Windows.TheNames | src/unhalted/shell/windows.py:46-57 | the same for the names written out, an absent, an empty and an unheard-of one among them |
| Windows.NextExecutionIsLeast | src/unhalted/shell/windows.py:77-115 | the next allowed execution is the least band-legal instant at or after the one asked about, and asking again changes nothing |
| Windows.NextContactIsLeast | src/unhalted/shell/windows.py:118-132 | the next contact time is the least instant inside contact hours at or after the one asked about, and is its own next |
| Windows.NextContactMonotone | src/unhalted/shell/windows.py:186-194 | a later question about contact hours never has an earlier answer |
| Windows.BudgetFreesWhen | src/unhalted/shell/windows.py:148-183 | a spent budget reopens exactly when the message `limit` from the end of the history ages out of the window |
| Windows.RefusalNamesTheOldest | src/unhalted/shell/windows.py:160-183 | a refused message is given the contact time after the oldest message inside the window ages out, which is after now and never later than the budget reopening |
| Windows.DeferralIsExact | src/unhalted/shell/windows.py:148-194 | the deferral time is never after the least later instant at which hours and budget both allow a message; it is that instant, and allows one, if and only if no contact hour passes between the oldest message in the window ageing out and the one whose ageing reopens the budget |
| Windows.SpentToTheLimitIsExact | src/unhalted/shell/windows.py:160-183 | a budget spent to the limit and no further always meets that condition |
| Windows.DeferralCanBeEarly | src/unhalted/shell/windows.py:170-183 | a history spent beyond the limit on which the deferral comes before the budget reopens |
| Scheduler.ScheduleRetry | src/unhalted/shell/scheduler.py:74-128 | the scheduler's corrections, made one after another, are the decision the laws below are about |
| Scheduler.RetryIsLeastLegal | src/unhalted/shell/scheduler.py:92-128 | refused exactly when the count has reached the cap; otherwise the least band-legal instant at or after both request and present, and the rules fired say which correction was made |
| Scheduler.RetryByName | src/unhalted/shell/scheduler.py:92-128 | an accepted debit on one of the five names lands exactly at the later of request and present; on any other name or none it lies in no band, and nothing from that later time up to it does not |
| Scheduler.BackoffByAttempt | src/unhalted/shell/scheduler.py:45-55 | the wait before an attempt is its class's entry for that attempt, the last one from there on, and the default for a class with none |
| Limits.PermissionIsDownwardClosed | src/unhalted/shell/limits.py:65-131 | a permitted amount is positive and within the mandate, every smaller positive amount is permitted, and loosening the mandate never forbids it |
| Limits.UnrecognisedIsStrictest | src/unhalted/shell/limits.py:65-131 | an unknown method permits nothing a known one refuses, under any mandate, exactly when it permits nothing at all or no known ceiling lies below the lesser of the frictionless one and the mandate |
| Limits.CheckByName | src/unhalted/shell/limits.py:65-131 | by the name on the payment: which amounts are permitted, which exceed the mandate and which ask the customer, each if and only if |
| Limits.MayDebitByName | src/unhalted/agent.py:290-347 | so what every path that queues a debit asks is an amount above nothing, within the mandate and within that name's ceiling |
| Ladder.ProvableMeansEveryRate | src/unhalted/shell/ladder.py:157-235 | a refusal is called provable exactly when the rung would be refused at every success rate between zero and one |
| Ladder.ApprovalIsMonotone | src/unhalted/shell/ladder.py:166-235 | approval survives any larger stake, better rate and fewer refusals; a refused channel overrides all of them |
| Ladder.ApprovedExactlyWhen | src/unhalted/shell/ladder.py:157-235 | at any rate between zero and one a rung is approved if and only if its channel is not refused and it is free or expects more than it costs |
| Ladder.WorthwhileByRung | src/unhalted/shell/ladder.py:133-139 | at the default rates, rung by rung in whole paise: one debit in five, one message in four, three links in ten, seven calls in twenty, one callback in two |
| Ladder.NextRungIsLeast | src/unhalted/shell/ladder.py:238-245 | the next rung is the least one above that the customer has not refused, and there is none only when there is none |
| Replies.Decide | src/unhalted/shell/replies.py:104-232 | the decision built field by field equals one that sees only the greatest confidence per intent |
| Replies.PeakIsGreatest | src/unhalted/models.py:218-224 | the confidence for an intent is the greatest with which it was detected, absent exactly when it was not |
| Replies.OrderAndRepetitionDoNotMatter | src/unhalted/shell/replies.py:104-232 | two replies whose intents cover each other are decided alike, whatever their order and repetition |
| Replies.AddingIntentsNeverWeakensAStop | src/unhalted/shell/replies.py:122-174 | more intents never remove a stop nor weaken it in the order distress, dispute, opt-out |
| Replies.MoneyMovesOnlyOnAClearPromise | src/unhalted/shell/replies.py:200-213 | money moves to a day exactly when no protective branch fires, a promise reaches the higher bar, and the day is not past nor after expiry |
| Replies.NoReplyIsDropped | src/unhalted/shell/replies.py:113-232 | every reply has a rule on record, an unread one reaches a person, and a stop or hold never comes with a promise |
| Replies.StopsOfAReply | src/unhalted/shell/replies.py:122-174 | a reply raises only distress, dispute or opt-out, and all but an opt-out also go to a person |
| Replies.StopsByDetection | src/unhalted/shell/replies.py:122-174 | a reply stops for distress, dispute or opt-out if and only if it was read, that was detected at the protective bar (distress also by its sentiment), and nothing before it in that order was |
| Replies.PeopleByDetection | src/unhalted/shell/replies.py:113-232 | a person is needed if and only if the reply was not read, is distressed, disputes or asks to cancel, or says nothing to act on |
| Replies.RoutesByDetection | src/unhalted/shell/replies.py:176-222 | a complaint is routed, and a refused channel noted, if and only if detected at the protective bar with no stop or cancellation before it |
| Replies.DaysByDetection | src/unhalted/shell/replies.py:200-213 | with no expiry given, as the agent asks it, a day is accepted, and nudges silenced until it, if and only if a clear promise names one not yet past |
| Replies.RulesByDetection | src/unhalted/shell/replies.py:113-198 | each rule on record is there if and only if what it records was detected |
| Replies.ComplaintsOnlyRoute | src/unhalted/shell/replies.py:185-198 | a complaint stops nothing, holds nothing and moves no date |
| Taxonomies.RoundingIsMonotone | src/unhalted/core/taxonomy.py:417-477 | rounding to hundredths keeps the order of confidences |
| Taxonomies.MethodDoesNotChooseTheRule | src/unhalted/core/taxonomy.py:438-477 | with keys that wildcard the method, every method finds the same rule |
| Taxonomies.LookupBySpecificity | src/unhalted/core/taxonomy.py:438-450 | the rule found is at the first of the five keys the table holds, the named ones before each wildcard, and none is found only when it holds none |
| Taxonomies.TheScoreIsExact | src/unhalted/core/taxonomy.py:451-458 | a match scores its rule's directness, shared among the documented causes unless its key names a source, to within half a hundredth |
| Taxonomies.CausesByMethod | src/unhalted/core/taxonomy.py:84-119 | how many causes, read off the rows: the method's own, or the greatest any method lists, or the agnostic list's, or one |
| Taxonomies.AuthorityByScore | src/unhalted/models.py:114-131 | a diagnosis is held if and only if it scores below the sampled threshold, and acts alone if and only if it reaches the higher one |
| Taxonomies.VerificationByReason | src/unhalted/core/diagnose.py:45-72 | a check is needed if and only if there is an order to ask about and the reason is one of the three |
| Taxonomies.KnowingLessNeverBuysAutonomy | src/unhalted/core/taxonomy.py:417-477 | of any two methods whatever, the one held to at least as many causes for the reason never scores above the other nor earns more autonomy |
| Taxonomies.TheOrderOfCausesIsExact | src/unhalted/core/taxonomy.py:451-458 | and nothing weaker would do: on a match that excludes no source, scores before rounding are ordered if and only if the cause counts are |
| Taxonomies.TheUndocumentedKnowLess | src/unhalted/core/taxonomy.py:84-119 | a method that documents nothing for the reason, or is absent, is held to at least as many causes as one that does, except exactly when that one is spelled `any` and the list meant for every method is longer than any method's own |
| Taxonomies.TheUndocumentedNeverOutscore | src/unhalted/core/taxonomy.py:417-477 | so through the whole lookup such a method never outscores a documented one nor earns more autonomy, but for that exception |
| Taxonomies.TheAgnosticListIsNotAMethod | src/unhalted/core/taxonomy.py:103-119 | a taxonomy on which a method literally named `any` scores above a documented one and above none at all |
| Taxonomies.UnresolvedIsCapped | src/unhalted/core/taxonomy.py:461-477 | a match on any source, whose reason has n causes, is capped at one over n before rounding |
| Taxonomies.AmbiguityCapsConfidence | src/unhalted/core/taxonomy.py:417-477 | the confidence of a whole lookup through a wildcarded source is at most the rounded share of one cause |
| Taxonomies.MerchantFaultIsHeld | src/unhalted/core/taxonomy.py:399-436 | a failure the merchant caused is unknown and held, whatever its reason and however permissive the table |
| Baselines.Run | src/unhalted/measure/baseline.py:153-176 | attempts are strictly increasing and a day apart, and those inside bands are none or all of them, all exactly when the rail is governed and the original time of day is in a band |
| PolicyText.DurationRoundTrip | src/unhalted/cli.py:472-478 | a printed duration reads back as itself exactly when it is a whole number of minutes |
| PolicyText.ParsedDurationsAreWholeMinutes | src/unhalted/policy.py:41-51 | every duration that can be read is a whole number of minutes |
| PolicyText.DurationTextIsCanonical | src/unhalted/policy.py:41-51 | printing what was read settles on one spelling, in days exactly when it is whole days |
| PolicyText.TimeRoundTrip | src/unhalted/policy.py:33-38 | a printed time of day reads back as itself exactly when it is a whole minute |
| PolicyText.BandRoundTrip | src/unhalted/core/policy_change.py:113-129 | printed bands read back exactly when they start and end on whole minutes |
| PolicyText.AmountRoundTrip | src/unhalted/policy.py:54-57 | printed limits read back exactly when they are whole rupees |
| PolicyText.PolicyRoundTrip | src/unhalted/core/policy_change.py:113-129 | the fields a circular may change survive being printed and loaded exactly when its times and sums are whole |
| Stores.Store.OpenCaseOrGet | src/unhalted/store.py:268-283 | novelty and the case are decided together: a payment on file gives its case, any other opens one |
| Stores.Store.SetState | src/unhalted/store.py:364-366 | the state of that case, and of no other |
| Stores.Store.IncrementRetryCount | src/unhalted/store.py:368-384 | one more on that case's counter, which is returned |
| Stores.Store.SuspendNudgesUntil | src/unhalted/store.py:386-392 | the date that case's nudges wait for |
| Stores.Store.RecordDiagnosis | src/unhalted/store.py:411-416 | a diagnosis appended |
| Stores.Store.LatestDiagnosis | src/unhalted/store.py:418-424 | the last diagnosis filed for the case, absent exactly when none was |
| Stores.Store.Record | src/unhalted/store.py:426-451 | a record appended to the trail |
| Stores.Store.MarkEvent | src/unhalted/store.py:483-488 | the first mark of an event stands |
| Stores.Store.ScheduleAction | src/unhalted/store.py:492-523 | a pending row appended, and its id |
| Stores.Store.ReleaseExpiredLeases | src/unhalted/store.py:569-584 | exactly the leases ended by now go back to pending, and how many there were |
| Stores.Store.LeaseDueActions | src/unhalted/store.py:586-624 | the earliest due pending rows up to the limit, all leased to one worker until one time, and no other row touched |
| Stores.Store.FinishAction | src/unhalted/store.py:638-652 | the row's state by id alone, whoever holds it |
| Stores.Store.ReturnAction | src/unhalted/store.py:654-663 | the row pending again at a new time, by id alone |
| Stores.Store.CancelPending | src/unhalted/store.py:665-706 | exactly the live rows in scope cancelled, leased ones included, and how many there were |
| Stores.Store.ContactsSince | src/unhalted/store.py:708-733 | the delivered nudges to this customer across their cases since a time, oldest first |
| Stores.Store.SuppressContact | src/unhalted/store.py:737-759 | a standing suppression appended |
| Stores.Store.ContactSuppression | src/unhalted/store.py:761-787 | a suppression standing on the case or the customer, the longest in force, absent exactly when none stands |
| Stores.Store.LiftSuppression | src/unhalted/store.py:803-818 | only a standing suppression is lifted, once, by a name and at a time |
| Tables.OldestFirstIsExact | src/unhalted/store.py:725-733 | the list read off the trail is a sorted rearrangement of exactly the deliveries at or after the time asked from |
| Runner.ExecuteNudge | src/unhalted/runner.py:134-226 | the promised date first, then the ceiling, then contact hours; sent only when none refuses |
| Runner.RunOne | src/unhalted/runner.py:292-376 | one row, from the re-read to the finish |
| Runner.RunClaimed | src/unhalted/runner.py:288-376 | the rows of a claim one after another, and the report tallied as they go |
| Runner.RunDue | src/unhalted/runner.py:258-378 | a whole pass: reclaim, claim the earliest due up to the limit, run each, report |
| Agent.ClimbFindsTheLeast | src/unhalted/agent.py:425-430 | the climb ends at the least executable rung from where it starts, and lists exactly those it passed, in order |
| AgentLoop.AmountPermitted | src/unhalted/agent.py:290-347 | no signal on file or a refused amount is recorded and answered no |
| AgentLoop.ArmRetry | src/unhalted/agent.py:230-287 | a retry queued when the scheduler accepts, and a record either way |
| AgentLoop.ScheduleBalanceFallback | src/unhalted/agent.py:350-399 | the blind retry behind the question, if the amount and the cap permit |
| AgentLoop.FindExecutable | src/unhalted/agent.py:425-430 | the loop up the ladder computes the climb |
| AgentLoop.ExhaustedNudgeSent | src/unhalted/agent.py:493-503 | whether an escalation after the cap is on this case's record |
| AgentLoop.EscalateAfterCap | src/unhalted/agent.py:402-490 | the whole escalation, branch by branch |
| AgentLoop.ApplyStop | src/unhalted/agent.py:506-574 | the whole stop: cancel, settle, suppress once, record |
| AgentLoop.Verify | src/unhalted/agent.py:785-852 | no check or a failed one holds, paid closes and cancels, unpaid proceeds |
| AgentLoop.WorkLadder | src/unhalted/agent.py:171-287 | joining the ladder where the class says, at what it costs |
| AgentLoop.DiagnoseAndWork | src/unhalted/agent.py:138-287 | the diagnosis filed, then held or worked |
| AgentLoop.HandleFailure | src/unhalted/agent.py:38-287 | a failure from signal to next action, a diagnosed one left alone |
| AgentLoop.ReceiveWebhook | src/unhalted/ingest/webhooks.py:88-116 | duplicate check, case, mark, work, in that order |
| AgentLoop.HandleReply | src/unhalted/agent.py:577-782 | a reply from standing stop to realignment, in the order of precedence |
| AgentLoop.Realign | src/unhalted/agent.py:725-780 | the queue cleared, the amount checked, the debit moved, nudges silenced, the cap answered |
| AgentLoop.ResumeAfterReview | src/unhalted/agent.py:855-915 | a cleared hold re-armed, or the cap answered |
| AgentLoop.MarkRecovered | src/unhalted/agent.py:918-949 | everything on the case cancelled and the case recovered |
| Runs.MoveKeepsConsistent | src/unhalted/store.py:35-140 | every move keeps rows, records, diagnoses and signals belonging to cases, and each payment to one case |
| Runs.RunsAreConsistent | src/unhalted/store.py:35-140 | the same at every point of every run |
| Effects.ReplyEffect | src/unhalted/agent.py:577-782 | a reply only cancels live rows, adds pending ones for its own case, appends records that are not executions, and leaves every counter alone |
| Effects.FirstWorkedEffect | src/unhalted/agent.py:83-287 | the same of a failure worked, for its own case and checked signal |
| Effects.StopEffect | src/unhalted/agent.py:506-574 | the same of a stop |
| Histories.EveryRowMoves | src/unhalted/store.py:492-706 | what any move may make of any row: release, lease and body as the queue says, otherwise at most a cancellation; and what it may add |
| Histories.BodyEnds | src/unhalted/runner.py:292-376 | what each fate makes of its row, and that no other row is touched |
| Histories.BodiesHoldExactly | src/unhalted/runner.py:292-376 | a body makes its case wait for a person if and only if it called a debit whose answer was no deferral and asked for it; every other case, and its own otherwise, keeps its state |
| Histories.AShippedDebitHoldsItsCase | src/unhalted/runner.py:229-245 | so the debit the system ships always leaves its case to a person, its row without an adapter and the attempt counted |
| Histories.NoRowIsLost | src/unhalted/store.py:492-706 | over any stretch of any run rows are only added, keep what they were queued for, and stay cancelled once cancelled |
| Histories.NoCaseIsLost | src/unhalted/store.py:268-349 | a case keeps its customer and its signal |
| Ceiling.SpacedMeansCeiling | src/unhalted/shell/windows.py:148-183 | messages that each saw room when sent never crowd any window, however the clock jumped between them |
| Ceiling.DeliveryIsAdmissible | src/unhalted/runner.py:150-226 | a nudge goes out only inside contact hours, not before the case's promised date, and with room under the ceiling |
| Ceiling.ANudgeIsSentExactlyWhen | src/unhalted/runner.py:150-226 | and whenever those three hold it does; before the promised day it waits for contact-open that day, out of hours for the next contact time, and it never holds a case |
| Ceiling.ContactCeiling | src/unhalted/runner.py:150-226 | at every point of every run, for every customer and every window of the policy's length, at most the limit of delivered nudges across all their cases |
| Ceiling.LogIsExactlyTheDeliveries | src/unhalted/store.py:708-733 | the log the ceiling is counted on grows by exactly the move's own time when the move delivers, and by nothing otherwise |
| Ceiling.SteadyDeferralIsExact | src/unhalted/shell/windows.py:148-194 | with clocks that do not go back the budget is never overspent, and a refused nudge is deferred to the very first instant it could go |
| Allowance.ReviewIsExact | src/unhalted/agent.py:855-915 | a review keeps the allowance if and only if it arms nothing, or no retry is live and the current count is below the cap |
| Allowance.ReplyIsExact | src/unhalted/agent.py:725-780 | a reply keeps it if and only if, when it arms, the count on file is below the cap too |
| Allowance.FailureIsExact | src/unhalted/agent.py:38-287 | a failure keeps it if and only if, when it arms, no retry was live |
| Allowance.BodyIsExact | src/unhalted/runner.py:292-376 | a row body keeps the allowance if and only if, when it calls a debit that returns, the answer has room: for an attempt beside what else is live, for a place in the queue when put off |
| Allowance.BodyKeepsAllowance | src/unhalted/runner.py:341-361 | a worker that runs the row it still holds, to an outcome or a later time, always has room |
| Allowance.MoveIsExact | src/unhalted/runner.py:341-361 | every move, from every consistent state, keeps at most one live retry per case, attempts counted plus live within the cap, and the counter equal to the executions on record, if and only if it is careful |
| Allowance.RetryAllowance | src/unhalted/shell/scheduler.py:96-104 | the same at every point of every careful run |
| Allowance.AttemptsAreTheDebitsRun | src/unhalted/runner.py:341-361 | over any run, careful or not, the executions on record are exactly the debits run to an outcome |
| Allowance.DebitsNeverPassTheCap | src/unhalted/shell/scheduler.py:96-104 | over a careful run a case is never debited more times than the cap, counting the one still live |
| Witnesses.ReviewingTwiceOverdraws | src/unhalted/agent.py:875-894 | a run from the empty store in which a failure is held and its hold cleared twice, leaving two retries live |
| DebitCalls.ASettledDebitRunsAgain | src/unhalted/runner.py:294-299 | a late worker runs a settled debit again, and the allowance survives if and only if the count and what is live leave one more attempt |
| Witnesses.ResumingLateOverdraws | src/unhalted/runner.py:294-299 | a run from the empty store, on the shipped policy, in which four workers claim one debit in turn as each lease runs out and then each run the body they claimed: the first three are within the cap and the fourth is not |
| DebitCalls.RaisingDrawsNothing | src/unhalted/runner.py:329-339 | a debit executor that raises was called, and neither counts nor is recorded |
| DebitCalls.EveryCallHasItsAnswer | src/unhalted/runner.py:329-361 | over every run, careful or not, the calls of a case's debit executor are the debits run, the calls that raised and those put back |
| DebitCalls.CallsAndTheCap | src/unhalted/runner.py:329-361 | over a careful run the calls of a case's debit executor equal its counter if and only if every answer was returned and not pending, and then they are within the cap |
| Witnesses.RaisingIsUnbounded | src/unhalted/runner.py:329-339 | no other answer is bounded: for every n a careful run from the empty store with n calls that raise, each debit armed by a promise and claimed before it is run |
| Witnesses.PuttingOffIsUnbounded | src/unhalted/runner.py:354-361 | and for every n one with n calls that put a single debit off to the next morning |
| StopsLast.StopClearsItsScope | src/unhalted/agent.py:529-535 | a stop cancels exactly the live rows in its scope, leaves every other row, and reports how many |
| StopsLast.EachStopByItsCode | src/unhalted/shell/stops.py:47-141 | by the code alone: five bar the customer and leave nothing of theirs live, three bar the case, the spent cap clears its case and bars nobody; which state each gives the case, and that no other row or case changes |
| StopsLast.BarsAreWhatGatesRead | src/unhalted/store.py:761-787 | what every gate asks is whether a suppression not lifted is on the case or on its customer |
| StopsLast.RepliesStopByDetection | src/unhalted/agent.py:594-660 | a reply raises each of its stops if and only if its case is under none and the reply detects it first |
| StopsLast.AtMostOneStanding | src/unhalted/agent.py:544-554 | at every point of every run at most one suppression stands on each scope |
| StopsLast.LiftFreesExactlyItsScope | src/unhalted/store.py:803-818 | lifting the one that stands frees its scope and no other |
| StopsLast.StandsUntilLifted | src/unhalted/store.py:803-818 | a standing suppression survives every move but its own lifting |
| StopsLast.NothingIsDispatchedUntilLifted | src/unhalted/runner.py:292-319 | while it stands no executor is called for any case in its scope, however its rows were claimed, armed or opened |
| StopsLast.AStopWins | src/unhalted/agent.py:529-554 | from every stop but the spent cap, its own or a reply's: nothing live in its reach after it, and nothing dispatched there until it is lifted |
| StopsLast.AStopWinsPieceByPiece | src/unhalted/agent.py:529-554 | and with its transactions apart: between the cancelling and the suppressing, workers that hold their rows reach nothing in scope and nothing there is live when the suppression lands |
| StopsLast.FailureUnderAStop | src/unhalted/agent.py:91-121 | a failure on a stopped case, new or old, queues and cancels nothing |
| StopsLast.ReplyUnderAStop | src/unhalted/agent.py:594-630 | a reply on a stopped case is recorded and nothing else |
| Leases.LeaseTenure | src/unhalted/store.py:569-624 | a lease lasts until its row's body, a cancellation, or a reclaim at or after its end |
| Leases.NoDoubleLease | src/unhalted/store.py:586-624 | between two claims of a row its body ran or some clock reached the first lease's end |
| Leases.FreedExactlyAtItsEnd | src/unhalted/store.py:569-584 | a reclaim frees a claimed row for the next claim from its lease's very end and not before |
| Leases.PromptWorkersHoldTheirRows | src/unhalted/runner.py:292-299 | a worker that runs its row before any clock reaches the lease's end finds it still its own, or cancelled |
| Leases.AttemptsAreClaims | src/unhalted/store.py:606-620 | a row's attempts are exactly the claims made of it |
| Leases.ClaimTakesWhatItCan | src/unhalted/store.py:606-620 | a claim takes the limit or everything due, and leaves exactly the rest due |
| Leases.EveryDueRowOnce | src/unhalted/store.py:586-624 | claims by workers each on its own clock, until one comes back empty, hand out every row due at that last claim, each once and each to a worker on whose clock it was due; and nothing else when no clock was later than the last |
| Leases.GrabsAreARun | src/unhalted/store.py:586-624 | such claims are a stretch of a run, and leave the table it leaves |
| Leases.EarliestFirst | src/unhalted/store.py:606-620 | whatever the workers' clocks, an earlier claim never takes a row due later than one a later claim takes |
| Leases.AnEmptyClaimMeansNothingWaits | src/unhalted/store.py:586-624 | under any interleaving, when a claim that asked for something comes back empty, every row due on its clock at any earlier point has since been claimed, run or cancelled |
| OneBodyPerClaim.OwingIsExact | src/unhalted/runner.py:286-299 | a worker owes a row its body exactly when it has claimed it and not run it since |
| OneBodyPerClaim.BodiesNeverExceedAttempts | src/unhalted/runner.py:286-299 | over a run whose every body is owed, a row is run at most as often as it was attempted |
| OneBodyPerClaim.APassAnswersItsClaim | src/unhalted/runner.py:286-288 | every body of a pass is owed |
| Draining.APassDrains | src/unhalted/runner.py:258-378 | a pass leaves unclaimed rows alone, its own unleased and as their fates say, and due exactly what the limit kept it from plus what was sent straight back |
| Draining.NudgesSettle | src/unhalted/runner.py:150-226 | a refused nudge is always put off to a strictly later time |
| Draining.SettlingPassDrains | src/unhalted/runner.py:258-378 | with executors that settle, exactly max(0, n − limit) of n due rows stay due and no lease is left to reclaim at the same time |
| Draining.AShippedPassDrains | src/unhalted/runner.py:229-252 | the same of any pass with the executors the system ships |
| Draining.PassesDrain | src/unhalted/runner.py:258-378 | after j such passes exactly max(0, n − j·limit) stay due |
| Draining.PassesReachAFixpoint | src/unhalted/runner.py:267-276 | a further pass claims nothing exactly when the passes before it could reach every due row, and then it changes nothing |
| Draining.TheReportAccountsForEveryRow | src/unhalted/runner.py:91-120 | each tally of the report counts exactly the fates it names, and every claimed row is in one of them or was put off |
| Draining.APassIsARun | src/unhalted/runner.py:258-378 | a pass is the run of its reclaim, its claim and its bodies |
| Draining.APassHoldsItsRows | src/unhalted/runner.py:288-299 | and at every body of an undisturbed pass the row is still its worker's |
| LegalRetries.EveryRetryWasQueuedLegally | src/unhalted/agent.py:240-262 | every retry of every run was queued by a move whose checked signal passes the limits, at a time no earlier than its creation and outside every band unless its method is one of the five |
| LegalRetries.BodyLegality | src/unhalted/runner.py:354-361 | a row body keeps every queued retry legal if and only if the executor's answer to a called debit puts it off, if at all, to a legal time |
| LegalRetries.FailureLands | src/unhalted/agent.py:218-262 | whatever debit a failure queues lands at an instant known before it is handled: the least legal one on its own rail after its class's backoff, and after the reply grace for an empty account |
| LegalRetries.FailureLegality | src/unhalted/agent.py:290-347 | the code checks the signal it is handed: on any rail a failure keeps every queued retry legal for its own case if and only if, when it queues one, the amount on file is permitted and the rail on file allows the instant it lands on |
| LegalRetries.FaithfulDeliveryIsLawful | src/unhalted/agent.py:218-262 | a first delivery, or a redelivery of the signal on file, always meets that condition |
| LegalRetries.QuietDeliveryIsLawful | src/unhalted/agent.py:46-89 | and so does any redelivery that queues nothing, on whatever rail and for whatever amount |
| LegalRetries.AMismatchedRedeliveryIsIllegal | src/unhalted/agent.py:290-347 | a run from the empty store in which a payment redelivered for less than it was filed for queues a debit its own case's signal refuses |
| LegalRetries.EveryRetryStaysLegal | src/unhalted/agent.py:725-747 | over runs that meet both conditions every queued retry is legal for its own case's signal, however it was queued |
| LegalRetries.ShippedRunsStayLegal | src/unhalted/runner.py:229-245 | so over every run with the shipped debit executor and payments redelivered as they were filed |
| Redelivery.OnlyTheDiagnosisQueues | src/unhalted/agent.py:46-89 | exactly when a delivery writes its case's diagnosis; one that does not queues nothing, and one on a diagnosed case touches no row |
| Redelivery.OneCaseOneDiagnosis | src/unhalted/store.py:268-323 | at every point of every run one case per payment and at most one diagnosis per case |
| Redelivery.OnlyOneDeliveryQueues | src/unhalted/agent.py:46-89 | of any two deliveries of a payment, under any event ids, at most one queued anything |
| Redelivery.SameEventChangesNothing | src/unhalted/ingest/webhooks.py:88-116 | an event delivered again changes nothing at all |
| Redelivery.AnInterruptedEventIsNeverWorked | src/unhalted/ingest/webhooks.py:105-116 | if the first delivery died after its mark and the sender only repeats that event, the case is never diagnosed |
| Redelivery.ANewEventMakesGood | src/unhalted/ingest/webhooks.py:92-116 | a webhook under an event not seen before diagnoses a case nobody has yet if and only if the case is under no stop and the reason needs no check |
| Redelivery.MerchantFaultQueuesNothing | src/unhalted/agent.py:141-169 | a failure with source `business` queues nothing on any path, and touches the queue only when its order turns out paid |
| ReplyQueue.AReplyBoundsTheQueue | src/unhalted/agent.py:632-782 | by what the reply was detected to say: after a stop or a cancellation nothing is live on the case; after an accepted promise exactly one debit, the least legal from contact-open that day; after a cap refusal at most the link; otherwise the queue is as it was |
| ReplyQueue.AReplySettlesItsCase | src/unhalted/agent.py:632-782 | a reply that is for a person reaches one whatever stop came with it, a clear promise silences nudges until its day whatever becomes of the debit, and no other case is touched |
| ReplyQueue.AComplaintPausesNothing | src/unhalted/shell/replies.py:185-198 | a complaint leaves every action on the case as it was |
| Escalation.TheSearch | src/unhalted/agent.py:425-430 | the search finds the least executable rung above entry and lists exactly the rungs skipped |
| Escalation.AfterTheCap | src/unhalted/agent.py:432-490 | the three ends of an escalation and exactly when each is reached |
| Escalation.ASpentCapIsNeverQuiet | src/unhalted/agent.py:402-424 | a review or promise the cap refuses leaves a row due now with a registered executor, or the case held or unrecovered |
| Escalation.ARefusedFirstRetryIsNotQuiet | src/unhalted/agent.py:283-287 | and so does a first schedule the cap refuses |
| Escalation.ARefusedFallbackIsNotQuiet | src/unhalted/agent.py:223-238 | and the retry behind a question: the question itself is due now with a registered executor, whether or not the retry is refused |
| Outcomes.AFirstFailureGoesQuietExactlyWhen | src/unhalted/agent.py:91-287 | a first-worked failure leaves its case open with nothing queued that a registered executor can run if and only if it reaches the ladder and finds no rung, a first debit whose amount is refused, or a rung with no executor |
| Outcomes.WorkedByScore | src/unhalted/agent.py:138-169 | a diagnosis scoring below the sampled threshold adds no row and holds its case, any other enters the ladder, and the authority on record is the one its score earns |
| Outcomes.WorkedByClass | src/unhalted/agent.py:171-262 | what each class queues when its rung pays for itself, row by row and to the instant, and that otherwise the case is cleared and written off |
| Outcomes.SettledByVerdict | src/unhalted/agent.py:785-852 | after the three reasons with an order: paid closes the case and clears its rows, unknown holds it, and neither diagnoses |
| Outcomes.HeldUnderAStop | src/unhalted/agent.py:91-121 | a failure under a standing stop is held for a person, undiagnosed, and queues nothing |
| Outcomes.ReviewArmsAtOnce | src/unhalted/agent.py:875-894 | a cleared hold with an attempt left and an amount permitted queues one debit, at the least time from now its method's name allows |
| Outcomes.OnlyABrokenMandateHasNoExecutor | src/unhalted/shell/ladder.py:102-118 | the third is the broken mandate's class and no other |
| Outcomes.NoExecutorNoHold | src/unhalted/runner.py:321-327 | a row with no executor is finished without its case being held |
| Outcomes.APaymentClearsItsCase | src/unhalted/agent.py:937-949 | a payment cancels everything live on its case and nothing elsewhere, and records how much |

## Left out

- SQLite itself, its locks, write-ahead log and late columns.
- Other moves falling between the transactions of one agent entry point: each entry point is one step, but for the stop, whose cancelling and suppressing are also taken apart with workers' moves between.
- A crash inside a row's body, and a cancellation landing there: the body is one step, since finishing and returning a row go by id alone and would overwrite it.
- HTTP, signatures, payment links, the order-status service and the language model: a verification is one of four verdicts and a parsed reply is any parsed reply.
- The `payment_link.paid` handler's own checks; the payment itself is a move.
- Audit prose, errors kept on a row, JSON, generated ids (a new case is given an id not in use) and logging.
- Reading a proposed date out of text: what reaches the decision is a date, something unreadable, or nothing.
- `deliver`'s second look at contact hours, which the nudge executor has already passed at the same instant, and confirmations of payment, which are outside the ceiling and the suppression gate.
- A nudge executor that raises after the message is out: a raised row is counted as not delivered, because nothing is recorded.
- A reviewer's note and new class, which go into the audit record alone; of a review, the state it sets and the retry it re-arms are modelled.
- Storing a channel refusal: a reply can state one and the ladder's gate honours one, but nothing in the agent carries it, or a lifetime value, from one to the other.
- Merchant scope: there is one merchant, and the code treats it as customer scope.
- Case folding and white space beyond ASCII, and dates outside the calendar Python supports.
- Binary floating point: confidences, rates and rupees are exact, and rounding to hundredths is to the even neighbour.
- The contents of the taxonomy document and of its table: any table of positive counts and of directness between zero and one.
- Empty-string identifiers, which `cancel_pending` refuses and ingestion never makes.
- Measuring, calibration, comparison and reporting, the regex lint, message bodies, the terminal and `propose`: they would add only easy members.
