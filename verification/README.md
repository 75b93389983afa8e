# Verified model of the payment-recovery engine

RailPulse recovers failed payments: webhooks about failures, captures, links and refunds drive a case through a state
machine; a dispatcher promotes cases on timers and sends at most one consented payment link per case; links that must
not be paid any more are cancelled, with bounded retries. A simulator measures recovery policies against a hidden world.
This project models that engine, its store and its simulator in Dafny and proves what they promise over every run.

How the files fit together:

- `models.dfy` holds the case, its transition table and contact budget; `engine.dfy` gives each committed transaction of
  the engine as a function on the database; `effects.dfy` proves what each transaction keeps.
- `protocol.dfy` is the engine as a state machine: webhooks, any number of dispatchers, the cancel sweep, operators,
  crashes and a provider that may answer anything interleave between transactions. `safety.dfy` and `cancels.dfy` hold
  its invariants, `theorems.dfy` the results over all runs, `inflight.dfy` that a cancel under way is really in flight.
- `policy.dfy` and `outcomes.dfy` say what each step leaves of the rows, as tables over the rows before and after;
  `histories.dfy` what a case's state says about the run behind it; `reports.dfy` that links and their statuses are those
  reported, and what that means for links still payable; `escalation.dfy` where a tick's timers, attempts at links and
  sweep take a case.
- `stamp.dfy`, `rows.dfy`, `queries.dfy` and `store.dfy` are the store: timestamps as text, payload and index columns,
  and the class whose operations keep the columns an exact index. `keys.dfy` is the text of action and idempotency keys.
- `service_model.dfy` and `service.dfy` are the service as a class over store, health monitor and provider, with
  transactions and rollback; `refinement.dfy` shows its operations to be runs of the protocol, so the theorems apply.
  `races.dfy` shows where more than one dispatcher breaks the customer budget, `tick.dfy` what a whole dispatch tick
  means for draining and for the provider.
- `release.dfy` is release control and draining, `delivery.dfy` exactly-once delivery, `windows.dfy` and `health.dfy`
  the issuer-health window, `observations.dfy` its stored rows, `gateway.dfy` the provider adapter. `serving.dfy` is a
  delivery as the service makes it, failures of the calendar included.
- `world_model.dfy`, `choices.dfy`, `world.dfy`, `runs.dfy` and `runner.dfy` are the simulator's hidden world, what each
  decision does in it, whole runs as traces, and the scheduler that makes them.

Instants and durations are integers of microseconds, instants counted from the start of year 1. A case's row id, a
random uuid in the source, is identified with its logical key: both are unique and never change. Empty and absent
customer or link ids are one value, because the code only ever tests them for truth. The failure classifier, the hash
of logical keys, the provider's answers, the random draws and the policies are inputs, so each result holds for all of
them.

One promise holds only in part. The contact check is made outside the transaction that records the intent, so n
dispatchers can send one person up to max + n - 1 links, and runs that do exist; with one dispatcher the budget is exact.
A report about a link counts in the order it is committed: a payment reported while the create's own answer is still
uncommitted loses its status to that answer, and only the flag it raised remains.

Where the code and its comments disagree the code is followed: the per-case contact limit is the field default (the
setting of that name is never read); other cases' contacts never expire; a superseded link is cancelled while the
transaction is open, despite the opening remark on transaction discipline; and giving up exactly at the simulation's
horizon forfeits the time since the last look, although every policy is meant to be credited with the same elapsed time.

## Model

| member | source | states |
|---|---|---|
| Reports.PayableLinksAreAttended | app/service.py:706-843 | Over any run, an authorised, recovered or reversed case whose link was last reported issued or created, by the log of reports alone, has a cancel on record, and every cancel of it is under way or the case is flagged for a human |
| Reports.PayableLinksAreBeingCancelled | app/service.py:706-843 | And if such a case is not flagged, every cancel of it is really in flight at the provider for the very link the case was given, unless its call was lost between the commit and the answer |
| Reports.RecordedAsReported | app/service.py:404-410 | Over any run each case names exactly the link it was given, if any, with exactly the status last reported for it by the create's answer, a cancel's answer or a link event, and none if none was |
| Reports.CancelsNameTheLink | app/service.py:706-726 | Over any run every cancel on record, and every cancel call in flight, is of the link its case was given |
| Reports.EarlyPaymentIsOverwritten | app/service.py:395-410 | A payment reported before the create's outcome is committed is lost from the status, which the create's answer overwrites; the flag it raised remains |
| ProtocolTheorems.RecordedLinksAreAttended | app/service.py:706-843 | In every reachable state, an authorised, recovered or reversed case whose link is recorded payable has a cancel on record, and every cancel of it is under way or the case is flagged |
| InFlight.RecordedLinksAreBeingCancelled | app/service.py:706-843 | Over any run, such a case that is not flagged has each of its cancels really in flight at the provider, unless the call was lost |
| InFlight.StepUnderWay | app/service.py:706-843 | No step but the loss of a call leaves a started cancel without its call in flight |
| ProtocolTheorems.CancelsAreBounded | app/store.py:569-616 | Per cancel key at most one provider cancel is in flight, at most max(1, limit) are ever issued over the whole run, and a row at its limit cannot be claimed again |
| ProtocolTheorems.OneLinkPerCase | app/service.py:341-418 | The provider is asked to create at most once per logical key; a case names a link exactly when its contact counter is 1, exactly when its create action succeeded, exactly when it is in the log of links sent |
| ProtocolTheorems.LinkSentOnce | app/service.py:400-418 | Over any run a case enters the link-sent state as often as its contact is logged, which is at most once |
| ProtocolTheorems.BurnedForever | app/service.py:349-361 | A case whose link creation failed keeps its key and is never sent a link again by any later steps, reopening included |
| ProtocolTheorems.BudgetAcrossInvoices | app/service.py:253-284 | With n dispatchers a known customer is sent at most max + n - 1 links over all their invoices, ever; exactly the budget with one |
| ProtocolTheorems.ContactsAreSpaced | app/service.py:282-284 | With one dispatcher any two contacts with one person are at least the contact cooldown apart |
| Races.BudgetIsReached | app/service.py:253-418 | The bound max + n - 1 is attained: for every n >= 1, every cooldown and any settings with at least one recovery attempt and one failure code that needs customer action, a run of n dispatchers from the empty database sends one person exactly that many links |
| Races.OneDispatcherOnly | app/service.py:253-418 | Under such settings no reachable state exceeds a person's budget if and only if there is one dispatcher |
| Races.RaceSendsBoth | app/service.py:342-376 | From any state in which two dispatchers have each read a case of one person and may contact it, both can send: two more links to that person |
| ProtocolTheorems.EveryStepIsAnEdge | app/models.py:111-204 | Every step moves each committed case along at most one edge of the transition table, a new case by one edge out of open |
| ProtocolTheorems.IngestNeverFaults | app/service.py:503-516 | In a reachable state no event raises a forbidden transition or a version conflict, and the branch that holds a case because the policy proposed a forbidden target is unreachable |
| ProtocolTheorems.CommittedRows | app/service.py:211-217 | No committed case is open or classified; timed cases have a deadline and attempts to spare, so the exhaustion branch of dispatch is dead code; consent cases have no deadline |
| ProtocolTheorems.StoppedStaysStopped | app/models.py:202-203 | Stopped and reversed cases keep their state over every continuation of every run |
| ProtocolTheorems.FactsSurvive | app/service.py:494-500 | Over every run a case keeps its customer, an opt-out, a positive amount and a recorded reversal |
| ProtocolTheorems.ReversalSilences | app/service.py:585-598 | A reversal on a case with a customer opts out every case of that customer in the same commit |
| ProtocolTheorems.SilenceLasts | app/service.py:585-598 | No step ends a person's silence |
| ProtocolTheorems.ChecksAreRefused | app/service.py:275-279 | A contact check made for a silenced person passes only for a case that is itself stopped or reversed and can no longer be sent anything |
| ProtocolTheorems.OptOutIsPermanent | app/service.py:585-598 | Once someone is silenced, all links sent to them over any continuation come from dispatch work already past its check at that moment; later checks, new invoices and reopens add none |
| ProtocolTheorems.AtMostThreeChanges | app/service.py:176-227 | Without webhooks and operators a case changes state at most three times, each time strictly lowering a rank |
| ProtocolTheorems.SafeRun | app/service.py:7-13 | The whole invariant, link side and cancel side, is kept along every interleaving of webhooks, dispatchers, sweeps, operators, crashes and lost answers |
| Policy.RecoveredExactly | app/service.py:636-639 | A step makes a case recovered if and only if it is the first delivery of a success event that says the money is in (captured, order paid, or an authorisation marked captured) on a case still open |
| Policy.HeldExactly | app/service.py:640-644 | A step makes a case await capture if and only if it is the first delivery of an authorisation not marked captured, on an open case not awaiting already |
| Policy.PaidByLinkExactly | app/service.py:666-697 | A step makes a case recovered by its link if and only if it is the first report that its link, or none in particular, was paid, while the case has its link out or is with a human |
| Policy.ReversedExactly | app/service.py:551-604 | A step reverses a case if and only if it is the first delivery of a dispute or refund event and the case is neither stopped nor reversed |
| Policy.TimersEntered | app/service.py:946-964 | A step moves a case into cooldown only when the policy rules on it while its issuer is degraded, with deadline instant plus cooldown; into a scheduled retry only while healthy, with deadline instant plus escalation time, or out of cooldown by dispatch; into waiting for consent only for a failure the customer must mend, or out of a scheduled retry by dispatch |
| Policy.ParkingEntered | app/service.py:926-945 | A step parks a case for a human only for spent attempts, an unknown cause, a link that collected too much or will collect too little, or by dispatch; outside dispatch it stops one only for an opt-out or a risk |
| Policy.DecisionRuled | app/service.py:926-964 | The decision table read off the case it leaves: target, deadline and reason by opt-out, risk, attempts, cause and health, each target if and only if its condition holds |
| Policy.FailuresAreRuled | app/service.py:465-527 | What the first delivery of a failure leaves, row by row: new and timed cases learn the failure and go where the table says, cases being acted on only count it, closed ones are untouched, and no other row changes |
| Policy.SuccessesSettle | app/service.py:626-648 | What the first delivery of a success leaves, row by row, fields included; the draft is dropped exactly when a cancel is launched |
| Policy.LinkEventsSettle | app/service.py:650-702 | What the first delivery of a link event leaves, row by row: status, target, reason, deadline and flag for every kind and state |
| Policy.ReversalsSettle | app/service.py:529-609 | What the first delivery of a reversal leaves: its own case silenced, flagged, dated and reversed unless stopped; the same person's other cases silenced; everyone else's unchanged |
| Policy.ReopensAreRuled | app/service.py:847-922 | A reopen puts a case in manual review through the same table with no attempts counted, under the cause the operator names, leaves an entry in the audit trail, and touches nothing otherwise |
| Outcomes.CreateSettles | app/service.py:370-418 | A case still waiting for consent gets exactly the link answered, its status and one contact, or goes to a human with the reason the refusal gives; any other case is untouched; the create ends succeeded, failed or superseded accordingly |
| Outcomes.CancelSettlesRow | app/service.py:791-843 | A cancel's answer is written on its own case and its own action: status, flag, reason and draft by what was answered |
| Outcomes.PlanSettles | app/service.py:312-339 | A dispatch plan is carried out, field by field, if and only if the row is still the one it was made from |
| Outcomes.DraftSettles | app/service.py:455-463 | A draft is stored if and only if the case has its link out and still offers the link the draft was written for |
| Histories.MoneyIsExplained | app/service.py:626-702 | Over any run, every case that is recovered, awaits capture, is recovered by its link or is reversed has an earlier first delivery of an event that justifies exactly that, still claimed |
| Histories.StoppedForAReason | app/service.py:234-251 | In every reachable state a stopped case has a risk cause, or it or another case of its person is opted out |
| Histories.CreatesAreTriedOnce | app/store.py:540-567 | Over any run no create on record counts more or less than one attempt |
| Escalation.ElapsedRetries | app/service.py:211-227 | From any reachable state, a due scheduled retry taken by the timer pass waits for consent, without a deadline, if and only if its person may be written to; a spent budget or running cooldown without an opt-out sends it to a human; it is stopped only for an opt-out |
| Escalation.TimersEscalate | app/service.py:149-227 | From any reachable state the timer pass leaves each case it takes where the table of timers says, by the rows as the pass began, its rail's verdict and the slots left; no other case moves, and unless the batch is full every due case is taken |
| Escalation.LinksEscalate | app/service.py:156-164 | From any reachable state, each case the link pass of a tick takes is sent the link the provider answered, goes to a human or to its end by the refusal, or is left waiting, as the table of attempts says |
| Escalation.LinksTakeAll | app/service.py:156-164 | A link pass that got to its end without filling its batch took every case due a link |
| Escalation.SweepsSettle | app/service.py:728-789 | From any reachable state, the sweep of a tick asks the provider once more for each failed cancel it takes and writes the answer down, unless its link reads cancelled by its turn, when it closes the row and asks nobody; unless the batch is full no failed cancel with attempts left is passed over |
| Escalation.CheckSays | app/service.py:253-284 | The contact check on a row as it stands, in terms of the rows alone: own opt-out and cooldown first, then the person's opt-outs, links sent and contacts, each refusal if and only if its condition holds |
| LinkSafety.InvNext | app/service.py:341-418 | Every step keeps the link-creation invariant: row well-formedness, stale snapshots, the create ledger, the contact log, the customer budget and the cooldown |
| CancelSafety.CancelInvNext | app/service.py:706-843 | Every step keeps the cancellation invariant: attempts counted, one cancel in flight per key, payable links attended |
| LinkSafety.CheckLeavesRoom | app/service.py:253-284 | A passed contact check leaves room for one more link to that person and finds each of their earlier contacts cooled |
| LinkSafety.ContactSumCounts | app/store.py:470-479 | Summing raw contact counters over a person's cases counts exactly the cases that carry a link, so the cross-invoice budget is a lifetime bound |
| Effects.IngestIsTotal | app/service.py:112-131 | Ingest succeeds on well-formed rows, claims the event, keeps the rows well formed and moves cases only along edges |
| Effects.FailureEffect | app/service.py:468-527 | A failure event cannot fault; a new case leaves open by an edge, and links, contacts, create actions and positive amounts stand |
| Effects.SuccessEffect | app/service.py:626-648 | A success event cannot fault; cases move only along edges, and links, contacts and create actions stand |
| Effects.ReversalEffect | app/service.py:529-609 | A reversal cannot fault, not even by a version conflict with the opt-outs it writes itself |
| Effects.LinkEffect | app/service.py:650-702 | A link event in any order cannot fault and never moves a case off the table |
| Effects.CancelEffect | app/service.py:791-843 | Committing a cancel's outcome cannot fault |
| Effects.FlagCleared | app/service.py:829-841 | A cancel outcome clears the reconciliation flag if and only if the link reads cancelled and an earlier cancel had failed |
| CancelSafety.FlagsWhatStaysPayable | app/service.py:812-843 | A cancel outcome that leaves the link payable flags the case, and never changes its state or link id |
| Effects.ReversedCanLoseItsFlag | app/service.py:834-840 | The heal path clears the flag of a reversed case too: reversed does not imply flagged |
| Effects.ReopenEffect | app/service.py:847-922 | Reopen succeeds if and only if the case exists and is in manual review, and then keeps every row invariant |
| Effects.CommitStateEffect | app/service.py:312-339 | A dispatch decision is applied if and only if the case is still the row the decision was made from; otherwise nothing changes |
| ContactWindow.CounterNeverUnderCounts | app/models.py:269-281 | The constant-size counter never under-counts the contacts in the true sliding seven-day window |
| ContactWindow.WindowNeverExceedsMax | app/models.py:255-281 | If every contact passed the check, no seven-day window ever holds more than the maximum |
| Delivery.ExactlyOnce | app/service.py:112-131 | Any list of deliveries, with repeats, leaves store, health window and provider log exactly as its first occurrences do |
| Delivery.AllClaimed | app/store.py:323-336 | After a list of deliveries exactly their ids are claimed besides those claimed before, and the rows are well formed |
| Delivery.FirstsAreFirst | app/store.py:323-336 | The first occurrences name each unclaimed id exactly once |
| Serving.DeliveriesInTurn | app/service.py:112-131 | The service's own deliveries, one after another and calendar failures included in the model: with events whose instants and deadlines can be written, they leave store, health window and provider as the first deliveries alone do, and each caller is told exactly whether its event was new |
| Serving.ServedExactlyOnce | app/service.py:112-131 | The same for the fold of any list of deliveries: all repeats can be dropped |
| Serving.OnlyTriesMatter | app/service.py:112-127 | With no condition at all, deliveries of a claimed event or of an instant that cannot be written leave no trace |
| Serving.CommittedOnce | app/service.py:112-127 | An event is tried again only if its earlier try was rolled back: each event is committed at most once, whatever fails |
| Service.OutcomesCountOnce | app/service.py:468-469 | However often webhooks are redelivered, the health window's history grows by each new failure and success once, in order |
| Release.ReleaseControl | app/service.py:186-210 | Per tick and issuer/rail at most the quota is released however the database changes meanwhile, none while degraded, each with a deadline inside the jitter window after the escalation time |
| Release.ReleasesAreBudgeted | app/service.py:286-297 | The slots a tick has used for an issuer/rail are exactly the cases it released there |
| Release.ReleaseOffset | app/service.py:299-310 | The stable offset lies in [0, jitter), and is 0 when the jitter is under a second |
| Release.OnlyPlannedReleases | app/service.py:312-339 | Committing a plan changes no case but its own, and that one only to the planned state and deadline |
| Release.TickDrains | app/service.py:135-227 | On a healthy rail with everything parked due, a timer pass that covers the rail's batch releases min(quota, parked) cases and what it holds is due one jitter later, whatever then happens that parks and unparks nothing |
| Release.PassDrains | app/service.py:176-227 | Along the pass's own chain of commits the slots used are min(quota, parked cases seen), exactly that many cases left the parking, and rows not reached are untouched |
| Release.BacklogDrains | app/service.py:135-227 | With such ticks at least one jitter apart, N parked cases are gone after k ticks if and only if k * quota >= N |
| Ticks.ServiceTicks | app/service.py:135-174 | A service tick from a reachable state, whose timer pass found the rail healthy and took all its due cases (as it does whenever the batch is not full), is a tick of the draining theorems: its link pass and its sweep park, unpark and reschedule nothing |
| Ticks.RestOfTickStands | app/service.py:156-174 | After the timer pass, the rest of a tick leaves the same cases cooling down, each on its rail and with its deadline |
| Ticks.OutageDrains | app/service.py:135-227 | N parked cases of a healthy rail, all due, are gone after k ticks of the service if and only if k * quota >= N |
| Stamps.StampsCompareAsInstants | app/store.py:51-70 | Text order of two stamps is chronological order whatever the offsets and whether or not the fraction is written; equal stamps are equal instants |
| Stamps.IsoOrder | app/store.py:51-70 | Text order of two UTC ISO strings is the order of their calendar readings |
| Stamps.CivilOrder | app/store.py:51-70 | Calendar order is the order of microseconds since year 1, in the proleptic Gregorian calendar |
| Stamps.CivilOf | app/store.py:70 | Every instant of years 1 to 9999 has a calendar reading that names exactly it |
| Stamps.StampRoundTrip | app/store.py:787-792 | A stored stamp reads back as the instant it was written from |
| Rows.PayloadRoundTrip | app/store.py:757-793 | Decoding a stored payload gives back the saved case, field for field |
| Rows.ColumnsSelectByInstant | app/store.py:396-400 | The text comparison of the due query selects a row if and only if its case is due by instant |
| Rows.ColumnsOrderByInstant | app/store.py:400 | Ordering rows by their text columns orders the cases by instants |
| Rows.IndexedRow | app/store.py:232-238 | In a store kept by its operations every row's payload decodes to its case and its version, state, amount and customer columns agree with it |
| Store.RecoveryStore.ClaimEvent | app/store.py:323-336 | True exactly for the first claim of an id; the id is then claimed |
| Store.RecoveryStore.GetCase | app/store.py:341-351 | The decoded case of a key, or none |
| Store.RecoveryStore.InsertCase | app/store.py:405-423 | Adds a case under a new key, keeping the columns an index; refuses a key already there or an instant outside the calendar |
| Store.RecoveryStore.SaveCase | app/store.py:425-449 | Compare-and-swap on the version column: writes payload and columns together with the next version, or reports the conflict and writes nothing |
| Store.RecoveryStore.RecordAction | app/store.py:543-567 | Takes an action key once; a second record changes nothing |
| Store.RecoveryStore.ClaimAction | app/store.py:569-616 | Takes a new key, or a failed row with attempts left, counting the attempt; started and succeeded rows are never claimable |
| Store.RecoveryStore.CompleteAction | app/store.py:645-666 | Sets the status of an existing row, keeping its attempts; reports a missing one |
| Store.RecoveryStore.CustomerContactState | app/store.py:451-479 | Contacts, latest contact and opt-out over exactly the person's other cases |
| Store.RecoveryStore.OptOutCustomer | app/store.py:481-505 | Silences every other case of the person not yet silenced, moving its version on, and touches nothing else |
| Store.RecoveryStore.DueCases | app/store.py:365-403 | The first `limit` due cases in deadline order: sorted, all due, and any due case left out comes after every case taken |
| Queries.EarliestFirst | app/store.py:385-403 | A batch of due cases is in order of deadline, a case without one first, and none is taken while one due earlier is left out |
| Store.RecoveryStore.FailedCancels | app/store.py:618-635 | The oldest `limit` failed cancels with attempts left |
| Store.RecoveryStore.Metrics | app/store.py:507-539 | Grouping by the state and amount columns gives what a full scan of the decoded cases gives |
| Store.RecoveryStore.Rollback | app/store.py:308-311 | Restores exactly what the transaction began with |
| Queries.CountsAddUp | app/store.py:521-539 | With no case open or classified, the per-state counts add up to the total |
| Queries.LatestDecidesCooldown | app/service.py:282-284 | Testing the latest contact against the cooldown tests every one of them |
| Keys.KeyTextsAreDistinct | app/service.py:710 | Two actions share a key text if and only if they are the same action, for link ids without a colon and any logical keys |
| Keys.CancelCollides | app/service.py:710 | A cancel key text is a create key text if and only if the link id, after a colon, ends in payment_link:v1, and then of exactly one other case; never for a link id without a colon |
| Keys.ColonsCollide | app/service.py:710 | A concrete cancel key that is another case's create key |
| Keys.CreateKeyTextsAreDistinct | app/gateway.py:135-137 | Two recoveries share an idempotency key text if and only if reference and amount agree |
| Service.RecoveryService.Ingest | app/service.py:112-131 | Store, health window, provider calls and answer are exactly those of the delivery function: the transaction commits the model's result under the verdict read after feeding the window, hands on at most one cancel, asks for exactly that link and fails exactly as its commit does; a redelivery changes nothing; a run of the protocol, its log the calls made |
| Service.RecoveryService.IngestTransaction | app/service.py:115-127 | Commits exactly the modelled result or, on failure, nothing at all, the claim included; a newly claimed failure or success is fed to the health window exactly once, and the verdict is the window's after it |
| Service.RecoveryService.HandleFailure | app/service.py:468-527 | Feeds the failure to its issuer's window, and leaves the contents the model gives under the verdict that window then reads; deciding changes the window no further |
| Service.RecoveryService.RecordAttempt | app/service.py:611-624 | Counts the attempt and fills a missing amount, and preserves everything else |
| Service.RecoveryService.HandleSuccess | app/service.py:626-648 | Feeds the success to its issuer's window, leaves the modelled contents and hands on the claimed cancel of a live link; what those contents are is Policy.SuccessesSettle |
| Service.RecoveryService.HandleLink | app/service.py:650-702 | Leaves the contents the model of a link event gives |
| Service.RecoveryService.AfterLinkEvent | app/service.py:656-700 | The updated case is the model's, for every event type and state, final and unexpected ones included |
| Service.RecoveryService.HandleReversal | app/service.py:529-609 | Claims the cancel, silences the person's other cases and saves the reversed case, as modelled |
| Service.RecoveryService.ScheduleLinkCancel | app/service.py:706-726 | Claims a cancel for a live link and returns it, or changes nothing |
| Service.RecoveryService.ExecuteCancel | app/service.py:791-843 | Asks the provider once and commits its answer as modelled, or leaves the store as it was |
| Service.RecoveryService.Decide | app/service.py:926-964 | The policy decision under the verdict of the issuer's health window at that instant, which is the table of Policy.DecisionRuled |
| Service.RecoveryService.MayContact | app/service.py:253-284 | The refusal, or none, that the customer-wide check over all the person's cases gives |
| Service.RecoveryService.CommitState | app/service.py:312-339 | Applies a decision unless the case moved on; losing the race is no error |
| Service.RecoveryService.ClaimReleaseSlot | app/service.py:286-297 | Grants a slot if and only if the tick's quota for the issuer/rail is not used up, and counts it |
| Service.RecoveryService.PromoteTimedCase | app/service.py:176-227 | Commits the plan release control gives for the snapshot, or nothing when it is not due; where that takes the case is Escalation.TimersEscalate |
| Service.RecoveryService.CreateRecoveryLink | app/service.py:341-418 | Refusal, recorded intent, one provider call and outcome: the model's three phases; at most one create call |
| Service.RecoveryService.CommitLink | app/service.py:370-418 | Commits the outcome of a creation as modelled, which is Outcomes.CreateSettles, and cancels a superseded link |
| Service.RecoveryService.Reopen | app/service.py:847-922 | Re-decides a case in manual review as modelled, under the verdict of its issuer's window at that instant, or fails and leaves everything as it was; the window is at most read |
| Service.RecoveryService.StorePreview | app/service.py:455-463 | Stores a draft only if the case still offers the link it was written for |
| Service.RecoveryService.SweepOne | app/service.py:750-788 | Closes a row whose link reads cancelled, else claims it again and asks the provider once for exactly the link the row stands for, committing the answer it gave, else nothing; fails only on an instant outside the calendar or as the cancel's commit does |
| Service.RecoveryService.SweepPass | app/service.py:728-789 | Takes the oldest failed cancels in order, each row's outcome from what the one before left, to the end or to the first failure; the provider is asked for exactly the links of the rows claimed again, at most a batch, each answer its own, and the protocol's log grows by exactly those |
| Service.RecoveryService.TimerPass | app/service.py:149-154 | Takes the due batch in order, each turn committed before the next under the budget of release control and the health verdict of the tick's instant, to the end or to the first case that cannot be written; the health window is only read; a run of the protocol |
| Service.RecoveryService.LinkPass | app/service.py:156-164 | Takes the due consent batch in order, each attempt's outcome from what the one before left and from the provider's own answer, to the end or to the first failure; the calls made are exactly the creates of the attempts that got that far and the cancels of links no longer wanted, and the protocol's log grows by exactly those creates |
| Service.RecoveryService.DispatchDueActions | app/service.py:135-174 | The three passes in turn, each from what the one before left, until one stops; creates, cancels and keyed cancels at the provider are exactly those of the passes, their answers the provider's call by call, and the protocol's logs grow by exactly those; the health window is only read; a run of the protocol by one dispatcher |
| Ticks.TickWastesNoLink | app/service.py:156-164 | Within a tick no link is created for a case that no longer wants it, so the only links a tick asks to cancel are those it sweeps |
| Ticks.CallsAreBounded | app/service.py:341-418 | From a reachable state whose logs are the provider's, any mirrored run leaves the provider with at most one create per case and at most max(1, limit) calls per recorded cancel |
| Refinement.DeliveryLeads | app/service.py:112-131 | A delivery with its cancel is a webhook step followed by the return or the loss of that cancel |
| Refinement.TimerLeads | app/service.py:176-227 | A promotion is a plan step and a commit step |
| Refinement.CreationLeads | app/service.py:341-418 | A link creation is the steps check, intent, provider call, commit |
| Refinement.LostCreationLeads | app/service.py:341-418 | A creation whose outcome was lost is the same steps ending in a crash |
| Refinement.RetryLeads | app/service.py:780-786 | A swept cancel is a claim step and the return or loss of its answer |
| Refinement.RefusalLeads | app/service.py:342-345 | A refused contact check is a check step and the commit of the refusal |
| Refinement.ReopenLeads | app/service.py:847-922 | A reopen is an operator step |
| Refinement.ClosingLeads | app/service.py:757-767 | Closing a row whose link reads cancelled is two sweep steps |
| RunSafety.ReachableOn | app/service.py:7-13 | Whatever a service operation leads to from a reachable state is reachable, hence safe |
| Health.BankHealthMonitor.Observe | app/bank_health.py:101-106 | Appends, trims and, on time-ordered calls, keeps every key never evicted faithful to the full history; evicts nothing for a known key or below the cap, else exactly the least recently used |
| Health.BankHealthMonitor.FewKeysAreExact | app/bank_health.py:127-146 | While no more keys have been written than the cap allows, nothing has been evicted and every key's verdict is a recount of history |
| Health.BankHealthMonitor.SnapshotAt | app/bank_health.py:108-115 | On time-ordered calls, for every key never evicted: the attempts and successes are the numbers of those in history since now minus the window, and the verdict is degraded if and only if the attempts reach the minimum and the successes fall short of the rate times the attempts; no attempts count as the rate 1; reading creates no key |
| Health.BankHealthMonitor.WrittenIsRead | app/bank_health.py:101-115 | Reading the verdict of a key just written, at the same instant, changes nothing in the monitor, its least-recently-used order included |
| Health.BankHealthMonitor.PeekIsNaive | app/bank_health.py:108-115 | The trimmed window's attempts, successes and verdict are those of history since now minus the window |
| Health.OutcomesPullTheirWay | app/bank_health.py:108-115 | One more success at the same instant never makes a window degraded that has the minimum of attempts, and one more failure never heals a degraded one |
| Health.BankHealthMonitor.EvictIfNeeded | app/bank_health.py:144-146 | Drops exactly the surplus of least recently used keys |
| Health.BankHealthMonitor.Trim | app/bank_health.py:148-153 | Pops exactly the observations older than the window off the front |
| Health.BankHealthMonitor.Create | app/bank_health.py:127-142 | A write makes its key the most recent and disturbs no other window; it evicts nothing for a known key or below the cap, else exactly the least recently used key |
| Health.BankHealthMonitor.Restore | app/bank_health.py:79-92 | A fresh monitor fed the stored rows of the window, in any order among equal instants, is faithful to the whole stored history |
| Observations.ObservationLog.LoadObservations | app/store.py:711-720 | Selecting and ordering rows by their text timestamps yields exactly the observations made since the instant, in time order, decoded as they were recorded |
| Observations.ObservationLog.RecordObservation | app/store.py:705-709 | Appends the observation under its lower-cased issuer, or refuses an instant outside the calendar |
| Observations.Restart | app/bank_health.py:79-92 | A monitor restarted from the log gives the verdicts of a recount of everything ever stored |
| Health.RestartKeepsVerdicts | app/bank_health.py:79-92 | A restarted monitor and one that never stopped give the same verdict |
| Health.WithoutKeys | app/bank_health.py:140-141 | Moving a key to the end keeps the other keys and drops none |
| Choices.EachWakeDecides | app/sim/world.py:482-643 | Over any life, each wake-up of an open payment does what the table of its decision says, draw by draw: outcome, money, clocks, costs and draws used for waiting, retrying, asking and giving up; a closed payment stands |
| Choices.OptOutsAreEarned | app/sim/world.py:540-556 | A customer opts out in a life if and only if some wake-up asked them past their tolerance with a draw below the chance for that excess |
| Choices.SettlingLooksDaily | app/sim/world.py:579-594 | The tail an open payment is credited with is one look a day from its last look to the horizon, or to the first that finds a payment |
| WorldTheorems.EveryLife | app/sim/world.py:482-643 | For every policy and all draws: cost is 35 per attempt and 50 per contact; opted-out and risk-blocked payments never recover; dead instruments and cancelled mandates only by a link after a contact; funds and outage only once cleared; link recoveries within 24 hours of the accepted contact |
| WorldTheorems.ResolvedIsFinal | app/sim/world.py:484-485 | A resolved payment never changes again |
| WorldTheorems.LifeIsSound | app/sim/world.py:482-514 | Those facts hold after every prefix of every life |
| WorldTheorems.CreditIsElapsedTime | app/sim/world.py:412-433 | A payment left open is credited with exactly horizon - failed_at if its block clears by the horizon and 0 otherwise, and goes unpaid with the survival chance of that time, if and only if the policy did not give up exactly at the horizon with a tail still unlooked at |
| WorldTheorems.CadenceDoesNotMatter | app/sim/world.py:579-620 | Two policies that leave a payment open get the same credit and the same chance, however they poll or give up |
| WorldTheorems.ForfeitHappens | app/sim/world.py:506-511 | Giving up exactly at the horizon forfeits the time since the last look: a concrete life |
| WorldTheorems.LooksTelescope | app/sim/world.py:579-594 | Daily looks add up to the whole interval once the block has cleared and to nothing before |
| WorldTheorems.AbandonCredits | app/sim/world.py:492-511 | Abandoning credits the full time to the horizon if and only if it happens before the horizon, or nothing was left to look at |
| World.World.Apply | app/sim/world.py:482-514 | The action does to the payment and the draw stream what the model says, and touches no other payment |
| World.World.NaturalRecovery | app/sim/world.py:596-620 | One look, with one draw when the customer was free to pay and could |
| World.World.NaturalRecoveryOver | app/sim/world.py:579-594 | The stepping loop does what looking daily up to the end does |
| World.World.SettlePendingConsent | app/sim/world.py:564-577 | An expired link is dropped, a live one collects if consent and block allow, else nothing |
| World.World.ApplyRetry | app/sim/world.py:516-538 | A switch of instrument is refused without cost; a retry costs and succeeds as the hidden truth says |
| World.World.ApplyConsent | app/sim/world.py:540-562 | Contact, opt-out draw past tolerance, response draw and immediate settlement, in that order |
| World.World.SettleToHorizon | app/sim/world.py:412-433 | Every payment still open is looked at up to the horizon, one after another over one stream of draws; resolved ones stand; the count is of the payments newly recovered |
| WorldModel.SettledEach | app/sim/world.py:412-433 | Each payment of that pass ends as its own tail rolled with the draws left by those before it |
| Runner.Run | app/sim/runner.py:106-150 | The loop ends; its trace is a finished run: each pop the least entry waiting, each rate shown a recount over exactly the attempts made before, each decision the policy's on all it has been shown and told, each wake-up clamped and within the horizon; every payment ends as its share of the trace and its stretch of draws make it; the score is the tally of the ledger and balances |
| Runner.DrainQueue | app/sim/runner.py:116-143 | The queue loop drains, with the summed remaining minutes as its measure, and leaves every payment and the draws where the finished trace says |
| Runner.QueueFollows | app/sim/runner.py:139-143 | Popping the least entry and pushing its next wake-up is the trace's queue one turn on, nothing waiting is earlier than the pop, and the remaining work strictly falls |
| Runner.TakeTurn | app/sim/runner.py:117-143 | One wake-up: passed over past the horizon or when resolved, else shown, decided, applied, told and rescheduled as the trace's rules say |
| Runs.RunsAreDetermined | app/sim/runner.py:106-145 | World, draws and policy determine the run: two finished runs are the same trace |
| Runs.WaitsOnce | app/sim/runner.py:111-143 | At every point of a run each payment waits in the queue at most once, and not before its failure |
| Runs.TurnsSay | app/sim/runner.py:109-138 | Each turn of a run takes an earliest entry, of equal instants the first by name; shows the policy what was done so far and the failed share of the issuer's retries in the last hour, none from fewer than four; and wakes the payment as many minutes on as asked, at least one, unless it is closed, given up or past the horizon |
| Runs.PopsInOrder | app/sim/runner.py:116-143 | Wake-ups are handled in time order and nothing still waiting is earlier |
| Runs.SharesAreLives | app/sim/runner.py:116-143 | Each payment's share of a run is an ordered life within the horizon, so every theorem on lives applies to it |
| Runs.PoliciesAreCreditedAlike | app/sim/runner.py:145-149 | Two policies whose runs leave the same payment unrecovered and opted in, neither giving up exactly at the horizon, were credited with the same time and the same chance, however often they looked |
| Runs.RunsBalance | app/sim/runner.py:153-175 | A payment that started untouched ends any run with its cost accounted for, and never both recovered and opted out |
| Runner.IssuerHealth.FailureRate | app/sim/runner.py:94-103 | On time-ordered calls the trimmed rate equals a naive recount over the last 60 minutes, 0 below four samples |
| Runner.IssuerHealth.Note | app/sim/runner.py:91-92 | Recording an attempt keeps the deques faithful to all attempts made |
| Runner.Score | app/sim/runner.py:153-175 | The totals are the sums over the ledger, each payment once |
| Runner.BooksBalance | app/sim/runner.py:153-175 | Total cost is 35 per attempt and 50 per contact, and recovered and opted-out payments do not overlap |
| Gateway.RazorpayPaymentLinkGateway.CreatePaymentLink | app/gateway.py:115-146 | Whatever the network loses: between 1 and max_attempts calls, all with one key, retried only after transient failures; the answer is the last call's, delivered or disturbed; at most one link at the provider; the exact back-off slept |
| Gateway.RazorpayPaymentLinkGateway.Request | app/gateway.py:156-180 | After n calls it has slept exactly backoff * (2^(n-1) - 1); it stops early only on a success or a permanent error, and its outcome is what the last call's reply amounts to |
| Gateway.RazorpayPaymentLinkGateway.Attempt | app/gateway.py:182-211 | Classifies the reply; the provider carries the request out at most once per key |
| Gateway.FakeRazorpayGateway.CancelPaymentLink | app/gateway.py:85-93 | Cancelling is idempotent: asking again answers the same and counts nothing |
| Gateway.FakeRazorpayGateway.CreatePaymentLink | app/gateway.py:75-83 | Refuses non-positive amounts, else issues one new link |

## Left out

- HTTP routing, payload normalisation, header checks and the dashboard: field plumbing around `ingest`.
- The outreach copilot, the classifier providers and the lookup table of failure codes: network calls and fixed tables; the failure class of a code is an input.
- JSON text, uuid generation, blake2b and the random generator: records, fresh values, a total hash function and an arbitrary stream of draws.
- SQLite itself: transactions are serialisable and roll back on failure; locks, WAL, connection sharing, nesting depth and schema migration are not modelled.
- Equal deadlines and update times are ordered by the row id in the source, a random uuid; here by the logical key. Failed cancels with one creation time are in any order.
- Payment, order, subscription and invoice ids, short URLs, action metadata, audit notes, draft texts and creation times: stored and never decided on. A preview is a flag.
- Cases and budgets are values, not objects: the store decodes a fresh object on every read, so an update in place is never seen through another reference.
- Pruning of processed events: it forgets claims on purpose, so it is outside exactly-once delivery.
- The case objects operations hand back to their callers, logging, and the success rate quoted inside a reason text.
- The first half of an outreach preview (eligibility of the draft); only its commit is modelled.
- The outcome of the best-effort cancel of a superseded link: the provider may fail it, and no row is left to retry it.
- Reopen keys stamped with an offset other than UTC: `Keys.KeyTextsAreDistinct` speaks of UTC stamps, which is what the API passes.
- Bodies and headers of provider requests beyond the idempotency key, and the unkeyed retries of a cancel.
- Building the world's population and the real power behind the hazard: any population whose risk-blocked payments refuse consent, and any survival function; `WorldTheorems.CreditIsElapsedTime` assumes it memoryless, as the power is.
- Floating-point rounding: rates, chances and back-off are real numbers.
- Policies that draw at random or read a clock: a policy is any function of everything it has been shown and told so far. Failure codes and issuer messages, fixed per payment, are not in the observation.
- The observation rows inside the ingest transaction: the service feeds the window in memory, and `observations.dfy` models the rows apart, so that a rolled-back delivery drops its row while the window keeps the outcome is not stated.
- Rail names outside the known ones in stored observations: the store writes known rails only.
- The multi-seed statistics, reports, benchmark, corpus and bundled policies: floats, printing and tables.
- Agreement of the engine's and the world's ledgers: recoveries found when settling to the horizon never reach the policy, so it does not hold.
