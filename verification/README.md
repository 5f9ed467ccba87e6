# RelayTale: a verified model of the delivery core

RelayTale is an SMTP relay. Its main promise is that it never sends a message again on its own
when the remote side may already hold it. This project models the code that keeps that promise,
and the protocols around it, in Dafny 4.11, and proves what they guarantee over whole runs. Check
it with `dafny verify dfyconfig.toml`.

## How the model is built

- **One message is one value.** Every queue transaction locks the message row first, so a message
  with its recipients, attempts and attempt lines is a `Queue.Mail`, and each transaction has a
  guard and an effect on it (`Queue.dfy`). `QueueRuns.Run` is any interleaving of these
  transactions, with workers that crash (no `Finish`), lose an answer after a commit (`seen` is
  false) or keep transmitting after their lease was taken back (`Wire`). The clock is an integer
  that does not run backwards.
- **What a worker may report** is what its SMTP conversation produced. `SmtpClient.Send` walks
  the conversation against an arbitrary script of replies, losses, recorder failures and fence
  answers; `SmtpClient.Truthful` is what it guarantees, and `QueueFinish.Reports` hands that to
  the queue. Without this link the main theorem is false. `Repository.Deliver` composes the fence,
  the conversation, the body and the outcome, and proves the report legal; `QueueSafety.ReportsStay`
  keeps it legal through everything others do in between.
- **Every table of cases has a second, independent reading.** `Decide` is characterised by what the
  evidence means (`Delivery`), by the names the source compares (`ErrorNames`) and by what happened on
  the wire (`ClientPolicy`); the projection by the recipients alone (`QueueSafety.Shows`); an outcome by
  the stored decision (`QueueFinish.RowFollows`) and by the times of the next attempts (`QueueBackoff`);
  the guards by what a run shows (`QueueGuards`); the mark of a possible delivery by the attempts
  (`QueueDoubt`); a stored submission by its request
  (`Submission.StoredAsRequested`).
- **The invariant is passed along sealed** (`QueueInvariant.Sound`): run-level proofs carry it as
  one fact and `Unseal` it where they look inside.
- **Code that updates state in place** is a class: `Repository.Repository` (all messages and the
  provider's books), `Dispatch.Dispatcher` (whose turn it is), `Controls.ProviderControls`, `Submission.Submissions`,
  `Budget.SubmissionBudgets`, `Collector.Collector`, `Webhook.Outbox`, `Limiter.Limiter`. Each
  method is proved equal to a function of the old state, and the run theorems are about those
  functions. Byte and row loops are methods with loops (`SmtpClient`, `DataFraming`, `QueueRows`).
- **Model-only state**: `granted` and `body` on an attempt say what the worker was told and did;
  `retries` on a message are the acknowledged manual resolutions in its event ledger; `since` on an
  open circuit, `gaps` of the collector, `claims` of a webhook row, `jobOf` of the repository and the
  ghost fields of the dispatcher are history that the statements need. The column
  `next_attempt_at` is a sequence beside a run (`QueueNextAttempt`).
- **Quota rows are stamped no earlier than they are checked.** `reserved_at` defaults to
  `clock_timestamp()` at the insert (migrations/00006_provider_controls.sql:12,
  migrations/00016_website_budgets.sql:9), which comes after the check under the same lock. Both
  quota theorems rest on this and on nothing else about the order of stamps.
- SHA-256 and JSON encoding are injective; identifiers, tokens and hashes are numbers; addresses
  are opaque. A submission, a claim and a finish are each one atomic step, as their row locks make
  them.

## Findings

- **A recipient can be stranded for good.** When a server answers one RCPT with a code outside
  25x, 4xx and 5xx (say 354), admits another recipient, and the body is then sent without a
  negative final reply, `Decide` puts the first recipient in DELIVERY_UNKNOWN while its attempt line
  says otherwise, and `ResolveUnknown` refuses it forever. `QueueDeadEnd` proves exactly when this
  happens (`StrandedExactlyWhen`), that no transaction ever leads out (`DeadEndIsPermanent`), and
  that a run of enqueue, claim, fence, body and outcome gets there with whatever `Send` reports of
  such a conversation (`DeadEndWitness`, `SampleConversation`). Every other recipient in doubt can
  be resolved (`QueueProgress.ResolvableUnlessStranded`).
- `Schedule` requeues a row by `retry_at` without looking at its status. That is safe because of an
  invariant no line of code states: `retry_at` is set only on TEMP_FAILED rows (`RowOk`).
- `ResolveUnknown` with `retry` writes the route back to the last attempt's provider. In every
  reachable state this changes nothing (`QueueSteps.ResolveKeepsRoute`).
- A switch of provider is decided for the whole message, but a claim takes at most 16 recipients, so
  the others follow later, when the new provider is already the route and nothing is tested again.
  That is safe because whoever still waits was last tried on the route or left an earlier provider
  on recorded evidence (`QueueFailover.FailoverIsSafe`).
- A claim waits for `next_attempt_at <= now()`. In every reachable state that never delays it beyond
  the schedule (`QueueNextAttempt.DueMessageIsClaimable`).
- `recordFailover` can refuse a claim for incomplete evidence. In every reachable state the
  evidence is complete (`QueueSafety.FailoverEvidenceComplete`).

## Model

| member | source | states |
|---|---|---|
| `SmtpClient.Fail` | internal/smtpclient/client.go:49-82 | a failure settles exactly the open rows (admitted, or not yet answered), permanent on 5xx, unknown when uncertain and not refused, and leaves rows with their own RCPT rejection alone |
| `SmtpClient.Event` | internal/smtpclient/client.go:83-98 | a recorder failure ends the conversation exactly while no body can have been sent |
| `SmtpClient.Connect` | internal/smtpclient/client.go:99-222 | ready only over a greeted connection: TLS wanted, envelope and payload sound, name and address found, implicit TLS agreed, 220 and 250 heard; with a working recorder exactly then, and otherwise stage, class and code tell of the first thing that was missing |
| `SmtpClient.Authenticate` | internal/smtpclient/client.go:223-322 | goes on only after STARTTLS where configured (offered, 220, handshake, second EHLO 250), a login (offered, started, 235 after at most ten answered challenges) and 250 to MAIL FROM; with a working recorder exactly then, and otherwise stage, class and code tell of the first thing that was missing |
| `SmtpClient.Login` | internal/smtpclient/client.go:281-297 | the challenge loop lets the client in exactly when the server says 235 after at most ten rounds of 334, each answerable |
| `SmtpClient.Envelope` | internal/smtpclient/client.go:323-348 | after the RCPT loop every row says what its own reply said, and none was admitted exactly when all were refused; a lost reply ends before the body |
| `SmtpClient.Enumerate` | internal/smtpclient/client.go:323-362 | goes on to the fence only when every RCPT was answered and one recipient admitted; otherwise the result tells of the first lost reply, or that all were refused |
| `SmtpClient.Prepare` | internal/smtpclient/client.go:34-362 | up to the fence: every row is settled as the replies say; with a working recorder the fence is reached exactly when setup succeeded, every RCPT was answered and one recipient admitted, and otherwise the result names the first obstacle with its stage, class and code |
| `SmtpClient.Transmit` | internal/smtpclient/client.go:366-411 | once the body is on the wire every admitted recipient is accepted by a positive final reply, refused by a negative one, or unknown |
| `SmtpClient.Aggregate` | internal/smtpclient/result.go:41-65 | unknown if any row is, accepted if all are, partial if some are, temporary if one is and none accepted, else permanent |
| `SmtpClient.Send` | internal/smtpclient/client.go:34-412 | for every script: one final row per requested recipient, in order, and a summary that adds them up; truthful; a body that may have been accepted is never called failed; a body was sent only if every fact of setup, encryption, login, sender, envelope, fence and 354 holds; with a working recorder it was sent exactly then, and otherwise the result tells of the first of them that failed |
| `ErrorNames.ClassOfByName` | internal/smtpclient/client.go:462-493 | the class a failure gets has exactly the name that the classification builds from stage and error |
| `ClientPolicy.NoChannelMoves` | internal/delivery/decision.go:52-139 | a server that could not be reached at all is retried, and another provider may be tried |
| `ClientPolicy.BadGreetingStays` | internal/delivery/decision.go:52-139 | a server that does not want to talk is retried without leaving it; with a 5xx it goes to an operator |
| `ClientPolicy.LoginIsConfiguration` | internal/delivery/decision.go:52-139 | a login that broke or was deferred with 4xx is retried, any other failed login goes to an operator, and none lets the message move |
| `ClientPolicy.SenderRefused` | internal/delivery/decision.go:52-139 | after a refused MAIL FROM 4xx retries, 5xx fails for good, and a lost reply retries exactly if the peer cannot have gone on |
| `ClientPolicy.OwnReplyDecides` | internal/delivery/decision.go:52-139 | a recipient refused by name is settled by its own reply, whatever becomes of the others |
| `ClientPolicy.LostEnvelope` | internal/delivery/decision.go:52-139 | the same for a recipient without a reply of its own when another RCPT reply was lost |
| `ClientPolicy.RefusedData` | internal/delivery/decision.go:52-139 | an admitted recipient after a refused DATA: retried on 4xx, with leave to move, failed on 5xx |
| `ClientPolicy.DeniedByFence` | internal/delivery/decision.go:52-139 | an admitted recipient stopped by the fence is TEMP_FAILED and left to an operator, never failed for good |
| `ClientPolicy.FinalReplyDecides` | internal/delivery/decision.go:52-139 | once the body is on the wire only the final reply speaks: 2xx accepts, 4xx retries, 5xx fails, silence and anything else is doubt; none lets the message move |
| `ClientPolicy.SetupSample` | internal/delivery/health.go:8-33 | an unreachable or unwilling server counts as a failure of the provider |
| `ClientPolicy.LoginSample` | internal/delivery/health.go:8-33 | a refused login does not count, a deferred or broken one is a failure |
| `ClientPolicy.EnvelopeSample` | internal/delivery/health.go:8-33 | refused recipients and our own fence do not count; a refused DATA is a failure exactly on 4xx |
| `ClientPolicy.TransferSample` | internal/delivery/health.go:8-33 | after the body an acceptance is a success, a 4xx or a lost answer a failure, and a permanent refusal does not count |
| `SmtpClient.ConversationIsTruthful` | internal/smtpclient/client.go:34-412 | both endings keep the promise the queue relies on: acceptance needs a positive final reply, failure after the body needs a negative one, and recorded refusals are the server's own |
| `SmtpClient.UncertainBodyNeverRetried` | internal/delivery/decision.go:52-153 | where the remote side may hold the message the recipient ends accepted or unknown and Decide answers ACCEPT or DELIVERY_UNKNOWN for any budget; RETRY means no body, or a negative reply covering the recipient; ACCEPT exactly on a positive final reply |
| `SmtpClient.TruthfulRetry` | internal/delivery/decision.go:52-153 | for any truthful report: RETRY only from TEMP_FAILED and without doubt, ACCEPT exactly for accepted rows, failover only before a body, DELIVERY_UNKNOWN only after one |
| `SmtpClient.PreparationFailure` | internal/queue/worker.go:70-86 | a job that never reaches the client is reported truthfully without a body, and Decide hands every recipient to an operator |
| `Delivery.UncertainNeverRetried` | internal/delivery/decision.go:52-153 | uncertain evidence is never answered with an automatic retry |
| `Delivery.RetryNeedsTransientEvidence` | internal/delivery/decision.go:52-153 | the safety half: RETRY after a body needs a negative reply covering the recipient, failover needs that none was started, and giving up needs a 5xx |
| `Delivery.RetryExactlyWhen` | internal/delivery/decision.go:52-153 | RETRY if and only if the remote side can hold nothing, the budget is open, and the recipient was refused with 4xx, the login deferred with 4xx, or the provider had temporary trouble |
| `Delivery.PermanentExactlyWhen` | internal/delivery/decision.go:52-111 | given up if and only if nothing can be held and a 5xx says so: the own RCPT reply, or one for the message that is neither our fault nor an unwilling server |
| `Delivery.FailoverExactlyWhen` | internal/delivery/decision.go:103-138 | another provider if and only if the retry is for provider trouble that showed before any body: no name, no connection, no TLS, or DATA refused with 4xx |
| `Delivery.ManualExactlyWhen` | internal/delivery/decision.go:52-139 | everything else that cannot be held goes to an operator |
| `ErrorNames.SafeTemporaryByName` | internal/delivery/decision.go:140-153 | a failure is a safe temporary one exactly by its codes and by the beginning of the stored name of its class; a reset only before the body |
| `ErrorNames.ClassesByName` | internal/delivery/health.go:12-28 | the classes that count as setup and as provider failures are exactly those whose stored names begin so |
| `Delivery.OutcomeExactlyWhen` | internal/delivery/health.go:8-33 | a success is an acceptance; a failure is a deferred login, a connection that failed or broke, or a 4xx to the message |
| `Delivery.LeavingCountsAsFailure` | internal/delivery/health.go:8-33 | evidence that lets a recipient leave a provider counts against that provider; a recipient's own refusal does not |
| `Delivery.RetryDelayBounds` | internal/delivery/decision.go:112-138 | every product fits int64, and the delay is exactly 0.8 to 1.2 times min(4^(a-1) minutes, 12 hours) |
| `Delivery.JitterSpreads` | internal/delivery/decision.go:128-131 | every factor from 0.800 to 1.200 is reached by some hash |
| `Delivery.RetryDelaysGrow` | internal/delivery/decision.go:112-138 | a later attempt always waits strictly longer, whatever both seeds hash to |
| `Delivery.RetryStaysInWindow` | internal/delivery/decision.go:112-138 | a retry is granted only with attempts left and a started window, waits exactly the delay of its seed, and falls inside the 24 hours; without a retry there is no delay |
| `QueueSteps.EnqueueEstablishes` | internal/message/postgres.go:37-93 | a freshly enqueued message, suppressed rows included, satisfies the queue invariant |
| `QueueDelivery.ClaimKeeps` | internal/queue/repository.go:69-169 | a claim, with its batch, route and lease, keeps the invariant |
| `QueueDelivery.ArmKeeps` | internal/queue/repository.go:183-248 | the fence keeps the invariant, also when its answer is lost after the commit |
| `QueueDelivery.TransmitKeeps` | internal/queue/worker.go:61-100 | a worker that transmits, even after its lease was recovered, leaves the invariant intact |
| `QueueFinish.FinishKeeps` | internal/queue/repository.go:261-376 | recording a truthful outcome, with decisions, suppression resumes and the deadline, keeps the invariant |
| `QueueSteps.RecoverKeeps` | internal/queue/repository.go:377-445 | taking back an expired lease keeps the invariant: armed rows become UNKNOWN, others are requeued or handed over |
| `QueueSteps.ScheduleKeeps` | internal/queue/decisions.go:64-146 | scheduling keeps the invariant although it does not look at the status of a due row |
| `QueueSteps.SweepExpiredKeeps` | internal/queue/expiry.go:15-86 | expiry keeps the invariant |
| `QueueSteps.SweepSuppressedKeeps` | internal/queue/suppression.go:17-56 | the suppression sweep keeps the invariant |
| `QueueSteps.ResolveKeeps` | internal/queue/manual.go:28-127 | a manual resolution keeps the invariant |
| `QueueSteps.ResolveKeepsRoute` | internal/queue/manual.go:108-112 | the resolved attempt is the message's last and its provider is already the route |
| `QueueSteps.CancelKeeps` | internal/message/cancel.go:18-50 | a cancellation keeps the invariant |
| `QueueRuns.RunKeeps` | internal/queue/repository.go:69-445 | the invariant holds in every state of every run |
| `QueueSafety.NoSilentResend` | internal/queue/repository.go:69-445 | whenever a recipient is in two attempts, the earlier one ended neither accepted nor permanently failed; if the remote side may hold the message, or the attempt was left in doubt by its outcome or by a crash after arming, that very pair was released by an operator |
| `QueueSafety.ReleasesAreAcknowledged` | internal/queue/manual.go:28-127 | every released pair comes from an earlier ResolveUnknown retry with acknowledged duplicate risk, on an unlocked message, for its last attempt |
| `QueueSafety.AttemptsEndOnce` | internal/queue/repository.go:183-445 | between any two states: an attempt is armed at most once, a blocked one never, and it ends once, by its worker or by recovery, with lines that never change again |
| `QueueSafety.FenceIsExact` | internal/queue/repository.go:170-182 | SENDING, a held token and exactly one open attempt with that token are the same fact |
| `QueueSafety.EndedWorkerIsPowerless` | internal/queue/repository.go:170-248 | once an attempt has ended its token opens nothing in any later state: no fence, no arming, no outcome |
| `QueueSafety.ReportsStay` | internal/queue/worker.go:61-100 | a worker's report stays legal through every step of anybody else, until it is recorded |
| `QueueSafety.ArmingPassedEveryGate` | internal/queue/repository.go:183-248 | a step that arms an attempt is a fence call on a live lease, inside schedule and deadline, with no recipient of the attempt suppressed at that instant |
| `QueueSafety.GatesHold` | internal/queue/repository.go:183-248 | in every state an armed attempt satisfies schedule_at <= armed_at < expires_at, and a blocked one is unarmed, unsent and records neither acceptance nor doubt |
| `QueueFailover.FailoverIsSafe` | internal/queue/failover.go:11-39 | in every state of every run: at most three providers, one that was left is never tried again, and whenever a recipient's attempt is on another provider than its previous one, that previous attempt ended TEMP_FAILED with a failover decision for the recipient and put no body on the wire, in the first batch of a switch and in all that follow |
| `QueueFailover.RunMoves` | internal/queue/failover.go:11-39 | in every state everyone who still waits was last tried on the route or left an earlier provider on such evidence |
| `QueueFailover.SwitchCarriesNobodyNew` | internal/queue/failover.go:15-27 | the first attempt on a new provider carries only recipients whose previous attempt was on the provider just left |
| `QueueSafety.FailoverEvidenceComplete` | internal/queue/failover.go:40-80 | every recipient of a switching claim has an earlier attempt on another provider, so the evidence check never refuses |
| `QueueSafety.ProjectionAgrees` | internal/queue/decisions.go:45-60 | an unlocked, uncancelled message shows exactly the projection of all its recipients, and a claimable one has no recipient unknown or sending |
| `QueueSafety.ProjectionIsExact` | internal/queue/decisions.go:45-60 | in every state of every run a locked message shows SENDING, a cancelled one CANCELLED, and any other exactly what its recipients add up to, said over the recipients alone: in doubt, waiting, all alike, some accepted, some temporary, or failed |
| `QueueSafety.NextTerms` | internal/message/postgres.go:64-78 | no transaction changes the addresses, the schedule or the deadline of a message |
| `QueueSafety.CancelledNeverArmed` | internal/message/cancel.go:18-50 | once cancelled a message never changes again and no attempt of it was or will be armed |
| `QueueBudget.ManualIsExact` | internal/queue/manual.go:28-127 | the counter on a recipient equals the number of its acknowledged retries |
| `QueueBudget.AttemptBudget` | internal/queue/decisions.go:64-175 | attempt_count equals the attempts that carried the recipient and is at most 7 plus its acknowledged retries |
| `QueueBudget.ClaimsAreBounded` | internal/queue/repository.go:128-131 | a message of n recipients, each released at most c times, is claimed at most (7 + c) n times |
| `QueueDeadEnd.StrandedExactlyWhen` | internal/queue/decisions.go:18-43 | recording an outcome strands a recipient if and only if its RCPT reply was outside 25x/4xx/5xx, the body was sent and no negative final reply came |
| `QueueDeadEnd.DeadEndIsPermanent` | internal/queue/manual.go:65-72 | a stranded recipient stays so in every later state, and its message stays DELIVERY_UNKNOWN and is never attempted again |
| `QueueDeadEnd.DeadEndWitness` | internal/smtpclient/client.go:323-412 | whatever the conversation with a server that answers one RCPT with 354 reports, a run of enqueue, claim, fence, body and that outcome ends with the recipient stranded |
| `QueueDeadEnd.SampleConversation` | internal/smtpclient/client.go:34-412 | that conversation does end with the body sent and the stranding row |
| `QueueFinish.TruthfulOutcome` | internal/queue/decisions.go:18-43 | what a truthful row does to a recipient being sent: accepted and unknown stay so, a retry time appears only on TEMP_FAILED, and only without a body or behind a negative reply |
| `QueueFinish.RowFollowsDecision` | internal/queue/decisions.go:18-43 | the line stores what the worker reported with the policy's decision for it, or, behind a blocked fence, the suppression's (internal/queue/suppression.go:62-98); the recipient takes the status of that decision, is dated exactly when RETRY was decided and retries are on, by the end of the attempt plus the decided delay, and nothing else of it changes |
| `QueueBackoff.OutcomeIsObeyed` | internal/queue/repository.go:261-376 | in every run a recorded outcome leaves the attempt with the reported result, code and times, and every recipient as its stored decision says, unless the deadline has passed and ends it |
| `QueueBackoff.BackoffIsObeyed` | internal/queue/decisions.go:18-146 | in every state of every run the next attempt after a decided retry starts no earlier than the decided delay after the end of the last, which is 0.8 to 1.2 times 1, 4, 16, 64, 256 or 720 minutes by the number of attempts, and within 24 hours of the first |
| `QueueBackoff.RetryDateIsExact` | internal/queue/decisions.go:27-37 | in every state a waiting retry is dated exactly by the latest attempt of its recipient, and a requeued one was due |
| `QueueBackoff.WindowIsFixed` | internal/queue/repository.go:128 | in every state `retry_started_at` is the start of the recipient's first attempt; it never moves |
| `QueueDoubt.FlagIsExact` | internal/queue/expiry.go:15-26 | in every state of every run `may_have_delivered` is set on an accepted recipient, not on one that waits, is being sent, was refused, suppressed, withdrawn or settled by an operator, and on an expired one exactly when one of its attempts ended in doubt |
| `QueueDoubt.ExpiryForgetsNothing` | internal/queue/expiry.go:15-26 | in every state of every run a recipient that expired without that mark, or waits with no doubt in its history, is in no open attempt and no server can hold the message for it (retention relies on the mark, internal/operations/cleanup.go:38) |
| `QueueProgress.LapsedLeaseIsRecoverable` | internal/queue/repository.go:377-400 | in every state of every run a lapsed lease can be taken back |
| `QueueProgress.RecoveryReleasesEverybody` | internal/queue/repository.go:404-443 | in every state of every run recovery leaves nobody being sent: each recipient of the abandoned attempt ends unknown exactly when DATA was armed, else expired, handed over or requeued by deadline and budget, and one taken out by suppression stays out |
| `QueueNextAttempt.DueMessageIsClaimable` | internal/queue/fairness.go:11-14 | in every state of every run a queued message inside schedule and deadline with an eligible row has `next_attempt_at` due and can be claimed for any provider its route allows, for every allowance |
| `QueueNextAttempt.ColumnIsExact` | internal/queue/decisions.go:56 | in every state of every run `next_attempt_at` is empty once cancelled, no later than the clock or the schedule while queued, and otherwise, between attempts, the earliest retry deadline |
| `QueueNextAttempt.ScheduledExactlyWhenDue` | internal/queue/decisions.go:73-76 | a message that waits for a retry is scheduled exactly from the moment that column shows |
| `QueueProgress.ClaimTakesTheBatch` | internal/queue/repository.go:117-155 | after a claim exactly the chosen rows are being sent, each counted once more, and the new attempt names exactly them |
| `QueueGuards.ClaimTakesTheFirst` | internal/queue/repository.go:111-141 | a claim in a run takes between 1 and 16 takable recipients within its limit and leaves one only if the batch is full of earlier ones; the message is unlocked, due, unexpired and has nobody in doubt |
| `QueueGuards.SwitchMovesTogether` | internal/queue/failover.go:15-36 | a claim that changes the provider happens only with retries and failover on, goes to one never tried, and finds every unfinished recipient waiting for an automatic retry within budget and window |
| `QueueGuards.AttemptsAreTimely` | internal/queue/repository.go:117 | in every state every attempt started inside the schedule and before the deadline |
| `QueueGuards.FenceAnswers` | internal/queue/repository.go:170-248 | in every state the fence's answer to the worker of an attempt is exactly: lease lost, expired, suppressed or armed, by lease, ending, earlier answers, suppressed recipients and deadline, in this order |
| `QueueGuards.OutcomeIsAccepted` | internal/queue/repository.go:261-306 | in every state a worker's truthful report can be recorded if and only if its attempt is still open, lapsed lease or not |
| `QueueGuards.LiveLeaseIsSafe` | internal/queue/repository.go:377-400 | a worker loses its message to recovery only after its lease has lapsed |
| `QueueGuards.DueRetryIsScheduled` | internal/queue/decisions.go:64-76 | in every state with nobody being sent or in doubt a due retry makes its message schedulable |
| `QueueGuards.CancellableExactlyWhen` | internal/message/cancel.go:18-50 | in every state a message can be withdrawn if and only if it waits, nobody works on it and no attempt of it was ever armed |
| `QueueProgress.ScheduleRequeuesOnlyFailures` | internal/queue/decisions.go:64-146 | a row that scheduling requeues was TEMP_FAILED, due, within its budget and before the deadline, and no earlier attempt of it may have been delivered unless an operator released it |
| `QueueProgress.MaintenanceSettles` | internal/queue/expiry.go:50-86 | one pass of expiry, suppression and schedule leaves none of the three anything to do at that instant, in every state of every run |
| `QueueProgress.ResolvableUnlessStranded` | internal/queue/manual.go:65-96 | in every state of every run and for every verdict a recipient in doubt can be settled by an operator if and only if it is not stranded, and, for a retry, the risk is acknowledged, the archive available, the address not suppressed and the deadline ahead |
| `QueueProgress.ResolvedOnce` | internal/queue/manual.go:65-127 | after a verdict on a recipient and an attempt no later state of the run admits another on the same pair |
| `QueueProgress.VerdictSettles` | internal/queue/manual.go:73-127 | a verdict writes that recipient's status, clears its doubt and its date, counts a retry, and changes no other recipient and no attempt; only a retry releases the pair |
| `QueueProgress.WithdrawalIsFinal` | internal/message/cancel.go:18-50 | in every later state of the run a recipient that waited is CANCELLED and any other keeps the fact that ended it, which was no delivery |
| `QueueRows.SelectBatch` | internal/queue/repository.go:128-141 | the loop takes exactly the first `limit` eligible rows in identifier order |
| `QueueRows.SuppressRows` | internal/suppression/service.go:203-236 | the loop rewrites exactly the hit rows and reports a hit if and only if there is one |
| `QueueRows.ScheduleRows` | internal/queue/decisions.go:98-141 | the loop over due rows requeues or hands over exactly those, and leaves the rest |
| `QueueRows.RecordRows` | internal/queue/repository.go:307-347 | the row loop accepts exactly reports that name distinct recipients of the job with legal statuses, and then both tables hold what each row's decision says |
| `Repository.Repository.Claim` | internal/queue/repository.go:97-169 | for the chosen message and provider: claims exactly when some batch may be claimed within the allowance, writing message, attempt, reservation and probe together; otherwise nothing changes |
| `Repository.Repository.ArmData` | internal/queue/repository.go:183-248 | the stepwise fence equals its specification, answer included |
| `Repository.Repository.Transmit` | internal/smtpclient/client.go:366-380 | the worker of an attempt that was granted DATA puts the body on the wire, and nothing else changes |
| `Repository.Repository.Converse` | internal/queue/worker.go:78-91 | the conversation with the durable fence as its callback: truthful under exactly the fence's answer, the body on the wire only when granted |
| `Repository.ReportIsLegal` | internal/queue/worker.go:61-100 | a truthful conversation held under the fence's answer, or a job that could not be prepared, yields a report `Finish` accepts |
| `Repository.Repository.Finish` | internal/queue/repository.go:261-376 | for a worker's report: succeeds exactly when the fence, the policy checks and the rows allow it; then message and provider health change as specified, otherwise nothing does |
| `Repository.Repository.Deliver` | internal/queue/worker.go:61-100 | a worker's whole job from its assignment: prepare, converse, transmit and record, with the report proved legal and the message ending exactly as conversation and fence say |
| `Repository.Repository.RecoverOne` | internal/queue/repository.go:404-443 | one expired lease: message and abandoned probe are recovered together |
| `Repository.Repository.Recover` | internal/queue/repository.go:377-445 | recovers exactly the first twenty unlocked expired leases in the query's order; a batch that is not full leaves none behind |
| `Repository.Repository.Maintain` | internal/queue/decisions.go:64-146 | the schedule, expiry and suppression batches change exactly the first twenty unlocked messages with work in the query's order; a batch that is not full leaves none behind (scheduling: with retries on) |
| `Repository.Repository.ResolveUnknown` | internal/queue/manual.go:28-127 | applies the verdict exactly when the resolution is not stale and a retry is allowed |
| `Repository.Repository.CancelPending` | internal/message/cancel.go:18-50 | cancels exactly when nothing was or is being sent |
| `Repository.Repository.Enqueue` | internal/message/postgres.go:37-93 | adds the new message and nothing else |
| `Repository.LiveAttemptsBounded` | internal/queue/repository.go:99-106 | in the whole store, at every instant, the attempts with a live lease on a provider are at most its max_connections |
| `Dispatch.SelectMessage` | internal/queue/fairness.go:26-40 | the stream is the next one on the wheel with work, the message the oldest of that stream, and the new cursor the slot after it |
| `Dispatch.SelectProvider` | internal/queue/repository.go:88-95 | among the providers that would take the message, one it would move to comes before the one it is on, then priority, then identifier |
| `Dispatch.ReadyMeansClaimable` | internal/queue/fairness.go:11-25 | a message is ready exactly when some usable provider with an allowance could claim a batch of it |
| `Dispatch.Dispatcher.Claim` | internal/queue/repository.go:69-169 | one claim from the choice of owner, message and provider to the written batch and the new ticket and cursor; it takes nothing another transaction holds, with no foreign lock it finds work if and only if some message is ready, and otherwise it changes nothing |
| `Dispatch.Dispatcher.OwnersTakeTurns` | internal/queue/repository.go:162-164 | over every history of claims and arrivals, an owner with ready unlocked work is passed over fewer times in a row than there are owners |
| `Dispatch.Dispatcher.StreamsTakeTurns` | internal/queue/fairness.go:26-40 | and within an owner a stream with ready work is passed over at most total minus its weight times in a row |
| `Controls.ProviderControls.Admission` | internal/queue/controls.go:27-51 | the allowance is zero unless connections, both quotas and the circuit admit, and never more than the quantum |
| `Controls.ProviderControls.ReserveControls` | internal/queue/controls.go:53-81 | a start reserves its units and becomes the probe of an open circuit whose cooldown is over |
| `Controls.ProviderControls.FinishHealth` | internal/queue/controls.go:83-135 | a finish records its sample and moves the circuit as specified |
| `Controls.ProviderControls.RecoverProbe` | internal/queue/controls.go:137-150 | a recovered probe opens the circuit again without a failure sample |
| `Controls.RunKeeps` | internal/queue/controls.go:14-150 | connection, quota and circuit invariants hold in every state of every run |
| `Controls.ConnectionsBounded` | internal/queue/repository.go:99-106 | at every instant a provider has at most max_connections open jobs with a live lease |
| `Controls.ProviderQuotaHolds` | internal/queue/controls.go:12-16 | no hour and no 24 hours, wherever they end, hold more recipient units than the provider allows, though each check looks only at the window ending at its own start |
| `Controls.GroupQuotaHolds` | internal/queue/controls.go:18-22 | the same for the sum over all providers of a shared account |
| `Controls.BreakerHolds` | internal/queue/controls.go:24-81 | since an opening nothing was started on the provider, or only the probe, which is still running |
| `Controls.FailuresOpenTheCircuit` | internal/queue/controls.go:105-131 | a closed circuit opens exactly on at least five recent samples with at least half failures, and then nothing is admitted until the cooldown is over |
| `Controls.OnlyTheProbeDecides` | internal/queue/controls.go:113-131 | an open circuit is left only by a start after its cooldown, a half-open one only by its probe |
| `Controls.ProbeDecides` | internal/queue/controls.go:113-131 | in every state of every run the probe's outcome is legal and decides: a success closes the circuit at once and starts a new sampling epoch, anything else opens it for another minute |
| `Controls.SamplesAre` | internal/queue/controls.go:107-112 | the samples are the decided attempts of the provider in the last ten minutes that started since the circuit last closed |
| `Controls.HealthSwitch` | internal/queue/controls.go:24-33 | with the health check off the circuit neither refuses nor opens; with it on it refuses exactly while probing or open |
| `Controls.ProbeIsRecoverable` | internal/queue/controls.go:137-150 | a half-open circuit always has an open probe, and once its lease lapsed recovery opens the circuit |
| `Controls.ReopeningNeedsNewEvidence` | internal/queue/controls.go:107-131 | after a probe closed it, the circuit opens again only on at least five samples started after the closing, at least half of them failures |
| `RollingWindow.NoWindowOverdrawn` | internal/queue/controls.go:12-22 | if every reservation fitted the window ending at its own instant, no window anywhere is overdrawn |
| `RollingWindow.UsedIsWindow` | internal/queue/controls.go:12-22 | what a check counts is exactly the window ending at its instant, once every stamp is in the past |
| `Budget.Check` | internal/message/budget.go:33-107 | admits exactly when identity, times, both layers and the stream allow it, and otherwise gives a reason that holds |
| `Budget.SubmissionBudgets.Reserve` | internal/message/budget.go:33-107 | reserves exactly the admissible requests, whatever other identities have reserved, keeps every identity's and stream's windows within limits, and refuses with a reason that holds |
| `Budget.SubmissionBudgets.WindowsHold` | internal/message/budget.go:58-107 | after every history of reservations no minute, hour or day at any instant exceeds the identity or stream limit |
| `Fairness.WalkFinds` | internal/queue/fairness.go:11-41 | the lane with the least closed-form distance is the one a slot-by-slot walk of the weighted wheel meets first |
| `Fairness.SelectLane` | internal/queue/fairness.go:11-41 | the arithmetic choice is the walk's choice, and the next cursor is the slot after it |
| `Fairness.LaneNotStarved` | internal/queue/fairness.go:11-41 | a lane that stays eligible is passed over by at most total minus its weight consecutive claims |
| `Fairness.NobodyServedTwice` | internal/queue/repository.go:162-164 | while an owner stays eligible and unserved, no other owner is served twice |
| `Fairness.OwnerNotStarved` | internal/queue/repository.go:162-164 | so an eligible owner waits at most for one claim of each other owner |
| `Fingerprint.RequestFingerprint` | internal/message/idempotency.go:28-101 | yields the canonical document exactly for acceptable requests, the version raised by the latest feature used |
| `Fingerprint.CanonicalTags` | internal/message/business.go:21-33 | sorts the tags and refuses repetitions and more than eight |
| `Fingerprint.FingerprintIsIdentity` | internal/message/idempotency.go:28-101 | two acceptable requests have the same fingerprint if and only if they ask for the same thing: tags as a set, `normal` as the default stream, everything else equal |
| `Fingerprint.PlainRequestsKeepVersionOne` | internal/message/idempotency.go:22-26 | version 1, with no optional field, exactly for requests that use no later feature |
| `Submission.ValidKey` | internal/message/idempotency.go:121-128 | accepts exactly keys of 1 to 128 visible ASCII characters |
| `Submission.Submissions.EnqueueIdempotent` | internal/message/idempotency.go:114-196 | the transaction stores everything or nothing and answers as the relation `Submits` says: ledger, superseded message, both budgets, archive, rows and link, commit failures included; what it stores is exactly the request |
| `Submission.SubmissionStoresItsRequest` | internal/message/postgres.go:37-93 | an accepted submission, or one that changed anything, stored exactly its request: recipients in order, schedule and deadline as named, units charged, ledger entry and link; both times lie ahead, at most 30 days, the schedule first |
| `Submission.RequestIsHonoured` | internal/queue/repository.go:117 | over the rest of every run each recipient keeps the address it was given, no attempt starts before the schedule the request named, and none is armed at or after its deadline |
| `Submission.WithdrawMeans` | internal/message/cancel.go:52-73 | a withdrawal takes effect exactly for the caller's own cancellable message; each refusal says exactly why, and asking again is no error |
| `Submission.Submissions.CancelPending` | internal/message/cancel.go:52-73 | stepwise, it leaves the store and answers as `Withdraw` says: the caller's own cancellable message is cancelled, or nothing changes |
| `Submission.OneKeyOneMessage` | internal/message/idempotency.go:140-158 | after an accepted submission every later one under its key gets the same message when it asks for the same thing, a conflict exactly when not, and changes nothing |
| `Submission.UncertainCommitIsFound` | internal/message/idempotency.go:103-107 | a commit whose success the client never saw is answered by its retry with the stored message |
| `Submission.QuotaChargedOnce` | internal/message/idempotency.go:172-174 | every ledger entry was charged exactly once, and there are no other charges |
| `Submission.QuotaWindowsHold` | internal/message/budget.go:58-107 | in every state of every run of submissions the charged rows keep every minute, hour and day of every identity and stream within its limit |
| `Submission.SupersededAtMostOnce` | internal/message/cancel.go:29-34 | no message is superseded by two messages |
| `Submission.SupersededNeverArmed` | internal/message/cancel.go:15-50 | a superseded message is armed in no state of the run, before or after |
| `Submission.OnlyTheLastIsArmed` | internal/message/idempotency.go:159-171 | in a replacement chain of any length only the last message is ever armed for DATA |
| `Collector.Collector.Collect` | internal/feedback/collect.go:53-180 | success puts the checkpoint at the end of the window with every listed message receipted, each with the receipt its fetch deserved; every exit keeps the coverage and the quotas and moves the checkpoint back only with the epoch |
| `Collector.Collector.Initialize` | internal/feedback/collect.go:181-234 | opens the source exactly when identity, capacity and epoch allow it; an unaccepted epoch only raises an alert |
| `Collector.OpenExactlyWhen` | internal/feedback/collect.go:181-234 | a source is opened exactly when the mailbox is the known one, a record is left, and the epoch is the known one or the one accepted; a new epoch starts at its beginning and keeps every receipt |
| `Collector.Collector.Alert` | internal/feedback/collect.go:235-269 | an alert is recorded once and counted once |
| `Collector.Collector.SaveAll` | internal/feedback/collect.go:128-160 | commits the listed messages in UID order, each with the receipt its fetch deserved, and stops at the first failure without skipping one |
| `Collector.SaveKeeps` | internal/feedback/collect.go:270-315 | a saved message keeps coverage, one receipt per UID and epoch, records = receipts + alerts, and stored bytes = imported bytes within their caps |
| `Collector.CheckpointKeeps` | internal/feedback/collect.go:161-179 | the checkpoint may move to the window's end once the rest of it is known absent |
| `Collector.OpenKeeps` | internal/feedback/collect.go:205-228 | re-accepting an old epoch restarts its walk without losing or duplicating a receipt |
| `Collector.Inspect` | internal/feedback/collect.go:128-152 | imports exactly complete bodies of the reported size, and stops on a failed or mismatched fetch |
| `Collector.SortByUid` | internal/feedback/collect.go:122 | sorts the metadata and keeps its elements |
| `Collector.CheckMetadata` | internal/feedback/collect.go:123-127 | accepts exactly windows without repetition, strays or negative sizes |
| `Ownership.RunKeeps` | internal/database/ownership.go:45-341 | locks, checks and rows stay consistent in every interleaving with session loss anywhere |
| `Ownership.OfflineStandsAlone` | internal/database/auxiliary.go:22-110 | an offline row never coexists with an auxiliary row (nor, one row being the limit, with a runtime row), and each slot has one row |
| `Ownership.OfflineIsAlone` | internal/database/ownership.go:232-283 | while an offline session lives no other session is admitted or owns |
| `Ownership.OwnerRemoval` | internal/database/ownership.go:150-341 | the owner row disappears only through its own session, or through a stale release when that session is dead |
| `Ownership.AuxRemoval` | internal/database/auxiliary.go:133-170 | the same for each auxiliary row, which never changes in place |
| `Ownership.RuntimeAcquires` | internal/database/ownership.go:45-111 | an undisturbed runtime becomes owner exactly when nobody works offline, the runtime lock is free and no owner row is left; otherwise it changes no row |
| `Ownership.OfflineAcquires` | internal/database/ownership.go:232-283 | undisturbed offline work begins exactly when nobody is admitted to anything, the runtime lock is free and no row is left; otherwise it changes no row |
| `Ownership.AuxiliaryAcquires` | internal/database/auxiliary.go:45-110 | an undisturbed auxiliary process gets its slot exactly when nobody works offline, its lock is free and nobody has the slot; otherwise it changes no row |
| `Ownership.StaleAuxiliaryIsReleased` | internal/database/auxiliary.go:133-170 | an operator's release removes the named auxiliary row exactly when nobody works offline, the row is there and unlocked, and its owner's lock is free |
| `Ownership.StaleOwnerIsReleased` | internal/database/ownership.go:302-341 | an operator's release removes the named owner row exactly when nothing else is running and that row is there |
| `Ownership.OwnersKeepTheirRows` | internal/database/ownership.go:114-145 | a session that owns still has its row |
| `Limiter.Splice` | internal/resource/limiter.go:54-59 | the loop removes exactly the caller's request |
| `Limiter.Limiter.Enter` | internal/resource/limiter.go:38-50 | refuses what can never fit and queues the rest |
| `Limiter.Limiter.Poll` | internal/resource/limiter.go:51-85 | one turn of the waiting loop: cancelled, granted to the fitting head, or asleep on the open channel |
| `Limiter.Limiter.Release` | internal/resource/limiter.go:88-98 | only the first call releases |
| `Limiter.RunKeeps` | internal/resource/limiter.go:38-100 | in every interleaving: use equals the unreleased grants and stays within the limits, waiting equals the queue, grants follow arrival order, nobody sleeps on the open channel when its turn has come |
| `Limiter.HeadIsServed` | internal/resource/limiter.go:51-75 | in every state the head is granted on its next turn exactly when its request fits beside the grants still held; it is then awake, with nothing held it always fits, and nobody else is granted |
| `Limiter.PeakIsExact` | internal/resource/limiter.go:79-84 | the recorded peaks are the highest use any state showed |
| `Webhook.Outbox.ClaimNext` | internal/webhook/worker.go:27-68 | retires the first exhausted rows, at most 100, then claims the unlocked row due longest, or none when there is none |
| `Webhook.Outbox.Sweep` | internal/webhook/worker.go:42-50 | the loop retires exactly the specified rows |
| `Webhook.RetireFirstRows` | internal/webhook/worker.go:42-50 | every row the sweep touched was retirable, unlocked and of the endpoint, and took exactly one retirement; no other row moved |
| `Webhook.Outbox.Finish` | internal/webhook/worker.go:69-98 | changes the row exactly when the claim still owns it |
| `Webhook.Outbox.Replay` | internal/webhook/manage.go:13-34 | requeues exactly a dead row of the named generation |
| `Webhook.GenerationsAreBounded` | internal/webhook/worker.go:27-98 | over every run each generation has at most 8 sends, a minute or more apart, and at most one terminal entry; acknowledged exactly when delivered |
| `Webhook.BackoffDoubles` | internal/webhook/worker.go:76 | the pause grows strictly from one minute to at most 64 minutes and 15 seconds, whatever the jitter |
| `Webhook.PausesAreKept` | internal/webhook/worker.go:69-98 | over every run a send that follows a failure comes no earlier than 1, 2, 4, up to 64 minutes after it by the number of the attempt, and every send before the deadline of its generation |
| `Webhook.LiveClaimSettles` | internal/webhook/worker.go:69-98 | while its lease lives the newest claimant's success delivers for good, and its failure waits for the pause of the attempt or ends the generation at the eighth |
| `Webhook.NothingIsStuck` | internal/webhook/worker.go:42-56 | in every state of every run a row nobody works on can be retired exactly when attempts or time are used up, and else claimed exactly when its pause is over |
| `Webhook.ReplayRenews` | internal/webhook/manage.go:13-34 | a replay gives a dead row a new generation with a whole budget, claimable at once |
| `Webhook.DeliveredForever` | internal/webhook/worker.go:69-98 | a delivered row is the same in every later state |
| `Webhook.DeadUntilReplayed` | internal/webhook/manage.go:13-34 | a dead row is the same in every later state until a replay opens a new generation |
| `Webhook.StaleClaimIsPowerless` | internal/webhook/worker.go:82-90 | a claimant that was overtaken, has finished, or whose lease has lapsed changes nothing, and then the row can be claimed or retired |
| `DataFraming.ValidateCanonical` | internal/smtpclient/stream.go:30-63 | accepts exactly payloads that arrive in full and are CRLF-canonical, for every division into reads |
| `DataFraming.AcceptUpload` | internal/message/api_receive.go:113-148 | the intake loop, with its limited reader, size test, line test and last-byte test, accepts exactly payloads that arrive in full, fit the limit and are CRLF-canonical, for every division into reads |
| `DataFraming.SameLanguage` | internal/message/api_receive.go:115-148 | the intake automaton and the outbound one, which keep different variables and end on different tests, accept the same payloads |
| `DataFraming.StreamData` | internal/smtpclient/stream.go:67-107 | the wire bytes are the stuffed payload and the end-of-data line, independent of chunking; a failing source or writer leaves a proper prefix of them and is reported |
| `DataFraming.RoundTrip` | internal/testsmtp/server.go:224-239 | the receiver rule of section 4.5.2 of RFC 5321 recovers the exact payload and stops exactly at its end |
| `DataFraming.NoEarlyEnd` | internal/smtpclient/stream.go:65-107 | no proper prefix of the frame is taken for a complete message |
| `DataFraming.BrokenStreamNeverEnds` | internal/smtpclient/stream.go:65-107 | a stream that failed anywhere, in the source or in the writer, is never taken for a complete message |

## Left out

- Repository.Repository.Claim: message and provider are arguments here; `Dispatch.Dispatcher.Claim` chooses them.
- Dispatch.Dispatcher.Claim: which providers are enabled, encrypted and allowed for a sender's domains is an argument, as are the rows other transactions hold.
- Repository.Repository.Recover: the sort keys of the listing query are not modelled; its order is an argument that lists every message once.
- Repository.Repository.Maintain: as above.
- Repository.Repository.Finish: requires a worker's report (`Reports`); `Repository.Repository.Deliver` proves it of every job it runs.
- `completed_at`, `last_error`, event and audit rows: no transition depends on them, except manual resolutions and failover evidence, which are modelled.
- SMTP response text, enhanced codes, redaction, timings, SASL, TLS and DNS internals, and the probe mode of the client: a reply is a code, a failure is a class.
- `Record` (live event recording): its fence is `Queue.Fenced`; the rows it writes change no state.
- Adding and releasing suppression entries: the active set is an argument of each step.
- The sandbox environment: only production messages are modelled.
- Changes of limits, group membership and health switches while running: they are constants of a run.
- Ownership before its tables exist, heartbeats, and reuse of a backend process id.
- DataFraming.StreamData: a failing writer is a byte budget; buffering inside the writer is not modelled.
- Submission.Submissions.EnqueueIdempotent: publishing of the archive and the capacity for scheduled messages are arguments, as is the fate of the commit; the replay pre-check that the HTTP intake makes before it reads an upload is not modelled.
- The collector's source lock, name syntax and timeouts: one collector at a time per source is taken from the lock; a fetched body is its size.
- The webhook's HTTP exchange and endpoint switches: a result is success or not, eligibility is an argument.
- Limiter.RunKeeps: limits are not negative, as in every configuration of the process.
- Message archives, MIME inspection, credentials, HTTP routing, the console, retention, backup and configuration: outside the core.
- Transaction isolation is modelled as atomic steps, justified by the row locks each transaction takes first.
