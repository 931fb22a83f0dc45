# IntelliOps: proofs about the stateful core

IntelliOps watches telemetry, groups anomalies into situations, diagnoses them, runs playbooks on a
Kubernetes cluster, learns from the outcomes and shows all of it on a console. This project models the
parts of it that keep state across crashes, threads and long event streams, and proves what they promise.
HTTP, Kubernetes, language models and the databases are outside: their answers are parameters.

| Files | What they model |
|---|---|
| `Delivery`, `DeliverySafety`, `DeliveryOrder`, `DeliveryTheorems` | Redis stream, consumer group, guard and any number of consumer threads as one step machine; every call may be lost on the way out or on the way back |
| `Deployment`, `ActionConsumer` | the same as objects: one method per command, and the three nested loops of the action consumer, whose every call is proved to be that machine's step with the fate laid down for it |
| `Projection`, `ReadModel`, `CardHistory`, `Confluence` | the console's read model as a fold, as the object that is updated in place, what each card, title and row shows told from the messages alone, and the order-independence of the fold |
| `Streams`, `Rebuild`, `Handover`, `RebuildTheorems` | the Redis server as a rebuild meets it, command by command; the cold-start rebuild: paging, shadow model, handover of the group, with publishers appending and commands refused or lost in between; and what the rebuilt console then shows, next to one that never restarted |
| `Correlation`, `CorrelationEngine`, `CorrelationTheorems`, `CorrelationWindows` | the windowed correlation engine, and which events share a window, told from their service labels |
| `Statistics`, `Detection`, `RobustCorrelator`, `Verification` | median and MAD, the anomaly rule, the robust detector, and the check made after a fix |
| `Evidence`, `Eligibility`, `Feedback`, `FeedbackHistory`, `Redelivery`, `QuietHandling` | what counts as a track record, when a suppressed signature has a playbook that may run unasked, who graduates and who is demoted, how far one redelivered outcome counts, and who may run without asking |
| `Remediation` | gates, Kubernetes steps, rollback |
| `MemoryGuard` | the process-local idempotency guard against an unbounded one |
| `AgentStream`, `RunStream` | streaming a drafting run's trace to a browser |
| `Ranking` | root-cause ranking |

Code that changes things step by step is a class with methods whose contracts tie the new state to a
function of the old one; the theorems are lemmas about that function, or about all runs of it.

## What is proved, in short

- However threads crash, race and are redelivered, a remediation starts at most once per occurrence; an
  acked diagnosis has its outcome published or was parked; nothing delivered is lost; entries are completed
  in stream order; one bounded drain pass recovers everything a consumer was working on. The program's own
  loops make exactly that machine's steps, and one turn whose calls go through answers all that was pending.
- Every interleaving of the four console topics gives the same cards, feed and counter as replaying them
  topic by topic, as long as no incident recurs. An outcome commutes with a detection of its incident
  exactly when the incident has a card, the detection opens no newer occurrence, and a detection of the
  occurrence shown names the service shown.
- Over any messages in any order a card repeats the last report that was not late, is finished exactly if an outcome
  settled the occurrence it shows, and then repeats the last such outcome.
- A rebuild returns a model exactly if every topic was read to its end, none was too long, and no takeover was
  cut off by a lost connection. An undisturbed one hands every entry it owes to exactly one of shadow model and
  live tail, in order, whatever publishers append meanwhile, with one exception whose condition is exact.
- The correlation engine neither loses nor repeats an anomalous event, and treats each key as a
  single-bucket engine would. Grouped by service, a window holds the events of one service, or of none.
- More than half of a warm window decides the detector's verdict whatever the rest is; the check after a
  fix agrees with the detector, with the exact exceptions stated.
- Automation expands only on a clean record, is taken back once for every unattended failure, and nobody is bypassed
  without a record. Whether suppressing a
  signature guarantees a playbook that may run unasked is decided by the run counts alone.
- A client of a drafting run misses at most one step, and exactly if it read the store in between that
  step's publishing and its storing.

Where the code does less than its comments say, the exact condition is a theorem:

- `services/read/rebuild.py:41` relies on topic order alone, but an outcome does not say which occurrence
  it closes: `Confluence.RecurrenceBreaksReplay`.
- The topics are paged one after another (`services/read/rebuild.py:114`) while publishers append, so an
  outcome can be replayed although its incident came too late for its own topic. The shadow drops that
  outcome and the card stays open for good: `RebuildTheorems.RebuildCanLoseAnOutcome`; exactly then does the
  rebuilt console differ: `RebuildTheorems.RebuildMatchesLive`.
- `services/read/rebuild.py:171` calls the replay authoritative for what it acks, but pending entries
  older than the window are acked without having been shown: `Handovers.PendingIsShownIffInWindow`,
  `Handovers.PendingCanBeDropped`.
- `services/read/rebuild.py:92` promises a plain cold start on a lost connection. A takeover is several commands,
  and the connection may be lost after the one that moves the group: then what was read is on neither console.
  It is a plain cold start exactly if no command that moves a group or acks an entry arrived:
  `Handovers.PlainColdStartIff`; the failing run is `Handovers.LostReplyLosesEntry`.
- `services/read/rebuild.py:164` says that the group is never moved backward; it is, exactly if asking for its
  position is refused (`services/read/rebuild.py:68` then reads it as absent) and it stood further on:
  `Handovers.MovedBackIffRefused`.
- With no group yet and nothing in the window, the tail repeats all older history; that is the one case in
  which replay and tail together are not what is owed: `Handovers.RebuildDivides`.
- `services/governance/app.py:602` promises that nothing is lost between subscribing and replaying. One step
  can be, and exactly when is `AgentStream.MissedIffNotYetStored`; and the ended check can cut the end off:
  `AgentStream.EndedStreamIsWholeIffNothingWaits`, `AgentStream.CutCanHappen`.
- A redelivered outcome is recorded, and counted towards a graduation, once more for every time it is handled
  (`services/feedback/consumer.py:44`): how far is `Redelivery.GraduationOnTheBus`, and that one outcome can be
  enough is `Redelivery.OneOutcomeCanGraduate`.
- Correlation suppresses on a signature's record, action waives on a playbook's (`common/evidence.py:65`): a
  suppressed signature may have no playbook to run unasked. Exactly when that is excluded is
  `Eligibility.GuaranteedIff`.
- A latency that fell far below its baseline is flagged by the detector and found healthy by the check:
  `Detection.LatencyVerdictsAgree`, `Detection.LatencyDropIsMissed`; for thresholds of six or more a step off a
  flat line can be, too: `Detection.ScoreOnlyVerdictsAgree`, `Detection.FlatStepIsMissed`.
- Grouped by service, an unlabelled event and one of a service called "unknown" share a bucket
  (`services/correlation/engine.py:95`): `CorrelationWindows.UnknownIsShared`; windows are single services exactly
  while no two events clash so: `CorrelationWindows.SharedByServiceIff`.
- A scaling is clamped to one to ten replicas (`services/action/adapters/k8s_remediator.py:112`), so a step that asks
  for more takes a larger deployment down; exactly when a scaling moves against its delta is
  `Remediation.ScalesAgainstDeltaIff`.
- `replicas or 1` turns a count of zero into one, so a rollback restores exactly only from one upwards:
  `Remediation.RolledBackMeansRestored`. A ROLLED_BACK run that scales one way only leaves the count its own
  steps walk to: `Remediation.OneWayRolledBack`, `Remediation.ScaledUpAndRolledBack`.

## Model

| member | source | states |
|---|---|---|
| DeliveryTheorems.AtMostOneRemediation | services/action/consumer.py:115-202 | over every schedule of crashes, lost replies, redeliveries, re-emitted diagnoses and racing consumers, a remediation is started at most once per (situation id, first_seen) |
| DeliveryTheorems.ConclusiveReportsAreUniqueAndTrue | services/action/consumer.py:130-202 | an occurrence is reported as run or escalated at most once, and as run exactly if a remediation was started for it |
| DeliveryTheorems.NoAckBeforeOutcome | common/bus.py:160-166 | under at_least_once an acked diagnosis was parked, or its handler (or that of a copy of the same message) finished and an outcome for its occurrence was published |
| DeliveryTheorems.NothingLost | common/bus.py:88-115 | a delivered entry is pending or acked, never both; under at_least_once no consumer ever has two entries pending |
| DeliveryTheorems.RecoveryCompletes | common/bus.py:124-132 | from any reachable state one undisturbed pass of a consumer acks all it had pending, within a fixed number of calls, if each entry decodes or can be parked |
| DeliveryTheorems.EveryPendingDiagnosisIsAnswered | common/bus.py:104-132 | however a run has gone, that pass answers every diagnosis the consumer still had pending: with an outcome, or by parking it |
| DeliveryTheorems.PoisonIsNeverAcked | common/envelope.py:62-76 | the proviso is needed: with the DLQ off, an undecodable entry is never acked |
| DeliveryTheorems.YieldsInStreamOrder | common/bus.py:124-166 | under at_least_once a consumer is handed entries in stream order across restarts and reconnects |
| DeliveryTheorems.CompletionsInStreamOrder | common/bus.py:124-166 | so first completions happen in stream order: when a handler comes to its end, everything else its consumer was ever handed lies before that entry and is settled |
| DeliveryTheorems.RedeliveryIsBounded | common/bus.py:141-159 | with the DLQ on, one entry is handed out at most max_delivery_attempts times, over any number of crashes |
| DeliveryTheorems.ParkedOnlyAfterTooMany | common/bus.py:145-157 | and none is given up early: an entry that decodes is parked only if its deliveries were counted more often than max_delivery_attempts |
| DeliveryTheorems.DeliveredAtMostOnce | common/bus.py:137-140 | in the default mode no entry is handed out twice, and none before its ack |
| DeliveryTheorems.RunIsSound | common/bus.py:80-176 | every reachable state keeps all the invariants the delivery theorems rest on |
| DeliverySafety.ClaimsKeptByStep | common/idempotency.py:122-130 | every step keeps: started and concluded occurrences are claimed, claims have one owner, and an owner has not been anticipated |
| DeliverySafety.DrainReadsAll | common/bus.py:124-128 | with at most one entry pending, the single bounded drain read returns exactly what is pending |
| DeliverySafety.PendingKeptByStep | common/bus.py:124-176 | every step keeps: delivered entries are accounted for, and a thread has pending at most the entry in its hand |
| DeliverySafety.OutcomesKeptByCall | services/action/consumer.py:129-202 | every call keeps: the guard says done only for what was announced or finished, and only settled entries are acked |
| Deployments.Deployment.OthersAct | common/bus.py:80-176 | all the steps laid down for the other threads and publishers are taken, in order, and this thread's position stays |
| Deployments.Deployment.ReadPending | common/bus.py:124-128 | the drain read returns the first batch this consumer has pending and changes nothing at the server |
| Deployments.Deployment.ReadNew | common/bus.py:129-132 | returns the next undelivered entry, none only at the end of the stream; the entry is pending for this consumer as soon as the request arrives, even if the reply is lost |
| Deployments.Deployment.AckEntry | common/bus.py:137-164 | once the request arrives the entry is acked and off the pending list, even if the reply is lost; where the thread goes next |
| Deployments.Deployment.Increment | common/bus.py:145-146 | returns one more than the counter it came upon, and leaves the counter at that |
| Deployments.Deployment.SendToDlq | common/bus.py:65-78 | the entry is parked once the request arrives; the thread moves on to the ack, or back to the bus from a decode error |
| Deployments.Deployment.HandOut | common/bus.py:160 | the caller gets the entry's fields, and the yield is recorded; where it goes next depends on whether they decode and carry an id |
| Deployments.Deployment.ClaimKey | common/idempotency.py:122-124 | atomic: won if and only if the key had no mark, and then it has one; the answer decides which branch the thread may take |
| Deployments.Deployment.StateOf | common/idempotency.py:126-127 | returns the key's mark, if any, and changes nothing; a finished message is skipped, a finished occurrence not repeated, an unfinished one reported as interrupted |
| Deployments.Deployment.SetState | common/idempotency.py:129-130 | the key has the mark once the request arrives, even if the reply is lost |
| Deployments.Deployment.Remediate | services/action/consumer.py:184-194 | the playbook is executed for this occurrence, once, exactly if there is one and the call arrives |
| Deployments.Deployment.EndCall | common/bus.py:167-176 | a call is one step of the machine: the server acts unless the request is lost, and the thread goes on if and only if the call goes through |
| ActionConsumers.ActionConsumer.HandleFirst | services/action/consumer.py:151-202 | with the claim won, four calls in this order and none after one that fails: mark in progress (and the mark never goes back to merely claimed), execute the playbook if there is one, announce run or escalated accordingly, mark done; going through means done and announced |
| ActionConsumers.ActionConsumer.HandleAgain | services/action/consumer.py:130-150 | with the claim taken: nothing more if done, otherwise an interrupted outcome is announced and the occurrence marked done; nothing is executed |
| ActionConsumers.ActionConsumer.Handle | services/action/consumer.py:117-202 | one diagnosis: executes at most this occurrence, once, and not at all if it was claimed before; going through means it is marked done and an outcome is out |
| ActionConsumers.ActionConsumer.ClaimMessage | common/envelope.py:78-89 | a message is skipped if and only if it is marked done |
| ActionConsumers.ActionConsumer.Process | common/envelope.py:78-98 | claim, handle, mark done; going through means this message was handled to its end, in this copy or another, and is marked done |
| ActionConsumers.ActionConsumer.Receive | common/envelope.py:61-98 | decode, or park, or raise; goes on exactly if its calls go through and the entry decodes or can be parked, and then the entry is parked or handled to its end |
| ActionConsumers.ActionConsumer.DeliverThenAck | common/bus.py:141-166 | under at_least_once: with the DLQ on, an entry whose counter, this delivery included, exceeds the limit is not handed out and nothing is executed, but it is parked; any other is handed out, once; going through means first parked or handled, then acked |
| ActionConsumers.ActionConsumer.Deliver | common/bus.py:135-166 | both delivery modes; goes on exactly if its calls go through and the entry can be read, and then the entry is acked, dealt with, and the next one taken up |
| ActionConsumers.ActionConsumer.Turn | common/bus.py:115-176 | interrupted if and only if one of its calls fails or it reads an undecodable entry with the DLQ off; otherwise the group is ready, the pending entries drained and everything read dealt with, and it idles only at the end of the stream; an interrupted turn resets both locals |
| ActionConsumers.ActionConsumer.Run | services/action/consumer.py:98-202 | the program's own loops: each turn makes calls; wherever they lead no occurrence was remediated twice, and once drained nothing this consumer was handed is pending; if the calls go through, one turn is enough to have every diagnosis answered that was pending on entry |
| ActionConsumers.PendingFollows | common/bus.py:124-132 | in every run, what a consumer has pending stays its own until it is acked |
| ActionConsumers.DoneIsCompleted | common/envelope.py:82-98 | in every run, a message marked done was handled to its end, in some copy |
| MemoryGuards.MemoryGuard.Touch | common/idempotency.py:79-83 | the key moves to the end, and the oldest keys go until the cap holds |
| MemoryGuards.MemoryGuard.Claim | common/idempotency.py:95-100 | wins exactly if no live value is held, and then holds one |
| MemoryGuards.MemoryGuard.State | common/idempotency.py:85-104 | the live value, forgetting an expired one |
| MemoryGuards.BoundedAndOrdered | common/idempotency.py:79-93 | over any run with a monotone clock: never over the cap, in last-touch order, expiries nondecreasing |
| MemoryGuards.AnswersLikeUnbounded | common/idempotency.py:64-108 | key by key: as long as a key, since it was last set, was looked up only while fewer than max_keys other keys were written since, every answer about it is the one an unbounded guard gives, whatever happened to other keys |
| Projection.CardsNeverGoBack | services/read/projection.py:123-291 | under any sequence of messages no card is lost, and its pair of first_seen and phase never decreases |
| CardHistory.ScreenAtIsProjection | services/read/projection.py:117-195 | the screen these results speak of is the fold that the model's methods compute step by step, and that a rebuilt model shows |
| CardHistory.CardShowsNewest | services/read/projection.py:138-145 | over every sequence of messages a card shows the newest occurrence reported for its incident, and there is one exactly if there was a report |
| CardHistory.CardIffReported | services/read/projection.py:146-184 | card and title repeat, field by field, the last report that was not late when it came: signature, service, severity, members, times, scores, and of a diagnosis its hypotheses, runbook and headline |
| CardHistory.FinishedIffSettled | services/read/projection.py:236-261 | when situations arrive as detected, diagnosed or acting: a card is finished if and only if it has an outcome block, and if and only if an outcome settled the occurrence it shows; then it repeats the last such outcome: resolved exactly on success, needing attention exactly on escalation, failed exactly on failure or rollback, with its block, time of activity and stage |
| CardHistory.StatusAfterReport | services/read/projection.py:146-151 | a report sets the status, unless the card already shows that occurrence beyond detected |
| CardHistory.CardKeepsItsOccurrence | services/read/projection.py:138-145 | timeline, hypotheses and last activity belong to the occurrence shown: they start at the report that opened it and follow the last diagnosis since; nothing of a finished occurrence is carried over |
| CardHistory.FeedShowsLatest | services/read/projection.py:262-291 | the feed holds the last max_outcomes outcomes, newest first; a time to resolve is given exactly for successes no earlier than the newest first_seen reported by then, and is that difference |
| CardHistory.CounterCountsSuppressed | services/read/projection.py:186-189 | the counter is the number of suppressed situations |
| ReadModels.ReadModel.ApplyDetected | services/read/projection.py:123-184 | the in-place update is the fold's step: stale detections ignored, new occurrences started clean, known ones never moved back |
| ReadModels.ReadModel.ApplyDiagnosed | services/read/projection.py:197-229 | a detection followed by the diagnosis's own fields; never reopens a finished card |
| ReadModels.ReadModel.ApplyOutcome | services/read/projection.py:236-291 | closes the card shown, if there is one, and prepends a row to the bounded feed |
| ReadModels.ReadModel.AgeOut | services/read/projection.py:301-306 | exactly the resolved and failed cards idle for longer than the ttl go |
| ReadModels.ReadModel.EnforceCap | services/read/projection.py:308-320 | drops no more than needed, only evictable cards, each of them before any evictable card that stays |
| ReadModels.CapSparesOpenWork | services/read/projection.py:308-320 | no open card is dropped, none needing attention while a finished one is left, and of two of a kind not the one active later |
| ReadModels.ReadModel.Prune | services/read/projection.py:322-332 | a look at the console removes every resolved or failed card idle for longer than the ttl, and nothing else as long as no more than max_situations remain |
| Confluence.OutcomeCommutesUnlessNewOccurrence | services/read/projection.py:123-184 | outcome and detection of one incident may change places if and only if the incident has a card, the detection is no newer than the card, and if it is of the same occurrence it names the same service (or no feed is kept) |
| Confluence.SameAsTopicByTopic | services/read/rebuild.py:41-46 | without recurrence, and with each outcome after some message about its incident, any interleaving leaves the board that topic-by-topic replay leaves |
| Confluence.InterleavingsAgree | services/read/projection.py:123-291 | two interleavings of the same four topics give the same cards, feed and counter |
| Confluence.RecurrenceBreaksReplay | services/read/projection.py:236-243 | detected, closed, detected again: replay shows what live shows if and only if the second detection is older, or of the same occurrence with the same service (or no feed is kept) |
| Confluence.TitleDependsOnOrder | services/read/projection.py:211-229 | the title is the one field left out of this: it depends on which message comes last |
| Streams.NextPage | services/read/rebuild.py:114-152 | continuing after the last entry of a page reads exactly the rest |
| Streams.Redis.XInfo | services/read/rebuild.py:62-70 | the position, read as absent when the command is refused |
| Streams.Redis.XGroupCreate | services/read/rebuild.py:54-59 | creates the group before all entries, or leaves an existing one alone, once the command arrives |
| Streams.Redis.XGroupSetId | services/read/rebuild.py:163-168 | the group stands at the id once the command arrives, even if the reply is lost |
| Rebuild.PageThrough | services/read/rebuild.py:124-152 | while publishers keep appending, reads and applies everything from the cursor on, in order, or a beginning of it if there is more than max_entries or a read fails |
| Rebuild.ReplayTopic | services/read/rebuild.py:114-152 | by the calls made, the topic was read from its starting point to its end, or given up for one of the stated reasons; what is there to read is exactly what was stored and what publishers were laid down to append |
| Rebuild.AckAll | services/read/rebuild.py:172-174 | the listed entries are acked one after another until a command fails |
| Rebuild.LookAndMove | services/read/rebuild.py:163-174 | asks for the position, moves the group if it seems to stand before the last replayed entry, then acks a page; an error reply skips the rest, no reply cuts it off |
| Rebuild.TakeOver | services/read/rebuild.py:159-176 | the whole takeover of one group, each command with its own fate: the group, the calls made and the ending are exactly those of TookOver |
| Rebuild.HandOverAll | services/read/rebuild.py:159-176 | topic after topic is taken over until one is cut off; those after it are never begun |
| Rebuild.Rebuild | services/read/rebuild.py:82-184 | there is a model exactly if every topic was read to its end, none too long, and no takeover was cut off; it shows the fold of what was handed to it, titles included, under the limits asked for. Otherwise a topic was given up and no group touched, or a takeover was cut off, and every group stands as the commands made leave it |
| Rebuild.Start | services/read/app.py:44-59 | a restart takes the rebuilt model or a new empty one, either with the limits of the settings |
| Rebuild.StartAndLook | services/read/app.py:79-82 | the first look after it: of what was replayed nothing is missing that those limits keep, and no resolved or failed card idle for longer than the ttl is left |
| Handovers.TakeoverByCommands | services/read/rebuild.py:159-176 | exactly by which commands arrive: where the group stands, how many pending entries are gone, whether it exists |
| Handovers.TakeoverStops | services/read/rebuild.py:88-92 | a takeover is cut off exactly if one of its commands gets no reply, and that is then its last |
| Handovers.CleanTakeover | services/read/rebuild.py:159-174 | with every command going through, the group moves forward to the last replayed entry or stays, and one page of pending entries is acked |
| Handovers.MovedBackIffRefused | services/read/rebuild.py:62-70 | the group is moved back exactly if asking for its position was refused, it stood further on, and the other commands arrived |
| Handovers.PlainColdStartIff | services/read/rebuild.py:82-92 | without a model: a plain cold start if and only if no takeover it came to had a command arrive that moves a group or acks an entry |
| Handovers.LostReplyLosesEntry | services/read/rebuild.py:163-176 | a run in which only the reply to XGROUP SETID is lost: no model, the group moved, and the entry read is on neither console |
| Handovers.MovedPast | services/read/rebuild.py:163-168 | in general: once a group is moved to the last replayed entry, what was replayed after its old position is no longer in the tail |
| Handovers.HandedOverExactly | services/read/rebuild.py:114-174 | for one topic: replay followed by tail is exactly the window and everything after the group's position, unless and only unless there was no group, the whole topic lay before the window and something still does |
| Handovers.OwedIff | services/read/rebuild.py:116-123 | what is owed is exactly the window and all that the group has not been handed |
| Handovers.RebuildDivides | services/read/rebuild.py:95-184 | for every topic of an undisturbed rebuild, and whatever has arrived by any later call: every entry owed is in exactly one of what was replayed and what the tail delivers, in order, with that one exception |
| Handovers.PendingIsShownIffInWindow | services/read/rebuild.py:169-174 | a pending entry that the handover acks was shown if and only if it is not older than the window |
| Handovers.PendingCanBeDropped | services/read/rebuild.py:169-174 | such an entry |
| RebuildTheorems.RebuildSplits | services/read/rebuild.py:114-174 | after an undisturbed rebuild of four topics read from their start: in every topic the live console's messages are the replayed ones followed by the tail's |
| RebuildTheorems.RebuiltConsoleMatchesLive | services/read/rebuild.py:41-46 | without recurrence, and with the tail's outcomes in order: the rebuilt console shows what one that never restarted shows if every replayed outcome's incident was itself replayed, and only if, when no incident has two outcomes |
| RebuildTheorems.RebuildMatchesLive | services/read/rebuild.py:1-23 | the same, in both directions, for the model that such a rebuild returns, with any interleaving of the topics and of their tails, at any later time |
| RebuildTheorems.RebuildCanLoseAnOutcome | services/read/rebuild.py:114-152 | a rebuild, call by call, without fault or recurrence, that goes wrong: an incident is detected after the detections were paged and closed before the outcomes are |
| CorrelationEngines.CorrelationEngine.CorrelateBuffer | services/correlation/engine.py:142-185 | keeps, discards, emits, marks quiet or suppresses the bucket, and returns exactly what goes on to diagnosis |
| CorrelationEngines.CorrelationEngine.Add | services/correlation/engine.py:97-120 | closes at most this key's window and then takes the event |
| CorrelationEngines.CorrelationEngine.FlushAll | services/correlation/engine.py:131-140 | closes every bucket that may close, and returns all that was emitted, in order |
| CorrelationEngines.CorrelationEngine.PopSuppressed | services/correlation/engine.py:200-203 | the oldest suppressed situation, once |
| CorrelationEngines.CorrelationEngine.Reset | services/correlation/engine.py:205-217 | forgets open windows and the queue |
| CorrelationTheorems.NoEventLostOrRepeated | services/correlation/engine.py:97-185 | for each key the closed windows followed by the open bucket are exactly its anomalous events in arrival order |
| CorrelationTheorems.KeysAreIndependent | services/correlation/engine.py:91-185 | what is emitted, suppressed and discarded for a key equals what a single-bucket engine does on that key's events and the same flushes |
| CorrelationTheorems.PeaksAndVerdicts | services/correlation/engine.py:119-185 | the stored peak is the bucket's largest score; a closed window is discarded exactly if it is too small, and otherwise emitted exactly if its signature was not among the reliable ones at the closing call; a situation's members, signature, times, peak and severity are its window's |
| CorrelationTheorems.WindowsAreCompact | services/correlation/engine.py:114-153 | in time order, all events of a window but possibly the last lie within its span, and all do if one event suffices |
| CorrelationTheorems.SuppressedAreQueued | services/correlation/engine.py:175-203 | without a reset, what was popped followed by what is queued is every suppressed situation, in order |
| CorrelationWindows.WindowsFollowServices | services/correlation/engine.py:91-95 | grouped by service, over any calls: all events of a window, closed or open, belong to one service or to none, a service called "unknown" taken for none; and events that belong together are never in two open buckets |
| CorrelationWindows.WindowsAreServices | services/correlation/engine.py:91-95 | so a window is one service's, or nobody's, while that name is not used for a service next to unlabelled events |
| CorrelationWindows.SharedByServiceIff | services/correlation/engine.py:91-95 | two anomalous events within a window of each other share a bucket exactly if they have the same service or none, if and only if they do not clash so |
| CorrelationWindows.UnknownIsShared | services/correlation/engine.py:94-95 | any two that do clash end up in one situation |
| CorrelationWindows.NotGroupedIsOneBucket | services/correlation/engine.py:91-93 | not grouped, there is never more than one open bucket |
| CorrelationWindows.ClosedByEventIff | services/correlation/engine.py:107-120 | an event closes its group's window exactly if it lies more than the span after the first one and the window is large enough or has had its full time; otherwise it joins it |
| CorrelationWindows.ClosedByFlushIff | services/correlation/engine.py:142-161 | a flush closes exactly the windows that are large enough or have had their full time |
| Statistics.MedianFollowsMajority | services/correlation/adapters/robust_correlator.py:121-125 | the median lies where more than half of the samples lie, whatever the others are |
| Statistics.MadFollowsMajority | services/correlation/adapters/robust_correlator.py:121-125 | and the MAD is at most the spread of that majority |
| Statistics.MedianIsMiddle | services/correlation/adapters/robust_correlator.py:121-123 | in whatever way the samples are laid out in order, the median is the middle one or half way between the two middle ones; and the MAD is that of the distances from it |
| Detection.MinorityCannotMask | services/correlation/adapters/robust_correlator.py:111-148 | with a majority in [a, b], a value farther from it than both z * 1.4826 * (b - a) and half the baseline's size is flagged, for score-only and latency metrics, whatever the other samples are |
| Detection.ScoresCorrespond | services/action/verify.py:31-48 | the verifier's score against the attached baseline has the detector's magnitude, and caps steps off a flat line at six |
| Detection.ScoreOnlyVerdictsAgree | services/action/verify.py:93-114 | for score-only metrics recovered means not flagged, if and only if no flat series moved beyond a threshold of six or more |
| Detection.FlatStepIsMissed | services/action/verify.py:44-48 | such a move: from a flat ten to a hundred, at a threshold of seven |
| Detection.LatencyVerdictsAgree | services/action/verify.py:115-127 | for latency they disagree exactly on values far below the baseline (and beyond the cap) |
| Detection.LatencyDropIsMissed | services/action/verify.py:115-127 | such a value: zero against a baseline around a hundred |
| Detection.LevelsDecide | services/correlation/detection_policy.py:50-67 | the level of each kind of metric: a ratio or saturation above it is flagged and not recovered, one up to it neither, whatever window and baseline are; a latency above its ceiling is both; elsewhere only the score flags |
| Detection.KindByTokens | services/correlation/detection_policy.py:28-33 | the kind is decided by which words the lower-cased name contains, ratio words first, then latency words |
| Detection.ScoreExceedsIff | services/correlation/adapters/robust_correlator.py:121-146 | the score is past the threshold exactly if the value is farther from the median than that many times 1.4826 MADs; off a flat line, farther than half its size, and for thresholds of six or more farther than that many times its size |
| Detection.RecoveredWithoutBaseline | services/action/verify.py:86-131 | without a usable baseline a metric has recovered exactly if its kind has a level and the value is not above it |
| Verification.FindScope | services/action/verify.py:64-71 | the scope is the service or job label of the first member that has one |
| Verification.MetricHealthy | services/action/verify.py:51-133 | healthy if and only if every metric that fired has recovered; a failed query has not |
| Verification.UnhealthyAboveLevel | services/action/verify.py:73-131 | a metric that fired keeps the situation unhealthy when its query fails, when it reads above the level of its kind, and when only the score counts and there is no baseline |
| Verification.HealthyIffNothingWouldFire | services/action/verify.py:86-131 | for thresholds below six a situation is found healthy exactly when the detector would flag none of the values read, far-fallen latencies aside |
| RobustCorrelators.RobustCorrelator.ScoringWindow | services/correlation/adapters/robust_correlator.py:92-109 | the own window if warm, otherwise the fullest warm window of the same series |
| RobustCorrelators.RobustCorrelator.Detect | services/correlation/adapters/robust_correlator.py:111-148 | scored zero while no window of its series holds warm-up samples, otherwise against a warm one of them as it was before; then folded into its own |
| RobustCorrelators.RobustCorrelator.BaselineSnapshot | services/correlation/adapters/robust_correlator.py:164-193 | median and scaled MAD of a metric's samples pooled over its windows, none if there are none |
| RobustCorrelators.RobustCorrelator.Snapshot | services/correlation/adapters/robust_correlator.py:195-202 | one row per window, in dictionary order |
| RobustCorrelators.RobustCorrelator.Load | services/correlation/adapters/robust_correlator.py:204-208 | each row replaces its window, cut to the window size |
| RobustCorrelators.SnapshotRestores | services/correlation/adapters/robust_correlator.py:195-208 | loading a snapshot into an empty correlator restores every window and adds none |
| RobustCorrelators.WindowHoldsMostRecent | services/correlation/adapters/robust_correlator.py:115-147 | after detecting any samples, on whatever was loaded before, a window holds its key's most recent values, as many as fit |
| RobustCorrelators.NoBlackout | services/correlation/adapters/robust_correlator.py:92-109 | a series with any warm window is never scored blindly |
| RobustCorrelators.SameWindowIff | services/correlation/adapters/robust_correlator.py:79-90 | two samples share a window exactly if they have one name, one service or else job (where windows are kept per series), and hours of one bucket |
| RobustCorrelators.ColdSeriesIsSilent | services/correlation/adapters/robust_correlator.py:116-119 | after any samples, nothing of a series is flagged by its score before one of its windows was given warm-up many values, those loaded counted in |
| RobustCorrelators.WarmSeriesIsJudged | services/correlation/adapters/robust_correlator.py:116-146 | and from then on every sample is scored against the most recent values of some window of its series, at least warm-up many |
| RobustCorrelators.PooledIsAll | services/correlation/adapters/robust_correlator.py:164-193 | the attached baseline pools the samples of all the metric's windows and of no others |
| RobustCorrelators.FixIsVerifiedAsDetected | services/action/verify.py:93-114 | end to end: with one warm window, recovered against the attached baseline means not flagged as the next sample |
| Evidence.TrackRecord | common/evidence.py:51-62 | counts the real runs on a signature, of a playbook if named, and those that worked |
| Evidence.TrackRecordCountsRuns | common/evidence.py:23-62 | the counts are the numbers of records with a mode other than dry run and none, on the signature, of the playbook if named; and of those of them that worked |
| Evidence.QuietEligibleIffProven | common/evidence.py:65-71 | eligible exactly if there is at least one such run, at least min_samples of them, and worked is at least threshold times total |
| Evidence.ReliabilityMap.Retrain | services/correlation/adapters/base_correlator.py:74-84 | the maps hold exactly what the given rows say, whatever was learned before |
| Evidence.SuppressionAgreesWithTrackRecord | services/correlation/adapters/base_correlator.py:86-94 | retrained on the real records, suppression judges as the track record of the whole log does |
| Evidence.SomePlaybookEarnsIt | common/evidence.py:51-71 | when a signature's ratio meets the threshold, at least one playbook's own ratio on it does |
| Eligibility.SuppressedIsTheMapsVerdict | services/correlation/adapters/base_correlator.py:86-94 | suppressed, here, is what the reliability map retrained on the real records says |
| Eligibility.SuppressedHasEligible | common/evidence.py:65-71 | if every playbook that ever really ran on a signature has enough runs there, a suppressed signature has a playbook that may run unasked |
| Eligibility.GuaranteedIff | common/evidence.py:65-71 | for a positive threshold, on run counts alone: suppression guarantees an eligible playbook, however the runs ended, if and only if the most successes that leave every playbook ineligible fall short of the threshold on the signature |
| Eligibility.SuppressedYetNobodyEligible | services/correlation/adapters/base_correlator.py:86-94 | and where they do not fall short, there are outcomes of the same runs that suppress the signature and leave nobody eligible |
| Evidence.OnePlaybookIsJudgedAlike | common/evidence.py:65-71 | with a single playbook on a signature both modules give the same verdict |
| QuietHandling.NobodyAskedOnlyOnRecord | services/action/consumer.py:51-95 | reported quiet means nobody was asked, and a run that was requested quietly and reached the cluster is reported so exactly then; a run nobody was asked about is an auto playbook's, or has this playbook's own record on this signature behind it |
| QuietHandling.RequestHonouredForSolePlaybook | services/action/consumer.py:180-199 | for the only playbook of a signature, correlation's request is honoured exactly if waivers are allowed |
| Feedback.PlaybookStats | services/feedback/graduate.py:19-42 | counts successes (simulated ones only if asked), failures and rollbacks of one playbook |
| Feedback.FeedbackConsumer.Handle | services/feedback/consumer.py:33-63 | label, demote or graduate one outcome; escalated and interrupted ones are no evidence |
| Feedback.OneOutcomeOneRun | services/feedback/label.py:12-25 | a labelled outcome adds one run to the track records of its own signature and playbook, worked only if it succeeded, and none if nothing real was run |
| Feedback.GraduationIsEarnedOnce | services/feedback/consumer.py:59-63 | over any outcomes on any store, each graduation found enough counted successes and no failure or rollback, and one process graduates no playbook twice |
| Feedback.FailureBarsForGood | services/feedback/consumer.py:45-58 | after a failure or rollback on record a playbook never graduates, though the demoter clears its mark |
| FeedbackHistory.AutomationIsTakenBack | services/feedback/consumer.py:45-58 | over any outcomes on any store, with a demoter: a playbook is demoted exactly as often as a run of it in auto mode ended in failure or rollback and was not interrupted, without one never; after the first time it stays out of the graduated for good |
| FeedbackHistory.StoreHoldsOutcomes | services/feedback/consumer.py:36-44 | every outcome that is neither escalated nor interrupted is recorded once, in order, under its situation's id without the prefix, as worked exactly on success; nothing else is |
| FeedbackHistory.GraduationStandsOnSuccesses | services/feedback/graduate.py:19-42 | whenever a playbook was graduated the store held at least min_successes successes of it, rehearsed ones only where they count, and no failure or rollback |
| Redelivery.AutomationIsTakenBackAgain | services/feedback/consumer.py:45-58 | under redelivery and restarts it is demoted once for every time such an outcome is handled, and no later process holds it graduated |
| Redelivery.SuccessesAreHits | services/feedback/consumer.py:44 | over any redeliveries and restarts, exactly one success is added for every time a counting outcome is handled |
| Redelivery.GraduationNeedsOutcomes | services/feedback/consumer.py:59-63 | if no message is handled more than d times, a graduation had min_successes / d different successful outcomes behind it |
| Redelivery.GraduationOnTheBus | common/bus.py:141-159 | on the delivery machine that d is max_delivery_attempts with the DLQ on, and one in the default mode |
| Redelivery.GraduatedAgainAfterRestart | services/feedback/consumer.py:35-63 | a process started anew graduates a playbook with a clean and sufficient record once more, with its next success |
| Redelivery.OneOutcomeCanGraduate | services/feedback/consumer.py:44-63 | and the bound is reached: one outcome handled min_successes times, by as many processes, graduates its playbook |
| Remediation.DenylistReason | services/action/remediate.py:74-120 | the reason of the first dangerous step, forward or back, or none |
| Remediation.DeniedForFirstHarm | services/action/remediate.py:74-120 | a playbook is denied exactly if one of its steps would do harm, and with the reason of the first such step |
| Remediation.KubernetesRemediator.DispatchStep | services/action/adapters/k8s_remediator.py:84-126 | one step's effect on replica counts and on the recorded originals, for every fate of its calls |
| Remediation.KubernetesRemediator.RunPlan | services/action/adapters/k8s_remediator.py:67-82 | steps in order until one fails, and nothing after it |
| Remediation.KubernetesRemediator.ExecutePlan | services/action/adapters/k8s_remediator.py:56-59 | a fresh record of the original count for every execution |
| Remediation.KubernetesRemediator.RollbackPlan | services/action/adapters/k8s_remediator.py:61-65 | the recorded original is used and then forgotten |
| Remediation.ForwardRecords | services/action/adapters/k8s_remediator.py:100-114 | a forward run scales only into 1..10 and records the first count it saw, once |
| Remediation.RollbackRestores | services/action/adapters/k8s_remediator.py:102-108 | a rollback that scales puts back the recorded count, however many steps scale |
| Remediation.GoesThroughIff | services/action/adapters/k8s_remediator.py:67-177 | a run of steps on an existing deployment goes through exactly if every call it makes does |
| Remediation.ScalesToNearest | services/action/adapters/k8s_remediator.py:109-114 | a scaling whose write arrives, even with an error for an answer, ends at the count in 1..10 nearest to the one asked for; otherwise the count stays |
| Remediation.ScalesAgainstDeltaIff | services/action/adapters/k8s_remediator.py:109-114 | it moves against its delta exactly if more than ten replicas were found and nothing less asked for, or none were found and nothing more asked for |
| Remediation.PassGates | services/action/remediate.py:200-271 | all gates in order, each with its audit entry |
| Remediation.ExecuteRemediation | services/action/remediate.py:185-334 | the whole remediation: cluster, outcome and effects in order |
| Remediation.RunsOnlyWhenCleared | services/action/remediate.py:200-274 | the cluster is touched if and only if every gate is cleared; otherwise the run fails and changes nothing |
| Remediation.EffectsAndReasons | services/action/remediate.py:200-334 | each effect of a remediation - rehearsal, waiver, request, expiry, execution, health check, rollback - is had on exactly the stated condition, in this order, then one audit entry; audit entry and reason tell where the run ended |
| Remediation.OnlyHarmlessPlansRun | services/action/remediate.py:74-120 | nothing reaches the cluster from a playbook with a take-down, starving, probe-breaking or revision-less step, in its plan or in its rollback |
| Remediation.OutcomeIsTrue | services/action/remediate.py:273-334 | success if and only if executed and seen healthy; rolled back if and only if really undone |
| Remediation.OthersKeepTheirCount | services/action/adapters/k8s_remediator.py:56-114 | no remediation touches another deployment's count |
| Remediation.RolledBackMeansRestored | services/action/remediate.py:299-334 | after any earlier remediations, a rolled-back run that scales both ways leaves exactly the count it found, if that was at least one |
| Remediation.OneWayRolledBack | services/action/adapters/k8s_remediator.py:100-114 | a rolled-back run of which only the steps, or only the rollback, scales leaves exactly the count those steps walk to, each scaling clamped |
| Remediation.ScaledUpAndRolledBack | services/action/adapters/k8s_remediator.py:100-114 | such a run: one replica more, and a rollback that only waits |
| AgentStream.SentStrictlyIncreases | services/governance/app.py:632-647 | over every interleaving and failure the numbers sent to a client strictly increase |
| AgentStream.EveryGapHasAReason | services/governance/agent_run_hub.py:54-76 | a number missing below one that was sent was dropped, never stored, unreadable, or being stored on joining |
| AgentStream.AtMostOneGap | services/governance/app.py:486-496 | with a working store and no overflow at most one number is missing |
| AgentStream.NewestAreNeverDropped | services/governance/agent_run_hub.py:67-76 | a full queue drops a number only when at least as many later ones came as it holds: the newest it has room for are never dropped |
| AgentStream.MissedIffNotYetStored | services/governance/app.py:601-624 | below any number a client is sent, with a working store and no overflow, it misses exactly the last step published before it subscribed, and exactly if that was not yet stored when it read |
| AgentStream.GapCanHappen | services/governance/app.py:489-494 | and it does happen, at any capacity: published before, stored after the subscription and the replay |
| AgentStream.EndedStreamIsWholeIffNothingWaits | services/governance/app.py:625-631 | a stream closed by the ended check has the whole run if and only if nothing newer waits for the client and the last step published before it subscribed was stored when it read |
| AgentStream.CutCanHappen | services/governance/app.py:625-631 | and something can wait: a client that reads, is overtaken by the whole run and finds it ended is never sent the outcome |
| RunStreams.RunStream.OthersAct | services/governance/agent_run_hub.py:54-76 | all that worker and event loop are laid down to do is done, and what belongs to the client stays |
| RunStreams.RunStream.Replay | services/governance/app.py:613-624 | the store is read once and all of it sent, remembering the largest number |
| RunStreams.RunStream.FollowAll | services/governance/app.py:632-647 | the queue loop ends exactly when the outcome has been sent or the client gives up |
| RunStreams.RunStream.Stream | services/governance/app.py:601-649 | the whole coroutine: it takes exactly the steps of its script (subscribe, read, check, follow); whatever the others do, what it sends strictly increases, holds all that was stored when it came, and lacks only what the gap theorem excuses |
| Ranking.RankHypotheses | services/rca/rank.py:42-228 | the proposed and rescored hypotheses, stably sorted best first |
| Ranking.ProposalsFollowSignals | services/rca/rank.py:42-180 | what is proposed is exactly what the signals call for, each rule with its runbook and confidence, or one hypothesis without a runbook if they are silent |
| Ranking.SortRanked | services/rca/rank.py:201-228 | a permutation in which whatever is ahead has the larger key, or the same key and came first |
| Ranking.RankingIsUnique | services/rca/rank.py:221-228 | there is only one such order |
| Ranking.LeadIsNeverOvertaken | services/rca/rank.py:215-228 | a lead of at least 0.15 is kept whatever the track records are, clamping included |
| Ranking.NoTrackRecordNoChange | services/rca/rank.py:201-228 | an all-zero track record gives exactly the order by rules alone |
| Ranking.CloseRaceCanTurn | services/rca/rank.py:215-228 | within 0.15 a track record can decide |
| Ranking.BetterRecordComesFirst | services/rca/rank.py:215-228 | of two hypotheses held equally likely, and unclamped, the one with the better record comes first |
| Ranking.NothingPassesCertainty | services/rca/rank.py:221-228 | one boosted to certainty is not overtaken by any that was held less likely |

## Left out

- Client library: redis-py's own retries of timed-out commands; a silently re-sent XREADGROUP could leave two entries pending.
- Expiry and trimming: guard keys and attempt counters do not expire during a run, and streams are not trimmed; each consumer process has a name of its own.
- KafkaBus, the file and Postgres stores, NullGuard and MemoryGuard as the guard of the delivery machine.
- Audit writes and exceptions inside the handler: an exception counts as a lost call, after which the thread starts over.
- Deployments.Deployment.Remediate: one call without its inner course; that course is module Remediation, which the delivery machine does not run.
- ReadModels.ReadModel: the order of cards in the dictionary (ties of the eviction order, the order of listings), constant card fields, metrics and subscribers.
- ReadModels.ReadModel.Prune: the lock; each method runs undivided.
- Streams.Redis: streams are not trimmed, and during a rebuild no consumer of the read group is at work; pending entries are listed in id order.
- Rebuild.Rebuild: a payload that makes the model raise instead of failing to decode; both are skipped alike.
- RebuildTheorems.RebuildMatchesLive: pruning (the cap and the ttl depend on when a console is looked at), and streams with entries older than the replay's start, which a live console had seen and a rebuilt one has not.
- RebuildTheorems.RebuiltConsoleMatchesLive: agreement when an outcome was lost but its incident had a second one.
- CorrelationEngines.CorrelationEngine: the detector's verdicts and the proven signatures are inputs, the SHA-1 of a signature is the set it hashes, and the attached baseline is that of RobustCorrelator; flush, which returns only the first situation of flush_all.
- Detection: float rounding and not-a-number; lower-casing beyond ASCII; the River and trained correlators.
- RobustCorrelators.RobustCorrelator.Detect: a warm-up of zero samples scores zero on an empty window instead of not-a-number.
- Verification.MetricHealthy: whether the query function takes a scope argument is found by reflection; here it always gets one.
- Remediation: CPU and memory ceilings are numbers already parsed, unparseable ones below every floor; of Kubernetes only replica counts; no deployment is deleted or changed by others during a run.
- Feedback.FeedbackConsumer.Run: its deliveries come through the same bus and envelope as the action consumer's, which are modelled there only; Redelivery takes from them how often a message is handed out.
- AgentStream: one subscriber per stream, keepalives, a queue without a limit.
- Ranking.RankHypotheses: descriptions, evidence texts and explanations; the choice of a runbook by embedding.
- Frontends, fault profiles, benchmark, migrations and configuration: they would only add easy members.
