# Verification of rabbitmqqueue

A Dafny model of a Go client that puts delivery-policy state machines over AMQP 0-9-1 channels, with proofs of what
its producer, consumer, observation stream, message codec, requeue policy and topology application guarantee.
`dafny verify dfyconfig.toml` checks everything.

## How it is built

| files | what they model |
|---|---|
| `PublishTracker.dfy` | the tracker that correlates confirm sequences and return tokens with publish attempts: a class with two maps, proved against an index-free description, and the meaning of whole traces |
| `ProducerProtocol.dfy` | the producer as one transition system: any number of publish calls with program counters, the event loop, recovery with any number of generations, shutdown, and an unconstrained broker |
| `ProducerStructure.dfy`, `ProducerFrames.dfy` | the structural invariant and what each step leaves alone |
| `ProducerWindow.dfy`, `ProducerGate.dfy`, `ProducerSeal.dfy`, `ProducerOutcomes.dfy`, `ProducerReturns.dfy`, `ProducerClosing.dfy`, `ProducerLate.dfy` | one safety theorem family each, over every reachable state and every continuation |
| `ProducerSends.dfy`, `ProducerEvents.dfy`, `ProducerRecovery.dfy` | what a send, a broker notification and a recovery lead to, from the step itself over every continuation |
| `ProducerProgress.dfy`, `ConsumerProgress.dfy` | freedom from deadlock: from every reachable state shutdown can complete |
| `ConsumerProtocol.dfy`, `ConsumerSafety.dfy`, `ConsumerTags.dfy`, `ConsumerGates.dfy` | the consumer as a transition system: consume loop, gates, workers, drain, shutdown, replacement of generations |
| `ProducerRuns.dfy`, `ConsumerRuns.dfy` | runs that exist: the hypotheses of the theorems are met, and the conditional properties do fail without their condition |
| `PendingRing.dfy` | the circular buffer of the consume loop, in place, refining the queue of the protocol |
| `Observation.dfy` | the lossy observation stream: concurrent emitters, readers and a closer, and the stream object itself |
| `Text.dfy`, `Decimal.dfy`, `Messages.dfy`, `Deliveries.dfy`, `BrokerMetadata.dfy`, `RoundTrip.dfy` | byte-string rules, publications and their wire form, bounded conversion of deliveries, what the broker writes into a delivery read back, and the round trip |
| `Settlement.dfy` | settlement requests, the requeue bound over a message's whole history, the once-guarded settlement result and the waits for it |
| `Topology.dfy`, `TopologyApply.dfy` | queue policies and their arguments, topology graphs, and the bounded apply loop |

Runs are sequences of steps. `From(s, steps)` is the state after taking them, if every one of them can be taken;
`Reachable(s)` says that some run from an initial state ends in `s`. Timers, cancellations, send results, dial results
and broker behaviour are free choices of the run, so a statement about all runs holds for all of them.

Where the source loops or updates fields, the model is a method or a class proved against a specification function.
Iteration over a Go map is a parameter: any listing of the keys without repetition.

## Findings

- Publishing accepts exchange names with control characters other than NUL, CR and LF inside them; delivery refuses
  every control character. `RoundTrip.DeliveredIff` proves that this is the only way in which a valid publication is
  not delivered; `RoundTrip.TabInExchange` is an example.
- `abandon` is keyed by sequence and runs after the publish lock is released. If a channel reuses a sequence on one
  tracker, a call can abandon another call's attempt and report `Ambiguous` for its own confirmed publication.
  `ProducerOutcomes.MisattributionIffSequenceReused` gives the exact condition, `ProducerRuns.AReusedSequenceMisattributes`
  a run; with fresh sequences attribution is exact.
- A failed send seals its tracker while the producer is not closed, but `markRecovering` does nothing after that.
  `ProducerSeal.FailedSendLeavesTrackerOpenIff` proves that a later registration on the same tracker is possible if and
  only if the producer is closed, available, not past draining, and a call waits for the publish lock;
  `ProducerRuns.AFailedSendCanLeaveItsTrackerOpen` reaches such a state.
- Shutdown can be done while an attempt is still live (`ProducerRuns.AnAttemptCanOutliveShutdown`).
  `ProducerLate.LiveAtDoneIff` proves that these are exactly the attempts registered after their generation ended whose
  calls still pursue them.
- Without acquired counts, a quorum message that is first negatively acknowledged and then rejected can be requeued
  once more than `MaxRequeues`. `Settlement.BoundHoldsIffOneWay` proves that the bound holds for every history if and
  only if it is zero or handlers and the failure policy requeue in one way only; `Settlement.MixedRequeueBound` proves
  that the excess is never more than one.

## Model

| member | source | states |
|---|---|---|
| PublishTracker.Tracker.Register | publish_tracker.go:35-78 | accepts exactly a nonzero sequence with a nonempty token within a positive window and without a clash with a live attempt, and gives the first applicable of the three errors otherwise; the table gains one live attempt and both maps index it |
| PublishTracker.Tracker.Returned | publish_tracker.go:80-92 | the live attempt with that token, and no other, gets the return's code and reason under its registered route; reports whether there was one |
| PublishTracker.Tracker.Confirm | publish_tracker.go:94-111 | the live attempt of that sequence ends Returned with the recorded return if there is one, else Confirmed for an acknowledgement and Rejected for a negative one, without a return; it leaves both maps and nothing else changes |
| PublishTracker.Tracker.AbandonOne | publish_tracker.go:113-131 | completes the live attempt of that sequence with an abandonable state, or changes nothing |
| PublishTracker.Tracker.FailAllLive | publish_tracker.go:133-146 | completes every live attempt, returns their number and leaves both maps empty |
| PublishTracker.Tracker.Complete | publish_tracker.go:148-153 | sends the only outcome an attempt gets and drops both index entries |
| TrackerSpec.ApplyKeepsIndexable | publish_tracker.go:80-153 | no event lets two live attempts share a sequence or a token, and none revives an attempt |
| TrackerTraces.TraceBounds | publish_tracker.go:35-153 | over every trace live attempts have distinct sequences and tokens and never exceed the maximum |
| TrackerTraces.OutcomeIsDecidedByTheTrace | publish_tracker.go:80-153 | each attempt has at most one outcome, decided by the first terminal event after its registration: Returned with the last return seen before a confirm, Confirmed or Rejected by the acknowledgement without one, and exactly the given state without a return when it was abandoned |
| TrackerTraces.LastReturnMeaning | publish_tracker.go:80-92 | a recorded return exists exactly if one for the token was seen in the window; it is the last such one, with its code and reason and the registered route instead of the broker's |
| ProducerStructure.StepKeepsStructure | producer.go:349-449 | every step of every task keeps locks, installed generation and registered attempts consistent |
| ProducerStructure.ReachableStructure | producer.go:633-676 | so every reachable state has that structure, whatever interleaving led to it |
| ProducerReturns.ReturnBeforeConfirmDecides | producer.go:691-740 | if an attempt's return is enqueued before any confirm of its sequence, it never ends Confirmed or Rejected, for any select order over the two queues |
| ProducerReturns.ConfirmFindsReturnsRecorded | producer.go:700-723 | in every reachable state in which a confirm is about to be applied, each live attempt of its sequence whose return arrived before any confirm has that return recorded |
| ProducerReturns.UncorrelatedKeepsGen | producer.go:797-825 | dropping an uncorrelated return loses no return of a live attempt |
| ProducerEvents.OutcomeHasACause | producer.go:691-740 | over every run an attempt is Confirmed or Rejected only if such a confirm of its sequence arrived on its generation, and Returned only if a confirm did and a return of its token did, reported with that return's code and reason under the registered route |
| ProducerEvents.TakenConfirmIsApplied | producer.go:705-723 | a confirm the loop has taken is never lost: in every continuation its attempt is completed or the loop is about to apply the confirm or to end the generation |
| ProducerEvents.ReturnIsRecordedOrEnds | producer.go:797-825 | a return with the token of a live attempt is recorded on it and the loop goes on; any other return changes no attempt and ends the generation |
| ProducerEvents.EndMakesAmbiguous | producer.go:655-655 | the end of a generation completes exactly its live attempts, as Ambiguous without a return |
| ProducerGate.NoRegistrationAfterFailedSend | producer.go:360-427 | after a failed or timed-out send marked while the producer is not closed, no later step of any run registers on that tracker |
| ProducerGate.RegistrationResumesOnALaterGeneration | producer_open.go:223-246 | a later registration meets a generation installed by a later recovery |
| ProducerGate.ReachableGate | producer.go:500-543 | recovering implies unavailable, and a call past the availability check faces a tracker on which no send has failed |
| ProducerSends.FailedSendSealsAtOnce | producer.go:405-431 | from the failed or timed-out send itself: while the producer is not closed no continuation registers on that generation; once the failure is marked the generation is broken and the producer is unavailable or has moved on to a later one; a timed-out send has asked for the close before it lets go of the lock |
| ProducerSends.SentIsNeverReportedNotSent | producer.go:428-449 | with fresh sequences a call whose send was not a preflight cancellation reports only a result of that generation's tracker, and never NotSent, in any continuation |
| ProducerSends.PreflightReportsNotSent | producer.go:428-434 | a call whose send the client refused for its own context reports NotSent and nothing else in any continuation |
| ProducerSends.SentCallWaitsForTheBroker | producer.go:583-616 | with fresh sequences a call whose frame was accepted and whose context does not end reports Confirmed, Rejected or Returned, or Ambiguous only because its generation ended |
| ProducerSends.AdmitEffect | producer.go:475-494 | a publish call is admitted exactly if the producer is open, available and below MaxOutstanding |
| ProducerSends.NoSendAfterClosing | producer.go:387-391 | once shutdown is past draining no continuation starts another send |
| ProducerSends.SignalSpawns | producer.go:409-427 | a timed-out send, and no other, spawns a close of its generation |
| ProducerRecovery.UnavailableHasAReason | producer.go:500-543 | over every run publishes are turned away only during a recovery, after a failed send on the current generation or once the loop has ended, and always while an open producer is between two generations |
| ProducerRecovery.TerminalIsFinal | producer.go:517-535 | once recovery has failed for good the loop has ended, the producer stays terminal and unavailable, and no publish call is admitted in any continuation |
| ProducerRecovery.GivingUpTakesEveryAttempt | producer_open.go:163-249 | between the loss of a generation and the next installation at most MaxAttempts attempts are made in every run, and a loop that gives up on a producer that was not closed has made all of them |
| ProducerProgress.RecoveryCanComplete | producer_open.go:223-246 | from every reachable recovery with an attempt left, whatever calls hold the publish lock, some continuation installs a generation and makes the producer available again |
| ProducerProgress.ShutdownCanComplete | producer.go:861-985 | from every reachable state some continuation completes shutdown: no order of steps deadlocks calls, loop and closers |
| ProducerProgress.LockHasAHolder | producer.go:60-92 | in every reachable state a taken publish lock belongs to a call or an installation that is inside the section it guards |
| ProducerSeal.FailedSendLeavesTrackerOpenIff | producer.go:500-543 | in every reachable state in which a failed or timed-out send is marked, some continuation registers on the same tracker if and only if the producer is closed, available, not shutdown-closing and a call is admitted and waiting |
| ProducerSeal.BarredFreezes | producer.go:360-379 | once a closed producer has nobody who can pass both checks, no run adds an attempt to any generation |
| ProducerFrames.StepEvolves | producer.go:349-449 | every step keeps every attempt and every outcome of every generation, and only a registration on the current one adds an attempt |
| ProducerOutcomes.ReportedResultIsTheTrackers | producer.go:583-616 | with fresh sequences the result of a call whose send started is exactly what its tracker completed it with |
| ProducerOutcomes.FinalReceiveNeverBlocks | producer.go:459-473 | after a failed abandon the outcome is already there |
| ProducerOutcomes.CompletedResultWins | producer.go:601-616 | a result completed before the caller gives up is the one it reports, whatever happens in between |
| ProducerOutcomes.OutcomeIsPermanent | publish_tracker.go:148-153 | a completed attempt keeps its outcome in every continuation |
| ProducerOutcomes.MisattributionIffSequenceReused | publish_tracker.go:113-127 | an abandon misreports exactly if the caller's attempt is completed with another result and a live attempt of another call has the same sequence |
| ProducerRuns.AReusedSequenceMisattributes | producer.go:601-616 | some run with a reused sequence ends with a call reporting Ambiguous although its tracker completed it as Confirmed |
| ProducerWindow.WindowHolds | producer.go:475-498 | the active count is the number of open calls and never exceeds MaxOutstanding |
| ProducerWindow.RegistrationNeverFull | publish_tracker.go:67-78 | a call that reaches registration is never refused for the outstanding limit |
| ProducerWindow.DrainsExactlyOnce | producer.go:566-581 | the drain condition is found true at most once and from then on no call is ever active |
| ProducerClosing.ShutdownClosesEveryGenerationOnce | producer.go:944-985 | no connection is closed twice, and when shutdown is done every generation ever dialled has been closed exactly once |
| ProducerClosing.StepKeepsClosing | producer_open.go:163-275 | every step keeps: a generation that is neither current nor being set up is closed already |
| ProducerRuns.APublicationCanBeConfirmed | producer.go:349-449 | for every session some run with fresh sequences ends with a call reporting Confirmed as its tracker completed it |
| ProducerRuns.AShutdownCanComplete | producer.go:861-900 | some run completes shutdown with the connection closed once |
| ProducerRuns.AFailedSendCanLeaveItsTrackerOpen | producer.go:500-515 | some run marks a failed send after shutdown began and can register on the same tracker |
| ProducerLate.LiveAtDoneIff | producer.go:691-740 | once the loop has exited, and so when shutdown is done, with fresh sequences an attempt is live if and only if it was registered after its generation ended and its call still pursues it |
| ProducerLate.LiveAfterExitIsLate | producer.go:633-676 | one half of that for every run, with reused sequences too |
| ProducerLate.LateRegistrationNeeds | producer.go:366-383 | a registration on a generation the loop has left happens only after shutdown began or past an outdated availability check |
| ProducerRuns.AnAttemptCanOutliveShutdown | producer.go:360-395 | some run is done shutting down while an attempt is live |
| ConsumerSafety.ReachableConserves | consumer.go:374-488 | copies of every envelope read are conserved over ring, jobs, handler, settlement, done and dropped, and Done means the workers are idle |
| ConsumerTags.InExactlyOnePlace | consumer.go:422-458 | with unique tags a valid delivery that was read is in exactly one place and was neither rejected nor skipped |
| ConsumerTags.SettledAtMostOnce | consumer.go:537-623 | over every run each generation's channel sees at most as many settlements of a tag as its own stream delivered it: none for a tag of another generation, at most one if tags are unique |
| ConsumerSafety.AdmissionNeedsOpenGates | consumer.go:386-410 | a step puts an envelope into jobs only with shutdown admission open and not paused unless draining |
| ConsumerSafety.ShutdownStopsAdmission | consumer.go:386-396 | while the shutdown flag is set nothing enters jobs in any continuation |
| ConsumerSafety.PauseStopsAdmission | consumer.go:386-410 | while the pause flag is set nothing enters jobs until Resume or draining, in any continuation |
| ConsumerGates.PauseTakesEffect | consumer.go:744-757 | from the Pause call itself: nothing enters jobs until Resume or draining, in any continuation |
| ConsumerGates.ResumeTakesEffect | consumer.go:759-772 | after Resume some continuation admits the oldest waiting delivery |
| ConsumerGates.ShutdownTakesEffect | consumer.go:885-903 | from the Shutdown call itself: nothing enters jobs ever again |
| ConsumerGates.OpenGateAdmits | consumer.go:397-410 | with open gates and room in jobs the oldest waiting delivery can be admitted |
| ConsumerGates.ConcurrencyIsBounded | consumer.go:313-325 | over every run at most Concurrency handlers run and at most Prefetch admitted deliveries wait |
| ConsumerGates.NoReadAhead | consumer.go:490-492 | over every run without a pause at most one delivery waits in the buffer |
| ConsumerGates.LossMeansRecovery | consumer.go:422-485 | a consumer goes into recovery exactly when its generation fails, a rejection cannot be sent, or its stream or broker-side consumer ends while it is not stopping; it ends for good exactly at its lifetime's end, at a recovery stop or at a completed drain; while stopping it drains instead |
| ConsumerGates.LeavingDecides | consumer.go:325-349 | what follows is recovery or the end accordingly; recovery installs a new generation, or ends with the consumer stopping or terminal |
| ConsumerProgress.StopCanComplete | consumer.go:313-372 | from every reachable state of a consumer with a worker some continuation closes Done: no order of steps deadlocks gates, loop and workers |
| ConsumerProgress.DrainFailureIsKept | consumer.go:625-647 | a generation that fails while the consumer is stopping makes the drain report an error in every continuation |
| ConsumerTags.DrainCompleteMeansAllAdmitted | consumer.go:386-435 | at the drain-complete exit without a drain error, of everything ever delivered on that stream each valid delivery entered jobs as often and in the order it arrived, each invalid one was rejected, and none was left behind |
| ConsumerSafety.AdmissionFollowsArrival | consumer.go:402-410 | admission order is arrival order within a generation and the buffer never exceeds Prefetch+1 |
| ConsumerSafety.DoneMeansAllHandled | consumer.go:351-372 | when Done closes, everything ever admitted was settled or delegated exactly once and its result completed exactly once |
| ConsumerRuns.ADrainCanComplete | consumer.go:418-420 | some run leaves by the drain-complete exit without a drain error, with a delivery read, admitted and settled |
| ConsumerRuns.DoneCanClose | consumer.go:351-372 | and goes on until Done closes |
| PendingRing.Ring.Enqueue | consumer.go:453-456 | appends at the tail without touching a pending slot |
| PendingRing.Ring.TakeHead | consumer.go:399-408 | removes the oldest delivery and clears its slot |
| PendingRing.Ring.Discard | consumer.go:387-396 | empties the buffer and clears every slot |
| PendingRing.SlotIsRemainder | consumer.go:403-404 | the remainder the source computes is the circular position |
| PendingRing.Follow | consumer.go:374-488 | for every reachable state and loop step the buffer holds exactly the protocol's queue afterwards, and a slot is free whenever a delivery is accepted |
| ObservationSafety.NothingVanishes | observation.go:148-163 | in every interleaving accepted emits equal what is received, buffered, counted as dropped or in the hands of running calls |
| ObservationSafety.Conservation | observation.go:165-185 | after close and read-out, accepted emits equal the received events with their losses plus the losses of the terminal event, which is last |
| ObservationSafety.TerminalSendNeverBlocks | observation.go:175-183 | the closer always has a step to take while it holds the lock and finishes within six of them |
| ObservationSafety.ClosedIsFinal | observation.go:148-154 | from the closed flag on the accepted count never changes, and from the closed channel on the sent sequence does not either |
| ObservationSafety.StreamKeepsOrder | observation.go:148-194 | readers see events in the order they were sent: a step appends one, lets a reader take the oldest or has the closer of a full stream displace the oldest, and nothing else changes the stream |
| ObservationStream.Stream.Emit | observation.go:148-163 | one call has the effect of its protocol steps run alone; a closed stream accepts nothing |
| ObservationStream.Stream.Close | observation.go:165-185 | leaves a terminal event at the end, gives up the oldest event only if the buffer is full and counts it as lost, and does nothing the second time |
| ObservationStream.Stream.Receive | observation.go:187-194 | takes the oldest event or reports that there is none |
| Settlement.IssuedIsValid | settlement.go:64-85 | what is issued is always a valid settlement and the bound only ever clears the requeue flag |
| Settlement.HandlerDecides | consumer.go:537-623 | the channel sees what the handler answered: an acknowledgement is acked, a delegation sends nothing, other answers keep their own way with at most their own requeue; a failed, late or invalid answer uses the failure policy's way |
| Settlement.RequeueGrantedIff | settlement.go:64-85 | exactly when a requested requeue is granted: on a quorum queue if the acquired count is below the bound, for rejections without one if the delivery count is, and otherwise on the first delivery only; never with a zero bound |
| Settlement.QuorumRequeueBound | settlement.go:64-85 | if acquired counts cover the earlier requeues, a message is requeued at most MaxRequeues times, whatever handlers do |
| Settlement.FlagRequeueBound | settlement.go:76-84 | with only the redelivered flag it is requeued at most once |
| Settlement.ZeroNeverRequeues | settlement.go:69-71 | a bound of zero never requeues |
| Settlement.MixedRequeueBound | settlement.go:76-82 | with delivery counts only, rejections respect the bound and negative acknowledgements add at most one requeue |
| Settlement.BoundExceededWithoutAcquiredCounts | settlement.go:76-82 | for every positive bound a history with a negative acknowledgement first exceeds it by one |
| Settlement.BoundHoldsIffOneWay | settlement.go:64-85 | with delivery counts only, the bound holds for every history if and only if it is zero or negative acknowledgements and rejections are not both used to requeue |
| SettlementResult.Shared.Complete | delivery_settlement.go:57-65 | the first completion decides |
| SettlementResult.CompleteAll | delivery_settlement.go:57-65 | after any sequence of completions the result is the first one |
| SettlementResult.SharedIsFirstCompletion | delivery_settlement.go:57-65 | over every run of completions and waits the shared result is the first completion's, and open without one |
| SettlementResult.EveryLaterWaitReturnsTheResult | delivery_settlement.go:28-55 | once completed, every wait still running or started later returns exactly that result, however contexts end and whatever completions follow |
| SettlementResult.CompletedResultUnblocks | delivery_settlement.go:35-46 | a completed result leaves no wait blocked |
| Text.TokenIsIdentity | producer.go:380-380 | every admitted session and 64-bit sequence give a token that delivery accepts as an identity |
| Text.TokenInjective | producer.go:380-380 | tokens of one session tell sequences apart |
| Text.IncreasingUnique | delivery.go:343-360 | a set of keys has one strictly increasing listing |
| Messages.CheckHeaders | message.go:199-243 | the header loop accepts exactly the lists valid as a whole and reports the first fault |
| Messages.Validate | message.go:166-246 | accepts exactly the valid publications |
| Messages.EncodeHeaders | producer.go:1008-1021 | the table holds every header's value and the token, and nothing else |
| Messages.Encode | producer.go:1007-1046 | the wire form carries each property, the priority with zero for omission, and the expiration as decimal milliseconds |
| DeliveryHeaders.AdmittedHeaderCount | delivery.go:379-398 | admission equals the whole-table test for every iteration order and counts the application keys |
| DeliveryHeaders.MaterialisedHeaders | delivery.go:343-375 | the second pass returns the converted entries sorted by key and recomputes the admitted byte count |
| DeliveryHeaders.HeaderListUnique | delivery.go:343-375 | a table has one such list |
| Deliveries.ExpirationRoundTrip | delivery.go:331-341 | every admissible duration survives the millisecond text without overflow |
| Deliveries.DeathSummaryBytes | delivery.go:400-447 | accepts exactly the valid summaries that fit and returns their size |
| Deliveries.ReadDeath | delivery.go:516-594 | accepts exactly the well-formed records and charges them their data and the text of their original expiration |
| Deliveries.ReadRecords | delivery.go:488-514 | accepts exactly if all records are valid and together fit the rest of the budget |
| Deliveries.ReadTable | delivery.go:275-304 | the running budget checks accept exactly the tables whose one total fits |
| Deliveries.DeliveryFromAMQP | delivery.go:248-320 | accepts exactly the acceptable deliveries and keeps every property, header, counter and death record |
| Deliveries.DeliveryUnique | delivery.go:248-320 | the result does not depend on the iteration order of the table |
| Deliveries.MetadataWithinBudget | delivery.go:275-304 | headers, death summaries, eight bytes per counter and death records of the result together never exceed MaxHeaderBytes |
| BrokerMetadata.DeathRoundTrip | delivery.go:516-594 | every death record the broker can write, with its count in any integer form, is read back field by field |
| BrokerMetadata.DeathsSurvive | delivery.go:488-514 | a delivery's death records are those the broker wrote, in order |
| BrokerMetadata.CountersSurvive | delivery.go:476-487 | acquired and delivery counts come back with the value written, in any integer form |
| BrokerMetadata.CountersNeedCounts | delivery.go:595-610 | a counter that is negative or not an integer is refused |
| BrokerMetadata.HeadersKeepMeaning | producer.go:1008-1021 | reading back a published header gives its key and value |
| BrokerMetadata.DeliveredHeadersKeepMeaning | delivery.go:449-474 | every application header of a delivery has the key, kind and value of its table entry |
| RoundTrip.DeliveredIff | delivery.go:255-260 | a valid publication carried unchanged is accepted under the same limits if and only if its exchange is control-free |
| RoundTrip.TabInExchange | config.go:183-186 | a whole publication with a tab inside its exchange name is valid, is carried unchanged, and is refused on delivery under the same limits |
| RoundTrip.ContentsSurvive | delivery.go:305-321 | any conversion of it has the same body, properties, mode and expiration, the same headers sorted by key, and hides the token |
| RoundTrip.PublishThenDeliver | delivery.go:248-320 | both together, for every iteration order |
| QueuePolicy.QueueArguments | topology_apply.go:319-372 | each argument is present exactly when the queue has it, with its encoded value |
| QueuePolicy.DeclarationIsLossless | topology_apply.go:319-372 | name, flags and arguments of a valid queue determine it: a decoder inverts them |
| QueuePolicy.DeclareTwice | topology.go:191-286 | two valid queues declare alike if and only if they are equal |
| QueuePolicy.QueueCapabilities | topology.go:199-219 | the admitted combinations of type, durability, exclusivity and policies, in terms of the policies only one of the two types has |
| TopologyGraph.Validate | topology.go:372-418 | accepts exactly the admitted graphs: bounds, unique names, declarable queues, bindings whose ends are in the graph |
| TopologyApply.ApplyChannel | topology_apply.go:177-243 | issues a prefix of the plan up to the first request not accepted; success returns exactly the input queue names in order |
| TopologyApply.BindAfterAcceptedEnds | topology_apply.go:231-241 | a bind is issued only after both its ends were declared and accepted |
| TopologyApply.RetryLoop | topology_apply.go:105-171 | at most MaxAttempts attempts over the endpoints in turn with capped doubling delays; success exactly if the last attempt completed the plan and closed cleanly; another attempt only after one that decided nothing; an error only when attempts ran out, the context ended, closing failed or the broker refused, with the matching error |
| TopologyApply.ApplyTopology | topology_apply.go:84-171 | inputs that are not admitted reach no broker; all others behave as the retry loop, and success returns the input queue names |
| TopologyApply.DelayDoubles | producer_open.go:331-333 | the k-th delay is the smaller of Initial times two to the k and Max |
| TopologyApply.DeclaresAtMostOnce | topology_apply.go:132-145 | in declare mode the requests of all attempts form one prefix of the plan |
| TopologyApply.PassiveNeverMutates | topology_apply.go:184-230 | in passive mode no request of any attempt mutates |

## Left out

- Wall-clock timers and deadlines: a deadline or a cancellation is a free choice of the run.
- Fairness and time: that shutdown and recovery can complete is proved, not that a scheduler brings it about.
- Initial opening (`openProducerWith`, `openConsumerWith`), dialling, TLS, credentials and client configuration.
- The blocked-state stream, health views, error texts and the observations emitted along the way.
- `PublishBatch` and `PublishAsync` beyond the publish call they run; copying of caller-owned slices.
- Connection closing on the consumer side: generations are replaced, their close results are not tracked.
- Handlers that panic, never return or change the counters of a delivery.
- Counters are unbounded naturals: the 64-bit wrap-around of the dropped counter, sequences and delivery tags is not modelled.
- The event loop's receive of a return and its correlation are one step; nothing else reads that queue in between.
- The failure signal of a generation is a free choice of the loop to end it, which allows more runs than the source.
- The parts of the consumer configuration that do not concern limits are one boolean in `Deliveries.ConsumerPolicy`.
- Field values of the same meaning are one constructor: all signed widths, and all unsigned widths up to 32 bits.
- Names of declaration arguments are constructors rather than text.
- `validBindingArgumentsWithLimits` and `validHeadersBindingArguments` appear as predicates on the whole list, not as loops.
- ObservationSafety.Conservation: capacity zero is not covered, because an unbuffered channel loses every event without a waiting reader.
