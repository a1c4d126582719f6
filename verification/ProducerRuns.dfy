/**
  Runs that exist. They show that the hypotheses of the safety theorems are met, and that the properties which hold
  only under a condition do fail on some run without it.
 */
module ProducerRuns {
  import opened Basics
  import opened TrackerSpec
  import opened ProducerProtocol
  import opened ProducerOutcomes
  import opened ProducerSeal
  import Text

  lemma ReachInit(session: Bytes)
    ensures FreshReachable(Init(2, 0, session))
  {
    var c := Config(2, 0, session);
    assert After(c, []) == Some(Init(2, 0, session));
    assert FreshFrom(Init(c.maximum, c.maxAttempts, c.session), []);
  }

  lemma ReachStep(s: State, step: Step, s': State)
    requires FreshReachable(s) && Next(s, step) == Some(s') && FreshStep(s, step)
    ensures FreshReachable(s')
  {
    var c, steps :| After(c, steps) == Some(s) && FreshFrom(Init(c.maximum, c.maxAttempts, c.session), steps);
    var more := steps + [step];
    assert more[..|more| - 1] == steps;
    assert After(c, more) == Some(s');
    assert FreshFrom(Init(c.maximum, c.maxAttempts, c.session), more);
  }

  lemma FreshIsReachable(s: State)
    requires FreshReachable(s)
    ensures Reachable(s)
  {
  }

  // ---------------------------------------------------------------- one call on one generation

  /** A producer with its first generation and the given calls, all of them open. */
  function World(calls: map<CallId, Phase>, lock: Holder, gen: Generation, serve: ServeStage): State {
    State(2, 0, false, false, false, false, false, false, |calls|, 0, 0, lock, [gen], calls, Serving(0, serve), Open)
  }

  function One(phase: Phase, lock: Holder, gen: Generation, serve: ServeStage): State {
    World(map[0 := phase], lock, gen, serve)
  }

  function Two(first: Phase, second: Phase, lock: Holder, gen: Generation): State {
    World(map[0 := first, 1 := second], lock, gen, Selecting(true))
  }

  lemma OnePhase(a: Phase, b: Phase)
    ensures map[0 := a][0 := b] == map[0 := b]
  {
  }

  lemma TwoPhases(a: Phase, b: Phase, c: Phase)
    ensures map[0 := a][1 := b] == map[0 := a, 1 := b]
    ensures map[0 := a, 1 := b][1 := c] == map[0 := a, 1 := c]
    ensures map[0 := a, 1 := b][0 := c] == map[0 := c, 1 := b]
    ensures |map[0 := a, 1 := b]| == 2
  {
    assert map[0 := a, 1 := b].Keys == {0, 1};
  }

  lemma OneGeneration(a: Generation, b: Generation)
    ensures [a][0 := b] == [b]
  {
  }

  lemma CallMove(phase: Phase, lock: Holder, gen: Generation, c: CallStep, phase': Phase, lock': Holder)
    requires FreshReachable(One(phase, lock, gen, Selecting(true))) && !c.Register?
    requires CallNext(One(phase, lock, gen, Selecting(true)), 0, c) ==
             Some(Moved(One(phase, lock, gen, Selecting(true)), 0, phase', lock'))
    ensures FreshReachable(One(phase', lock', gen, Selecting(true)))
  {
    OnePhase(phase, phase');
    ReachStep(One(phase, lock, gen, Selecting(true)), ByCaller(0, c), One(phase', lock', gen, Selecting(true)));
  }

  lemma LoopMove(phase: Phase, gen: Generation, serve: ServeStage, l: LoopStep, gen': Generation, serve': ServeStage)
    requires FreshReachable(One(phase, Free, gen, serve))
    requires LoopNext(One(phase, Free, gen, serve), l) ==
             Some(LoopWithGen(One(phase, Free, gen, serve), 0, gen', Serving(0, serve')))
    ensures FreshReachable(One(phase, Free, gen', serve'))
  {
    OneGeneration(gen, gen');
    ReachStep(One(phase, Free, gen, serve), ByLoopTask(l), One(phase, Free, gen', serve'));
  }

  /** An idle producer admits a call that passes every check. */
  lemma CallEnters(session: Bytes)
    ensures FreshReachable(One(Entered(Available), ByCall(0), NewGeneration(session), Selecting(true)))
  {
    var gen := NewGeneration(session);
    ReachInit(session);
    assert CallNext(Init(2, 0, session), 0, Admit) == Some(One(Admitted, Free, gen, Selecting(true)));
    ReachStep(Init(2, 0, session), ByCaller(0, Admit), One(Admitted, Free, gen, Selecting(true)));
    CallMove(Admitted, Free, gen, AcquireLock, Entered(Locked), ByCall(0));
    CallMove(Entered(Locked), ByCall(0), gen, CheckClosing, Entered(NotClosing), ByCall(0));
    CallMove(Entered(NotClosing), ByCall(0), gen, CheckAvailable, Entered(Available), ByCall(0));
  }

  function Fresh(session: Bytes): Record {
    NewRecord(1, Text.Token(session, 1), [], [])
  }

  function WithAttempt(session: Bytes): Generation {
    NewGeneration(session).(attempts := map[0 := Fresh(session)])
  }

  lemma FirstRegistration(session: Bytes, t: map<CallId, Record>)
    requires LiveKeys(t) == {}
    ensures Refusal(2, t, 1, Text.Token(session, 1)).None?
  {
    assert forall k | k in t :: k !in LiveKeys(t);
  }

  lemma CallRegisters(session: Bytes)
    ensures FreshReachable(One(Held(0, Registered), ByCall(0), WithAttempt(session), Selecting(true)))
  {
    CallEnters(session);
    var gen := NewGeneration(session);
    var s := One(Entered(Available), ByCall(0), gen, Selecting(true));
    var c := Register(1, [], []);
    FirstRegistration(session, gen.attempts);
    assert CallNext(s, 0, c) == Some(Inserted(s, 0, Fresh(session)));
    assert gen.attempts[0 := Fresh(session)] == map[0 := Fresh(session)];
    OneGeneration(gen, WithAttempt(session));
    OnePhase(Entered(Available), Held(0, Registered));
    ReachStep(s, ByCaller(0, c), One(Held(0, Registered), ByCall(0), WithAttempt(session), Selecting(true)));
  }

  lemma CallStartsSending(session: Bytes)
    ensures FreshReachable(One(Held(0, Sending), ByCall(0), WithAttempt(session), Selecting(true)))
  {
    CallRegisters(session);
    CallMove(Held(0, Registered), ByCall(0), WithAttempt(session), CheckClosingAgain, Held(0, Sending), ByCall(0));
  }

  lemma CallSends(session: Bytes)
    ensures FreshReachable(One(Loose(0, Waiting), Free, WithAttempt(session), Selecting(true)))
  {
    var gen := WithAttempt(session);
    CallStartsSending(session);
    CallMove(Held(0, Sending), ByCall(0), gen, SendEnds(Sent), Held(0, Unlocking(Sent)), ByCall(0));
    CallMove(Held(0, Unlocking(Sent)), ByCall(0), gen, Unlock, Loose(0, Waiting), Free);
  }

  // ---------------------------------------------------------------- its confirm arrives

  function WithOutcome(session: Bytes): Generation {
    WithAttempt(session).(confirmSeen := {1}, attempts := map[0 := Fresh(session).(outcome := Some(Plain(Confirmed)))])
  }

  function Seen(session: Bytes, queue: seq<Confirm>): Generation {
    WithAttempt(session).(confirmQueue := queue, confirmSeen := {1})
  }

  lemma ConfirmIsQueued(session: Bytes, phase: Phase)
    requires FreshReachable(One(phase, Free, WithAttempt(session), Selecting(true)))
    ensures FreshReachable(One(phase, Free, Seen(session, [Confirm(1, true)]), Selecting(true)))
  {
    var gen := WithAttempt(session);
    assert gen.confirmQueue + [Confirm(1, true)] == [Confirm(1, true)] && gen.confirmSeen + {1} == {1};
    OneGeneration(gen, Seen(session, [Confirm(1, true)]));
    ReachStep(One(phase, Free, gen, Selecting(true)), ConfirmArrives(0, Confirm(1, true)),
              One(phase, Free, Seen(session, [Confirm(1, true)]), Selecting(true)));
  }

  lemma ConfirmIsTaken(session: Bytes, phase: Phase)
    requires FreshReachable(One(phase, Free, Seen(session, [Confirm(1, true)]), Selecting(true)))
    ensures FreshReachable(One(phase, Free, Seen(session, []), Draining(true, Confirm(1, true))))
  {
    var confirm := Confirm(1, true);
    assert [confirm][1..] == [];
    LoopMove(phase, Seen(session, [confirm]), Selecting(true), TakeConfirm, Seen(session, []), Draining(true, confirm));
  }

  lemma ReturnsAreDrained(session: Bytes, phase: Phase)
    requires FreshReachable(One(phase, Free, Seen(session, []), Draining(true, Confirm(1, true))))
    ensures FreshReachable(One(phase, Free, Seen(session, []), Confirming(true, Confirm(1, true))))
  {
    var confirm := Confirm(1, true);
    ReachStep(One(phase, Free, Seen(session, []), Draining(true, confirm)), ByLoopTask(DrainDone),
              One(phase, Free, Seen(session, []), Confirming(true, confirm)));
  }

  lemma ConfirmIsApplied(session: Bytes, phase: Phase)
    requires FreshReachable(One(phase, Free, WithAttempt(session), Selecting(true)))
    ensures FreshReachable(One(phase, Free, WithOutcome(session), Selecting(true)))
  {
    ConfirmIsQueued(session, phase);
    ConfirmIsTaken(session, phase);
    ReturnsAreDrained(session, phase);
    OutcomeIsRecorded(session, phase);
  }

  lemma OutcomeOfConfirm(t: map<CallId, Record>, session: Bytes)
    requires t == map[0 := Fresh(session)]
    ensures Apply(t, ConfirmSeen(1, true)) == map[0 := Fresh(session).(outcome := Some(Plain(Confirmed)))]
  {
  }

  lemma ConfirmStep(s: State, confirm: Confirm)
    requires |s.gens| == 1 && s.loop == Serving(0, Confirming(true, confirm))
    ensures Next(s, ByLoopTask(ApplyConfirm)) ==
            Some(LoopNotified(s, 0, ConfirmSeen(confirm.sequence, confirm.ack), Serving(0, Selecting(true))))
  {
  }

  lemma ConfirmedGeneration(s: State, session: Bytes)
    requires s.gens == [Seen(session, [])]
    ensures LoopNotified(s, 0, ConfirmSeen(1, true), Serving(0, Selecting(true))) ==
            s.(gens := [WithOutcome(session)], loop := Serving(0, Selecting(true)))
  {
    var gen := Seen(session, []);
    OutcomeOfConfirm(gen.attempts, session);
    OneGeneration(gen, WithOutcome(session));
  }

  lemma OutcomeIsRecorded(session: Bytes, phase: Phase)
    requires FreshReachable(One(phase, Free, Seen(session, []), Confirming(true, Confirm(1, true))))
    ensures FreshReachable(One(phase, Free, WithOutcome(session), Selecting(true)))
  {
    var s := One(phase, Free, Seen(session, []), Confirming(true, Confirm(1, true)));
    ConfirmStep(s, Confirm(1, true));
    ConfirmedGeneration(s, session);
    ReachStep(s, ByLoopTask(ApplyConfirm), LoopNotified(s, 0, ConfirmSeen(1, true), Serving(0, Selecting(true))));
  }

  /** A publication can be confirmed: its call reports what the tracker completed it with. */
  lemma APublicationCanBeConfirmed(session: Bytes)
    ensures FreshReachable(One(Finished(Plain(Confirmed), Some(0)), Free, WithOutcome(session), Selecting(true)))
  {
    CallSends(session);
    ConfirmIsApplied(session, Loose(0, Waiting));
    ConfirmedCallReceives(session);
  }

  lemma ConfirmedCallReceives(session: Bytes)
    requires FreshReachable(One(Loose(0, Waiting), Free, WithOutcome(session), Selecting(true)))
    ensures FreshReachable(One(Finished(Plain(Confirmed), Some(0)), Free, WithOutcome(session), Selecting(true)))
  {
    CallMove(Loose(0, Waiting), Free, WithOutcome(session), Receive, Finished(Plain(Confirmed), Some(0)), Free);
  }

  // ---------------------------------------------------------------- a reused sequence

  /** The first call is about to give up, but its publication was confirmed meanwhile. */
  lemma CallGivesUpTooLate(session: Bytes)
    ensures FreshReachable(One(Loose(0, GivingUp), Free, WithOutcome(session), Selecting(true)))
  {
    var gen := WithAttempt(session);
    CallSends(session);
    CallMove(Loose(0, Waiting), Free, gen, ContextDone, Loose(0, Cancelling), Free);
    CallMove(Loose(0, Cancelling), Free, gen, Recheck, Loose(0, GivingUp), Free);
    ConfirmIsApplied(session, Loose(0, GivingUp));
  }

  /** A second call is admitted and passes every check. */
  lemma SecondCallEnters(first: Phase, gen: Generation)
    requires Reachable(One(first, Free, gen, Selecting(true))) && !first.HoldsLock()
    ensures Reachable(Two(first, Entered(Available), ByCall(1), gen))
  {
    SecondCallIsAdmitted(first, Free, gen);
    TwoPhases(first, Admitted, Entered(Locked));
    ReachableFurther(Two(first, Admitted, Free, gen), ByCaller(1, AcquireLock),
                     Two(first, Entered(Locked), ByCall(1), gen));
    TwoPhases(first, Entered(Locked), Entered(NotClosing));
    ReachableFurther(Two(first, Entered(Locked), ByCall(1), gen), ByCaller(1, CheckClosing),
                     Two(first, Entered(NotClosing), ByCall(1), gen));
    TwoPhases(first, Entered(NotClosing), Entered(Available));
    ReachableFurther(Two(first, Entered(NotClosing), ByCall(1), gen), ByCaller(1, CheckAvailable),
                     Two(first, Entered(Available), ByCall(1), gen));
  }

  lemma SecondCallIsAdmitted(first: Phase, lock: Holder, gen: Generation)
    requires Reachable(One(first, lock, gen, Selecting(true)))
    ensures Reachable(Two(first, Admitted, lock, gen))
  {
    TwoPhases(first, Admitted, Admitted);
    ReachableFurther(One(first, lock, gen, Selecting(true)), ByCaller(1, Admit), Two(first, Admitted, lock, gen));
  }

  function Reused(session: Bytes, second: Record): Generation {
    WithOutcome(session).(attempts := map[0 := Fresh(session).(outcome := Some(Plain(Confirmed))), 1 := second])
  }

  /** The channel hands the second call the sequence of the first. */
  lemma SequenceIsReused(session: Bytes)
    ensures Reachable(Two(Loose(0, GivingUp), Held(0, Registered), ByCall(1), Reused(session, Fresh(session))))
  {
    CallGivesUpTooLate(session);
    var gen := WithOutcome(session);
    FreshIsReachable(One(Loose(0, GivingUp), Free, gen, Selecting(true)));
    SecondCallEnters(Loose(0, GivingUp), gen);
    var s := Two(Loose(0, GivingUp), Entered(Available), ByCall(1), gen);
    assert LiveKeys(gen.attempts) == {};
    FirstRegistration(session, gen.attempts);
    assert gen.attempts[1 := Fresh(session)] == Reused(session, Fresh(session)).attempts;
    OneGeneration(gen, Reused(session, Fresh(session)));
    TwoPhases(Loose(0, GivingUp), Entered(Available), Held(0, Registered));
    assert CallNext(s, 1, Register(1, [], [])) == Some(Inserted(s, 1, Fresh(session)));
    ReachableFurther(s, ByCaller(1, Register(1, [], [])),
                     Two(Loose(0, GivingUp), Held(0, Registered), ByCall(1), Reused(session, Fresh(session))));
  }

  /** The first call then abandons the second call's attempt and reports it for its own, confirmed, publication. */
  lemma AReusedSequenceMisattributes(session: Bytes)
    ensures exists s :: Reachable(s) && 0 in s.calls && s.calls[0] == Finished(Plain(Ambiguous), Some(0)) &&
                        !Truthful(s, 0)
  {
    SequenceIsReused(session);
    var s := Two(Loose(0, GivingUp), Held(0, Registered), ByCall(1), Reused(session, Fresh(session)));
    GiveUpAbandons(s);
    ReachableFurther(s, ByCaller(0, GiveUp), Abandoned(s, 0, 0));
    GivingUpMisattributes(session);
  }

  lemma GiveUpAbandons(s: State)
    requires |s.gens| == 1 && 0 in s.gens[0].attempts && 0 in s.calls && s.calls[0] == Loose(0, GivingUp)
    ensures Next(s, ByCaller(0, GiveUp)) == Some(Abandoned(s, 0, 0))
  {
  }

  lemma GivingUpMisattributes(session: Bytes)
    ensures var s := Two(Loose(0, GivingUp), Held(0, Registered), ByCall(1), Reused(session, Fresh(session)));
      && 0 in Abandoned(s, 0, 0).calls && Abandoned(s, 0, 0).calls[0] == Finished(Plain(Ambiguous), Some(0))
      && !Truthful(Abandoned(s, 0, 0), 0)
  {
    var gen := Reused(session, Fresh(session));
    var s := Two(Loose(0, GivingUp), Held(0, Registered), ByCall(1), gen);
    assert gen.attempts[1].Live() && gen.attempts[1].sequence == gen.attempts[0].sequence;
    assert LiveSequence(gen, gen.attempts[0].sequence);
    AbandonReports(s, 0, 0);
  }

  // ---------------------------------------------------------------- a failed send after shutdown began

  /** A failed send is about to be marked, shutdown has begun, and a call waits for the lock. */
  function FailedWhileClosed(session: Bytes): State {
    Two(Held(0, Marking(SendFailed)), Admitted, ByCall(0), WithAttempt(session)).(closed := true, shutdown := WaitingDrain)
  }

  lemma FailedWhileClosedIsReachable(session: Bytes)
    ensures Reachable(FailedWhileClosed(session))
  {
    var gen := WithAttempt(session);
    CallStartsSending(session);
    CallMove(Held(0, Sending), ByCall(0), gen, SendEnds(SendFailed), Held(0, Marking(SendFailed)), ByCall(0));
    FreshIsReachable(One(Held(0, Marking(SendFailed)), ByCall(0), gen, Selecting(true)));
    SecondCallIsAdmitted(Held(0, Marking(SendFailed)), ByCall(0), gen);
    TwoPhases(Held(0, Marking(SendFailed)), Admitted, Admitted);
    ReachableFurther(Two(Held(0, Marking(SendFailed)), Admitted, ByCall(0), gen), ByShutdown, FailedWhileClosed(session));
  }

  /** Some run marks a failed send and registers on the same tracker afterwards. */
  lemma AFailedSendCanLeaveItsTrackerOpen(session: Bytes)
    ensures Reachable(FailedWhileClosed(session))
    ensures exists marked ::
      CallNext(FailedWhileClosed(session), 0, Mark) == Some(marked) && CanRegister(marked, 0)
  {
    FailedWhileClosedIsReachable(session);
    var s := FailedWhileClosed(session);
    assert s.calls[1].Admitted?;
    var marked := CallNext(s, 0, Mark).value;
    FailedSendLeavesTrackerOpenIff(s, 0, marked);
  }

  // ---------------------------------------------------------------- shutdown

  /** A producer that is shutting down, with the given calls still open. */
  function Ending(calls: map<CallId, Phase>, lock: Holder, session: Bytes, closing: bool, cancelled: bool,
                  close: CloseState, loop: Loop, shutdown: Shutdown): State {
    State(2, 0, true, false, false, false, closing, cancelled, |calls|, if |calls| == 0 then 1 else 0, 0, lock,
          [NewGeneration(session).(close := close, closes := if close.NotStarted? then 0 else 1, failed := loop.Exited?)],
          calls, loop, shutdown)
  }

  lemma ShutdownStep(s: State, s': State)
    requires FreshReachable(s) && ShutdownNext(s) == Some(s')
    ensures FreshReachable(s')
  {
    ReachStep(s, ByShutdown, s');
  }

  lemma ShutdownReachesClose(calls: map<CallId, Phase>, lock: Holder, session: Bytes)
    requires FreshReachable(World(calls, lock, NewGeneration(session), Selecting(true)))
    ensures FreshReachable(Closing(calls, lock, session, NotStarted))
  {
    var loop := Serving(0, Selecting(true));
    ShutdownStep(World(calls, lock, NewGeneration(session), Selecting(true)),
                 Ending(calls, lock, session, false, false, NotStarted, loop, WaitingDrain));
    ShutdownStep(Ending(calls, lock, session, false, false, NotStarted, loop, WaitingDrain),
                 Ending(calls, lock, session, true, false, NotStarted, loop, StoppingEvents));
    ShutdownStep(Ending(calls, lock, session, true, false, NotStarted, loop, StoppingEvents),
                 Ending(calls, lock, session, true, true, NotStarted, loop, ReadingCurrent));
    ShutdownStep(Ending(calls, lock, session, true, true, NotStarted, loop, ReadingCurrent),
                 Closing(calls, lock, session, NotStarted));
  }

  function Closing(calls: map<CallId, Phase>, lock: Holder, session: Bytes, close: CloseState): State {
    Ending(calls, lock, session, true, true, close, Serving(0, Selecting(true)), ClosingCurrent(0))
  }

  lemma CloseStartsRunning(calls: map<CallId, Phase>, lock: Holder, session: Bytes)
    requires FreshReachable(Closing(calls, lock, session, NotStarted))
    ensures FreshReachable(Closing(calls, lock, session, Running))
  {
    OneGeneration(Closing(calls, lock, session, NotStarted).gens[0], Closing(calls, lock, session, Running).gens[0]);
    ReachStep(Closing(calls, lock, session, NotStarted), CloseStarts(0), Closing(calls, lock, session, Running));
  }

  lemma CloseFinishes(calls: map<CallId, Phase>, lock: Holder, session: Bytes)
    requires FreshReachable(Closing(calls, lock, session, Running))
    ensures FreshReachable(Closing(calls, lock, session, Closed))
  {
    OneGeneration(Closing(calls, lock, session, Running).gens[0], Closing(calls, lock, session, Closed).gens[0]);
    ReachStep(Closing(calls, lock, session, Running), CloseEnds(0), Closing(calls, lock, session, Closed));
  }

  lemma LoopStops(calls: map<CallId, Phase>, lock: Holder, session: Bytes)
    requires FreshReachable(Ending(calls, lock, session, true, true, Closed, Serving(0, Selecting(true)), WaitingLoop))
    ensures FreshReachable(Ending(calls, lock, session, true, true, Closed, Serving(0, Stopping), WaitingLoop))
  {
    ReachStep(Ending(calls, lock, session, true, true, Closed, Serving(0, Selecting(true)), WaitingLoop),
              ByLoopTask(Cancelled), Ending(calls, lock, session, true, true, Closed, Serving(0, Stopping), WaitingLoop));
  }

  lemma NothingToFail(t: map<CallId, Record>, e: Event)
    requires t == map[]
    ensures Apply(t, e) == map[]
  {
  }

  /** Failing all attempts of an empty tracker only marks the generation as left. */
  lemma EmptyExit(s: State, gen: Generation)
    requires s.gens == [gen] && gen.attempts == map[]
    ensures LoopFailedAll(s, 0, Exited) == s.(gens := [gen.(failed := true)], loop := Exited)
  {
    NothingToFail(gen.attempts, FailAll(Ambiguous));
    assert gen.(attempts := map[], failed := true) == gen.(failed := true);
    OneGeneration(gen, gen.(failed := true));
  }

  lemma StopStep(s: State)
    requires |s.gens| == 1 && s.loop == Serving(0, Stopping)
    ensures Next(s, ByLoopTask(StopFailAll)) == Some(LoopFailedAll(s, 0, Exited))
  {
  }

  lemma LoopExits(calls: map<CallId, Phase>, lock: Holder, session: Bytes)
    requires FreshReachable(Ending(calls, lock, session, true, true, Closed, Serving(0, Stopping), WaitingLoop))
    ensures FreshReachable(Ending(calls, lock, session, true, true, Closed, Exited, WaitingLoop))
  {
    var stopping := Ending(calls, lock, session, true, true, Closed, Serving(0, Stopping), WaitingLoop);
    StopStep(stopping);
    EmptyExit(stopping, stopping.gens[0]);
    ReachStep(stopping, ByLoopTask(StopFailAll), LoopFailedAll(stopping, 0, Exited));
  }

  lemma ShutdownRuns(calls: map<CallId, Phase>, lock: Holder, session: Bytes)
    requires FreshReachable(World(calls, lock, NewGeneration(session), Selecting(true)))
    ensures FreshReachable(Ending(calls, lock, session, true, true, Closed, Exited, Done))
  {
    ShutdownReachesClose(calls, lock, session);
    CloseStartsRunning(calls, lock, session);
    CloseFinishes(calls, lock, session);
    ShutdownStep(Closing(calls, lock, session, Closed),
                 Ending(calls, lock, session, true, true, Closed, Serving(0, Selecting(true)), WaitingLoop));
    LoopStops(calls, lock, session);
    LoopExits(calls, lock, session);
    ShutdownStep(Ending(calls, lock, session, true, true, Closed, Exited, WaitingLoop),
                 Ending(calls, lock, session, true, true, Closed, Exited, Done));
  }

  /** A shutdown can complete. */
  lemma AShutdownCanComplete(session: Bytes)
    ensures FreshReachable(Ending(map[], Free, session, true, true, Closed, Exited, Done))
  {
    ReachInit(session);
    ShutdownRuns(map[], Free, session);
  }

  /** A shutdown can be done while an attempt is live: its call passed the last check before and registered after. */
  lemma AnAttemptCanOutliveShutdown(session: Bytes)
    ensures exists s :: FreshReachable(s) && s.shutdown.Done? && |s.gens| == 1 && 0 in s.gens[0].attempts &&
                        s.gens[0].attempts[0].Live()
  {
    var calls := map[0 := Entered(Available)];
    CallEnters(session);
    ShutdownRuns(calls, ByCall(0), session);
    var s := Ending(calls, ByCall(0), session, true, true, Closed, Exited, Done);
    FirstRegistration(session, s.gens[0].attempts);
    assert CallNext(s, 0, Register(1, [], [])) == Some(Inserted(s, 0, Fresh(session)));
    ReachStep(s, ByCaller(0, Register(1, [], [])), Inserted(s, 0, Fresh(session)));
    assert Inserted(s, 0, Fresh(session)).gens[0].attempts[0] == Fresh(session);
  }
}
