/** What every step of the producer keeps about generations, locks and registered attempts. */
module ProducerStructure {
  import opened Basics
  import opened TrackerSpec
  import Text
  import opened ProducerProtocol

  /** A call has the lock where it should, and its unfinished attempt is in the tracker of its generation. */
  ghost predicate CallOk(s: State, p: CallId)
    requires p in s.calls
  {
    var phase := s.calls[p];
    && (phase.HoldsLock() ==> s.lock == ByCall(p))
    && (phase.Pending() ==> phase.gen < |s.gens| && p in s.gens[phase.gen].attempts)
    && (phase.Pending() && phase.HoldsLock() ==> phase.gen == s.current)
  }

  /** Every attempt belongs to a call that registered it there, and is live only while that call pursues it. */
  ghost predicate AttemptOk(s: State, g: GenId, q: CallId)
    requires g < |s.gens| && q in s.gens[g].attempts
  {
    && q in s.calls
    && ((s.calls[q].Pending() && s.calls[q].gen == g) || s.calls[q].Finished? || s.calls[q].Released?)
    && (s.gens[g].attempts[q].Live() ==> s.calls[q].Pending())
  }

  ghost predicate AttemptsOk(s: State) {
    forall g, q | 0 <= g < |s.gens| && q in s.gens[g].attempts :: AttemptOk(s, g, q)
  }

  /** A dialled generation the loop has not installed is untouched by everybody else. */
  predicate Untouched(gen: Generation) {
    gen.attempts == map[] && gen.close == NotStarted && gen.closers == 0 && gen.closes == 0
  }

  predicate TasksOk(s: State) {
    && s.current < |s.gens|
    && (s.loop.Serving? ==> s.loop.gen == s.current)
    && (s.loop.Owning? ==> s.current < s.loop.gen && s.loop.gen + 1 == |s.gens| && Untouched(s.gens[s.loop.gen]))
    && (s.loop.Owning? && s.loop.own.InstallLocked? ==> s.lock == ByLoop)
    && (s.shutdown.Open? <==> !s.closed)
    && (s.shutdown.ClosingCurrent? ==> s.shutdown.gen == s.current)
  }

  ghost predicate Structure(s: State) {
    && TasksOk(s)
    && (forall p | p in s.calls :: CallOk(s, p))
    && AttemptsOk(s)
  }

  // ---------------------------------------------------------------- how trackers evolve

  /** A completed record never changes; correlation data never changes at all. */
  ghost predicate TableGrows(t: map<CallId, Record>, t': map<CallId, Record>) {
    && t.Keys == t'.Keys
    && forall q | q in t ::
         && t'[q].sequence == t[q].sequence && t'[q].token == t[q].token
         && (t[q].outcome.Some? ==> t'[q] == t[q])
  }

  /** An event only lets a tracker grow. */
  lemma ApplyGrows(t: map<CallId, Record>, e: Event)
    ensures TableGrows(t, Apply(t, e))
  {
  }

  /** An abandon leaves the attempt it names completed. */
  lemma AbandonEnds(t: map<CallId, Record>, p: CallId, state: PublishState)
    requires p in t && Abandonable(state)
    ensures !Apply(t, Abandon(t[p].sequence, state))[p].Live()
  {
  }

  // ---------------------------------------------------------------- steps of a call

  /**
    One call moves to `phase`; at most one tracker, that of `g`, grows; `g` is not the generation the loop
    is still setting up; the lock changes hands only between this call and nobody.
   */
  ghost predicate CallMoves(s: State, s': State, p: CallId, g: GenId, phase: Phase) {
    && p in s.calls && g < |s.gens| && |s'.gens| == |s.gens|
    && s' == s.(calls := s.calls[p := phase], gens := s.gens[g := s'.gens[g]], lock := s'.lock,
                unavailable := s'.unavailable, recovering := s'.recovering, active := s'.active,
                drainSignals := s'.drainSignals)
    && TableGrows(s.gens[g].attempts, s'.gens[g].attempts)
    && (s'.gens[g] != s.gens[g] ==> p in s.gens[g].attempts)
    && HandsOver(s.lock, s'.lock, p)
  }

  predicate HandsOver(lock: Holder, lock': Holder, p: CallId) {
    lock' == lock || ((lock.Free? || lock == ByCall(p)) && (lock'.Free? || lock' == ByCall(p)))
  }

  lemma CallMoveKeepsStructure(s: State, s': State, p: CallId, g: GenId, phase: Phase)
    requires Structure(s) && CallMoves(s, s', p, g, phase)
    requires phase.HoldsLock() ==> s'.lock == ByCall(p)
    requires phase.Pending() ==> s.calls[p].Pending() && phase.gen == s.calls[p].gen
    requires phase.Held? ==> s.calls[p].Held?
    requires s.calls[p].Pending() && !phase.Pending() ==> !s'.gens[s.calls[p].gen].attempts[p].Live()
    requires s.calls[p].Pending() || s.calls[p].Finished? || s.calls[p].Released? ==>
               phase.Pending() || phase.Finished? || phase.Released?
    ensures Structure(s')
  {
    forall h, q | 0 <= h < |s'.gens| && q in s'.gens[h].attempts ensures AttemptOk(s', h, q) {
      assert AttemptOk(s, h, q);
    }
    forall q | q in s'.calls ensures CallOk(s', q) {
      assert CallOk(s, q);
    }
    assert s.loop.Owning? ==> p !in s.gens[s.loop.gen].attempts;
  }

  /** A step that only moves the call and the lock. */
  lemma QuietMoveKeepsStructure(s: State, p: CallId, phase: Phase, lock: Holder)
    requires Structure(s) && p in s.calls
    requires HandsOver(s.lock, lock, p)
    requires phase.HoldsLock() ==> lock == ByCall(p)
    requires phase.Pending() ==> s.calls[p].Pending() && phase.gen == s.calls[p].gen
    requires phase.Held? ==> s.calls[p].Held?
    requires s.calls[p].Pending() && !phase.Pending() ==>
               s.calls[p].gen < |s.gens| && p in s.gens[s.calls[p].gen].attempts &&
               !s.gens[s.calls[p].gen].attempts[p].Live()
    requires s.calls[p].Pending() || s.calls[p].Finished? || s.calls[p].Released? ==>
               phase.Pending() || phase.Finished? || phase.Released?
    ensures Structure(Moved(s, p, phase, lock))
  {
    CallMoveKeepsStructure(s, Moved(s, p, phase, lock), p, s.current, phase);
  }

  lemma MarkKeepsStructure(s: State, p: CallId)
    requires Structure(s) && p in s.calls && s.calls[p].Held? && CallNext(s, p, Mark).Some?
    ensures Structure(CallNext(s, p, Mark).value)
  {
    assert CallOk(s, p);
    var s' := CallNext(s, p, Mark).value;
    CallMoveKeepsStructure(s, s', p, s.current, s'.calls[p]);
  }

  /** The call is done and its tracker grew to `t`, where its attempt is completed. */
  lemma TrackerMoveKeepsStructure(s: State, p: CallId, phase: Phase, lock: Holder, g: GenId, t: map<CallId, Record>)
    requires Structure(s) && p in s.calls && s.calls[p].Pending() && s.calls[p].gen == g
    requires g < |s.gens| && p in s.gens[g].attempts && TableGrows(s.gens[g].attempts, t) && !t[p].Live()
    requires phase.Finished? && HandsOver(s.lock, lock, p)
    ensures Structure(MovedTracker(s, p, phase, lock, g, t))
  {
    CallMoveKeepsStructure(s, MovedTracker(s, p, phase, lock, g, t), p, g, phase);
  }

  /** The call gives its attempt up in the tracker and is done. */
  lemma AbandonKeepsStructure(s: State, p: CallId, state: PublishState, phase: Phase, lock: Holder)
    requires Structure(s) && p in s.calls && s.calls[p].Pending() && Abandonable(state)
    requires s.calls[p].gen < |s.gens| && p in s.gens[s.calls[p].gen].attempts
    requires phase.Finished? && HandsOver(s.lock, lock, p)
    ensures var t := s.gens[s.calls[p].gen].attempts;
            Structure(MovedTracker(s, p, phase, lock, s.calls[p].gen, Apply(t, Abandon(t[p].sequence, state))))
  {
    var g := s.calls[p].gen;
    var t := s.gens[g].attempts;
    var e := Abandon(t[p].sequence, state);
    ApplyGrows(t, e);
    AbandonEnds(t, p, state);
    TrackerMoveKeepsStructure(s, p, phase, lock, g, Apply(t, e));
  }

  lemma SpawnKeepsStructure(s: State, p: CallId, kind: SendKind)
    requires Structure(s) && p in s.calls && s.calls[p].Held? && s.calls[p].held == Signalling(kind) && kind.TimedOut?
    requires CallNext(s, p, Signal).Some?
    ensures Structure(CallNext(s, p, Signal).value)
  {
    assert CallOk(s, p);
    var g := s.calls[p].gen;
    CallMoveKeepsStructure(s, CallNext(s, p, Signal).value, p, g, Held(g, Unlocking(kind)));
  }

  lemma SignalKeepsStructure(s: State, p: CallId)
    requires Structure(s) && p in s.calls && s.calls[p].Held? && CallNext(s, p, Signal).Some?
    ensures Structure(CallNext(s, p, Signal).value)
  {
    assert CallOk(s, p);
    var kind := s.calls[p].held.kind;
    if kind.TimedOut? {
      SpawnKeepsStructure(s, p, kind);
    } else {
      QuietMoveKeepsStructure(s, p, Held(s.calls[p].gen, Unlocking(kind)), s.lock);
    }
  }

  lemma CheckAgainKeepsStructure(s: State, p: CallId)
    requires Structure(s) && p in s.calls && s.calls[p].Held? && CallNext(s, p, CheckClosingAgain).Some?
    ensures Structure(CallNext(s, p, CheckClosingAgain).value)
  {
    assert CallOk(s, p);
    if s.shutdownClosing {
      AbandonKeepsStructure(s, p, NotSent, Finished(Plain(NotSent), None), Free);
    } else {
      QuietMoveKeepsStructure(s, p, Held(s.calls[p].gen, Sending), s.lock);
    }
  }

  lemma HeldKeepsStructure(s: State, p: CallId, c: CallStep)
    requires Structure(s) && p in s.calls && s.calls[p].Held? && CallNext(s, p, c).Some?
    ensures Structure(CallNext(s, p, c).value)
  {
    var s' := CallNext(s, p, c).value;
    assert CallOk(s, p);
    match c {
      case CheckClosingAgain => CheckAgainKeepsStructure(s, p);
      case SendEnds(_) => QuietMoveKeepsStructure(s, p, s'.calls[p], s.lock);
      case Mark => MarkKeepsStructure(s, p);
      case Signal => SignalKeepsStructure(s, p);
      case Unlock => QuietMoveKeepsStructure(s, p, s'.calls[p], Free);
      case _ =>
    }
  }

  lemma AbandonedKeepsStructure(s: State, p: CallId, g: GenId)
    requires Structure(s) && p in s.calls && s.calls[p].Loose? && s.calls[p].gen == g
    requires g < |s.gens| && p in s.gens[g].attempts
    ensures Structure(Abandoned(s, p, g))
  {
    if LiveSequence(s.gens[g], s.gens[g].attempts[p].sequence) {
      AbandonKeepsStructure(s, p, Ambiguous, Finished(Plain(Ambiguous), Some(g)), s.lock);
    } else {
      QuietMoveKeepsStructure(s, p, Loose(g, Receiving), s.lock);
    }
  }

  lemma LooseKeepsStructure(s: State, p: CallId, c: CallStep)
    requires Structure(s) && p in s.calls && s.calls[p].Loose? && CallNext(s, p, c).Some?
    ensures Structure(CallNext(s, p, c).value)
  {
    var s' := CallNext(s, p, c).value;
    var g := s.calls[p].gen;
    assert CallOk(s, p);
    match c {
      case FailAttempt => AbandonedKeepsStructure(s, p, g);
      case GiveUp => AbandonedKeepsStructure(s, p, g);
      case DropPreflight => AbandonKeepsStructure(s, p, NotSent, Finished(Plain(NotSent), None), s.lock);
      case ContextDone => QuietMoveKeepsStructure(s, p, s'.calls[p], s.lock);
      case Recheck => QuietMoveKeepsStructure(s, p, s'.calls[p], s.lock);
      case Receive => QuietMoveKeepsStructure(s, p, s'.calls[p], s.lock);
      case _ =>
    }
  }

  lemma ReleaseKeepsStructure(s: State, p: CallId)
    requires Structure(s) && CallNext(s, p, Release).Some?
    ensures Structure(CallNext(s, p, Release).value)
  {
    match s.calls[p] {
      case Finished(result, sentOn) =>
        CallMoveKeepsStructure(s, CallNext(s, p, Release).value, p, s.current, Released(result, sentOn));
      case _ =>
    }
  }

  lemma OuterKeepsStructure(s: State, p: CallId, c: CallStep)
    requires Structure(s) && p in s.calls && !s.calls[p].Pending() && !c.Admit? && !c.Register?
    requires CallNext(s, p, c).Some?
    ensures Structure(CallNext(s, p, c).value)
  {
    var s' := CallNext(s, p, c).value;
    assert CallOk(s, p);
    match c {
      case AcquireLock => QuietMoveKeepsStructure(s, p, Entered(Locked), ByCall(p));
      case Expire => QuietMoveKeepsStructure(s, p, Finished(Plain(NotSent), None), s.lock);
      case CheckClosing => QuietMoveKeepsStructure(s, p, s'.calls[p], s'.lock);
      case CheckAvailable => QuietMoveKeepsStructure(s, p, s'.calls[p], s'.lock);
      case Release => ReleaseKeepsStructure(s, p);
      case _ =>
    }
  }

  lemma RegisterKeepsStructure(s: State, p: CallId, record: Record)
    requires Structure(s) && p in s.calls && s.calls[p] == Entered(Available)
    ensures Structure(Inserted(s, p, record))
  {
    var s' := Inserted(s, p, record);
    assert CallOk(s, p);
    forall q | q in s'.calls ensures CallOk(s', q) {
      assert CallOk(s, q);
    }
    forall g, q | 0 <= g < |s'.gens| && q in s'.gens[g].attempts ensures AttemptOk(s', g, q) {
      if q in s.gens[g].attempts {
        assert AttemptOk(s, g, q);
      }
    }
  }

  lemma RegisteringKeepsStructure(s: State, p: CallId, c: CallStep)
    requires Structure(s) && p in s.calls && s.calls[p] == Entered(Available) && c.Register?
    ensures Structure(Registering(s, p, c.sequence, c.exchange, c.route))
  {
    assert CallOk(s, p);
    var token := Text.Token(s.gens[s.current].session, c.sequence);
    if Refusal(s.maximum, s.gens[s.current].attempts, c.sequence, token).Some? {
      CallMoveKeepsStructure(s, Leave(s, p), p, s.current, Finished(Plain(NotSent), None));
    } else {
      RegisterKeepsStructure(s, p, NewRecord(c.sequence, token, c.exchange, c.route));
    }
  }

  lemma AdmitKeepsStructure(s: State, p: CallId)
    requires Structure(s) && CallNext(s, p, Admit).Some?
    ensures Structure(CallNext(s, p, Admit).value)
  {
    var s' := CallNext(s, p, Admit).value;
    forall g, q | 0 <= g < |s'.gens| && q in s'.gens[g].attempts ensures AttemptOk(s', g, q) {
      assert AttemptOk(s, g, q);
    }
    forall q | q in s'.calls ensures CallOk(s', q) {
      assert q in s.calls ==> CallOk(s, q);
    }
  }

  lemma CallKeepsStructure(s: State, p: CallId, c: CallStep)
    requires Structure(s) && CallNext(s, p, c).Some?
    ensures Structure(CallNext(s, p, c).value)
  {
    if c.Admit? {
      AdmitKeepsStructure(s, p);
    } else if s.calls[p].Held? {
      HeldKeepsStructure(s, p, c);
    } else if s.calls[p].Loose? {
      LooseKeepsStructure(s, p, c);
    } else if c.Register? {
      RegisteringKeepsStructure(s, p, c);
    } else {
      OuterKeepsStructure(s, p, c);
    }
  }

  // ---------------------------------------------------------------- steps of the other tasks

  /** The calls stand still and at most the tracker of `g` grows. */
  ghost predicate TaskMoves(s: State, s': State, g: GenId) {
    && g < |s.gens| && |s'.gens| == |s.gens|
    && s'.calls == s.calls && s'.gens == s.gens[g := s'.gens[g]]
    && TableGrows(s.gens[g].attempts, s'.gens[g].attempts)
    && ((s'.current == s.current && s'.lock == s.lock) || !s.lock.ByCall?)
  }

  lemma TaskMoveKeepsStructure(s: State, s': State, g: GenId)
    requires Structure(s) && TaskMoves(s, s', g) && TasksOk(s')
    ensures Structure(s')
  {
    forall h, q | 0 <= h < |s'.gens| && q in s'.gens[h].attempts ensures AttemptOk(s', h, q) {
      assert AttemptOk(s, h, q);
    }
    forall q | q in s'.calls ensures CallOk(s', q) {
      assert CallOk(s, q);
    }
  }

  lemma DialKeepsStructure(s: State, session: Bytes)
    requires Structure(s) && s.loop.Recovering? && LoopNext(s, Dial(session)).Some?
    ensures Structure(LoopNext(s, Dial(session)).value)
  {
    var s' := LoopNext(s, Dial(session)).value;
    forall h, q | 0 <= h < |s'.gens| && q in s'.gens[h].attempts ensures AttemptOk(s', h, q) {
      assert AttemptOk(s, h, q);
    }
    forall q | q in s'.calls ensures CallOk(s', q) {
      assert CallOk(s, q);
    }
  }

  /** The loop changes the generation it serves and stays in its own part of the cycle. */
  lemma ServedMoves(s: State, gen: Generation, loop: Loop)
    requires TasksOk(s) && s.loop.Serving? && TableGrows(s.gens[s.current].attempts, gen.attempts)
    requires (loop.Serving? && loop.gen == s.current) || loop.Exited? || loop.Recovering?
    ensures TaskMoves(s, LoopWithGen(s, s.current, gen, loop), s.current)
    ensures TasksOk(LoopWithGen(s, s.current, gen, loop))
  {
  }

  lemma FailedAllMoves(s: State, loop: Loop)
    requires TasksOk(s) && s.loop.Serving? && ((loop.Serving? && loop.gen == s.current) || loop.Exited?)
    ensures TaskMoves(s, LoopFailedAll(s, s.current, loop), s.current)
    ensures TasksOk(LoopFailedAll(s, s.current, loop))
  {
    var gen := s.gens[s.current];
    ApplyGrows(gen.attempts, FailAll(Ambiguous));
    ServedMoves(s, gen.(attempts := Apply(gen.attempts, FailAll(Ambiguous)), failed := true), loop);
  }

  lemma NotifiedMoves(s: State, e: Event, loop: Loop)
    requires TasksOk(s) && s.loop.Serving? && loop.Serving? && loop.gen == s.current
    ensures TaskMoves(s, LoopNotified(s, s.current, e, loop), s.current)
    ensures TasksOk(LoopNotified(s, s.current, e, loop))
  {
    var gen := s.gens[s.current];
    ApplyGrows(gen.attempts, e);
    ServedMoves(s, gen.(attempts := Apply(gen.attempts, e)), loop);
  }

  lemma CorrelatedMoves(s: State, stay: ServeStage)
    requires TasksOk(s) && s.loop.Serving? && s.gens[s.current].returnQueue != [] && Correlates(s.gens[s.current])
    ensures TaskMoves(s, ReturnTaken(s, s.current, stay), s.current) && TasksOk(ReturnTaken(s, s.current, stay))
  {
    var gen := s.gens[s.current];
    var e := ReturnSeen(gen.returnQueue[0].token.value, gen.returnQueue[0].ret);
    ApplyGrows(gen.attempts, e);
    ServedMoves(s, gen.(returnQueue := gen.returnQueue[1..], attempts := Apply(gen.attempts, e)),
                Serving(s.current, stay));
  }

  lemma ReturnTakenMoves(s: State, stay: ServeStage)
    requires TasksOk(s) && s.loop.Serving? && s.gens[s.current].returnQueue != []
    ensures TaskMoves(s, ReturnTaken(s, s.current, stay), s.current) && TasksOk(ReturnTaken(s, s.current, stay))
  {
    var gen := s.gens[s.current];
    if Correlates(gen) {
      CorrelatedMoves(s, stay);
    } else {
      ServedMoves(s, gen.(returnQueue := gen.returnQueue[1..]), Serving(s.current, Ending));
    }
  }

  /** Steps of the loop that leave the tracker alone. */
  lemma QuietServingMoves(s: State, l: LoopStep)
    requires TasksOk(s) && s.loop.Serving? && LoopNext(s, l).Some?
    requires l.TakeConfirm? || l.ReturnsEnd? || l.Break? || l.Cancelled? || l.DrainDone? || l.MarkEnd? || l.CloseOld? ||
             l.FinishRecovered?
    ensures TaskMoves(s, LoopNext(s, l).value, s.current) && TasksOk(LoopNext(s, l).value)
  {
    match l {
      case TakeConfirm => case ReturnsEnd => case Break => case Cancelled => case DrainDone =>
      case MarkEnd => case CloseOld => case FinishRecovered =>
    }
  }

  lemma ServingMoves(s: State, l: LoopStep)
    requires TasksOk(s) && s.loop.Serving? && LoopNext(s, l).Some?
    ensures TaskMoves(s, LoopNext(s, l).value, s.current) && TasksOk(LoopNext(s, l).value)
  {
    var g := s.current;
    var stage := s.loop.serve;
    match l {
      case TakeReturn => ReturnTakenMoves(s, stage);
      case DrainOne => ReturnTakenMoves(s, stage);
      case ApplyConfirm =>
        NotifiedMoves(s, ConfirmSeen(stage.confirm.sequence, stage.confirm.ack), Serving(g, Selecting(stage.listening)));
      case FailEach => FailedAllMoves(s, Serving(g, ClosingOld));
      case StopFailAll => FailedAllMoves(s, Exited);
      case _ => QuietServingMoves(s, l);
    }
  }

  lemma OwningMoves(s: State, l: LoopStep)
    requires TasksOk(s) && s.loop.Owning? && LoopNext(s, l).Some?
    ensures TaskMoves(s, LoopNext(s, l).value, s.loop.gen) && TasksOk(LoopNext(s, l).value)
  {
    match l { case SetupFails => case SetupWorks => case LockInstall => case Install => case DiscardClose => case _ => }
  }

  lemma RecoveryMoves(s: State, l: LoopStep)
    requires TasksOk(s) && !s.loop.Serving? && !s.loop.Owning? && !l.Dial? && LoopNext(s, l).Some?
    ensures TaskMoves(s, LoopNext(s, l).value, s.current) && TasksOk(LoopNext(s, l).value)
  {
    match s.loop {
      case Recovering(_) => match l { case Skip => case Quit => case _ => }
      case GivenUp =>
      case Exited =>
    }
  }

  lemma ShutdownMoves(s: State)
    requires TasksOk(s) && ShutdownNext(s).Some?
    ensures TaskMoves(s, ShutdownNext(s).value, s.current) && TasksOk(ShutdownNext(s).value)
  {
    match s.shutdown {
      case Open => case WaitingDrain => case StoppingEvents => case ReadingCurrent =>
      case ClosingCurrent(_) => case WaitingLoop => case Done =>
    }
  }

  predicate BrokerStep(step: Step) {
    !step.ByCaller? && !step.ByLoopTask? && !step.ByShutdown?
  }

  lemma BrokerMoves(s: State, step: Step)
    requires TasksOk(s) && BrokerStep(step) && BrokerNext(s, step).Some?
    ensures TaskMoves(s, BrokerNext(s, step).value, step.g)
    ensures TasksOk(BrokerNext(s, step).value)
  {
    match step {
      case ReturnArrives(_, _) =>
      case ConfirmArrives(_, _) =>
      case ReturnStreamCloses(_) =>
      case CloseStarts(_) =>
      case CloseEnds(_) =>
    }
  }

  /** Every step of every task keeps the structure. */
  lemma StepKeepsStructure(s: State, step: Step)
    requires Structure(s) && Next(s, step).Some?
    ensures Structure(Next(s, step).value)
  {
    match step
    case ByCaller(p, c) => CallKeepsStructure(s, p, c);
    case ByLoopTask(l) =>
      if s.loop.Serving? {
        ServingMoves(s, l);
        TaskMoveKeepsStructure(s, LoopNext(s, l).value, s.current);
      } else if s.loop.Recovering? && l.Dial? {
        DialKeepsStructure(s, l.session);
      } else if s.loop.Owning? {
        OwningMoves(s, l);
        TaskMoveKeepsStructure(s, LoopNext(s, l).value, s.loop.gen);
      } else {
        RecoveryMoves(s, l);
        TaskMoveKeepsStructure(s, LoopNext(s, l).value, s.current);
      }
    case ByShutdown =>
      ShutdownMoves(s);
      TaskMoveKeepsStructure(s, ShutdownNext(s).value, s.current);
    case _ =>
      BrokerMoves(s, step);
      TaskMoveKeepsStructure(s, BrokerNext(s, step).value, step.g);
  }

  lemma {:induction false} FromKeepsStructure(s: State, steps: seq<Step>)
    requires Structure(s) && From(s, steps).Some?
    ensures Structure(From(s, steps).value)
  {
    if steps != [] {
      var n := |steps| - 1;
      FromKeepsStructure(s, steps[..n]);
      StepKeepsStructure(From(s, steps[..n]).value, steps[n]);
    }
  }

  /** Every reachable state is well structured. */
  lemma ReachableStructure(s: State)
    requires Reachable(s)
    ensures Structure(s)
  {
    var c, steps :| After(c, steps) == Some(s);
    FromKeepsStructure(Init(c.maximum, c.maxAttempts, c.session), steps);
  }
}
