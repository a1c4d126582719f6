/** What each kind of step of the producer leaves alone. */
module ProducerFrames {
  import opened Basics
  import opened TrackerSpec
  import Text
  import opened ProducerProtocol
  import opened ProducerStructure

  predicate SameCounters(s: State, s': State) {
    s'.maximum == s.maximum && s'.closed == s.closed && s'.active == s.active && s'.drainSignals == s.drainSignals
  }

  predicate SameAvailability(s: State, s': State) {
    s'.unavailable == s.unavailable && s'.recovering == s.recovering && s'.current == s.current
  }

  predicate SameStreams(gen: Generation, gen': Generation) {
    && gen'.returnQueue == gen.returnQueue && gen'.returnsClosed == gen.returnsClosed
    && gen'.confirmQueue == gen.confirmQueue && gen'.confirmSeen == gen.confirmSeen && gen'.early == gen.early
    && gen'.session == gen.session
  }

  predicate SameClosing(gen: Generation, gen': Generation) {
    gen'.close == gen.close && gen'.closes == gen.closes
  }

  /** Only generation `g` changes, and its tracker only grows. */
  ghost predicate OneGenMoves(s: State, s': State, g: GenId) {
    && g < |s.gens| && |s'.gens| == |s.gens|
    && s'.gens == s.gens[g := s'.gens[g]]
    && TableGrows(s.gens[g].attempts, s'.gens[g].attempts)
  }

  /** A step of call `p`, other than admission, registration and release, that concerns generation `g`. */
  ghost predicate CallFrame(s: State, s': State, p: CallId, g: GenId, c: CallStep) {
    && p in s.calls && p in s'.calls && !s.calls[p].Released? && !s'.calls[p].Released?
    && g < |s.gens| && |s'.gens| == |s.gens|
    && s' == s.(calls := s.calls[p := s'.calls[p]], gens := s.gens[g := s'.gens[g]], lock := s'.lock,
                unavailable := s'.unavailable, recovering := s'.recovering)
    && s'.gens[g] == s.gens[g].(attempts := s'.gens[g].attempts, closers := s'.gens[g].closers,
                                broken := s'.gens[g].broken)
    && TableGrows(s.gens[g].attempts, s'.gens[g].attempts)
    && (c.Signal? || s'.gens[g].closers == s.gens[g].closers)
    && (s.gens[g].broken ==> s'.gens[g].broken) && s.gens[g].closers <= s'.gens[g].closers
    && (c.Mark? || (s'.unavailable == s.unavailable && s'.recovering == s.recovering &&
                    s'.gens[g].broken == s.gens[g].broken))
  }

  /** The generation a call step concerns. */
  function Concerns(s: State, p: CallId): GenId {
    if p in s.calls && s.calls[p].Pending() then s.calls[p].gen else s.current
  }

  /** A step that only moves the call and the lock. */
  lemma QuietFrame(s: State, p: CallId, g: GenId, c: CallStep, phase: Phase, lock: Holder)
    requires p in s.calls && !s.calls[p].Released? && !phase.Released? && g < |s.gens|
    ensures CallFrame(s, Moved(s, p, phase, lock), p, g, c)
  {
  }

  lemma MarkFrame(s: State, p: CallId, g: GenId, stage: HeldStage)
    requires p in s.calls && !s.calls[p].Released? && g < |s.gens| && p in s.gens[g].attempts && stage.Marking?
    ensures CallFrame(s, HeldNext(s, p, g, stage, Mark).value, p, g, Mark)
  {
    if s.current == g && !s.closed {
    } else {
    }
  }

  /** A step that moves the call and the lock and lets one tracker grow. */
  lemma TrackerFrame(s: State, p: CallId, g: GenId, c: CallStep, t: map<CallId, Record>, phase: Phase, lock: Holder)
    requires p in s.calls && !s.calls[p].Released? && !phase.Released? && g < |s.gens|
    requires TableGrows(s.gens[g].attempts, t)
    ensures CallFrame(s, MovedTracker(s, p, phase, lock, g, t), p, g, c)
  {
  }

  lemma RefusedFrame(s: State, p: CallId, g: GenId)
    requires p in s.calls && !s.calls[p].Released? && g < |s.gens| && p in s.gens[g].attempts && s.shutdownClosing
    ensures CallFrame(s, HeldNext(s, p, g, Registered, CheckClosingAgain).value, p, g, CheckClosingAgain)
  {
    var t := s.gens[g].attempts;
    var e := Abandon(t[p].sequence, NotSent);
    ApplyGrows(t, e);
    TrackerFrame(s, p, g, CheckClosingAgain, Apply(t, e), Finished(Plain(NotSent), None), Free);
  }

  lemma CheckAgainFrame(s: State, p: CallId, g: GenId)
    requires p in s.calls && !s.calls[p].Released? && g < |s.gens| && p in s.gens[g].attempts
    ensures CallFrame(s, HeldNext(s, p, g, Registered, CheckClosingAgain).value, p, g, CheckClosingAgain)
  {
    if s.shutdownClosing {
      RefusedFrame(s, p, g);
    } else {
      QuietFrame(s, p, g, CheckClosingAgain, Held(g, Sending), s.lock);
    }
  }

  lemma SignalFrame(s: State, p: CallId, g: GenId, stage: HeldStage)
    requires p in s.calls && !s.calls[p].Released? && g < |s.gens| && p in s.gens[g].attempts && stage.Signalling?
    ensures CallFrame(s, HeldNext(s, p, g, stage, Signal).value, p, g, Signal)
  {
    if !stage.kind.TimedOut? {
      QuietFrame(s, p, g, Signal, Held(g, Unlocking(stage.kind)), s.lock);
    }
  }

  lemma HeldFrame(s: State, p: CallId, g: GenId, stage: HeldStage, c: CallStep)
    requires p in s.calls && !s.calls[p].Released? && g < |s.gens| && p in s.gens[g].attempts
    requires HeldNext(s, p, g, stage, c).Some?
    ensures CallFrame(s, HeldNext(s, p, g, stage, c).value, p, g, c)
  {
    match c {
      case CheckClosingAgain => CheckAgainFrame(s, p, g);
      case SendEnds(kind) =>
        QuietFrame(s, p, g, c, Held(g, if kind.Sent? || kind.Preflight? then Unlocking(kind) else Marking(kind)), s.lock);
      case Mark => MarkFrame(s, p, g, stage);
      case Signal => SignalFrame(s, p, g, stage);
      case Unlock => QuietFrame(s, p, g, c, Loose(g, AfterSend(stage.kind)), Free);
      case _ =>
    }
  }

  lemma AbandonWorksFrame(s: State, p: CallId, g: GenId, c: CallStep)
    requires p in s.calls && !s.calls[p].Released? && g < |s.gens| && p in s.gens[g].attempts
    requires LiveSequence(s.gens[g], s.gens[g].attempts[p].sequence)
    ensures CallFrame(s, Abandoned(s, p, g), p, g, c)
  {
    var t := s.gens[g].attempts;
    var e := Abandon(t[p].sequence, Ambiguous);
    ApplyGrows(t, e);
    TrackerFrame(s, p, g, c, Apply(t, e), Finished(Plain(Ambiguous), Some(g)), s.lock);
  }

  lemma AbandonedFrame(s: State, p: CallId, g: GenId, c: CallStep)
    requires p in s.calls && !s.calls[p].Released? && g < |s.gens| && p in s.gens[g].attempts
    ensures CallFrame(s, Abandoned(s, p, g), p, g, c)
  {
    if LiveSequence(s.gens[g], s.gens[g].attempts[p].sequence) {
      AbandonWorksFrame(s, p, g, c);
    } else {
      QuietFrame(s, p, g, c, Loose(g, Receiving), s.lock);
    }
  }

  lemma DropFrame(s: State, p: CallId, g: GenId)
    requires p in s.calls && !s.calls[p].Released? && g < |s.gens| && p in s.gens[g].attempts
    ensures CallFrame(s, LooseNext(s, p, g, Dropping, DropPreflight).value, p, g, DropPreflight)
  {
    var t := s.gens[g].attempts;
    var e := Abandon(t[p].sequence, NotSent);
    ApplyGrows(t, e);
    TrackerFrame(s, p, g, DropPreflight, Apply(t, e), Finished(Plain(NotSent), None), s.lock);
  }

  lemma LooseFrame(s: State, p: CallId, g: GenId, stage: LooseStage, c: CallStep)
    requires p in s.calls && !s.calls[p].Released? && g < |s.gens| && p in s.gens[g].attempts
    requires LooseNext(s, p, g, stage, c).Some?
    ensures CallFrame(s, LooseNext(s, p, g, stage, c).value, p, g, c)
  {
    var t := s.gens[g].attempts;
    match c {
      case FailAttempt => AbandonedFrame(s, p, g, c);
      case GiveUp => AbandonedFrame(s, p, g, c);
      case DropPreflight => DropFrame(s, p, g);
      case ContextDone => QuietFrame(s, p, g, c, Loose(g, Cancelling), s.lock);
      case Recheck =>
        QuietFrame(s, p, g, c, if t[p].outcome.None? then Loose(g, GivingUp) else Finished(t[p].outcome.value, Some(g)),
                   s.lock);
      case Receive => QuietFrame(s, p, g, c, Finished(t[p].outcome.value, Some(g)), s.lock);
      case _ =>
    }
  }

  lemma EnteredFrame(s: State, p: CallId, stage: EntryStage, c: CallStep)
    requires p in s.calls && !s.calls[p].Released? && s.current < |s.gens|
    requires !c.Register? && EnteredNext(s, p, stage, c).Some?
    ensures CallFrame(s, EnteredNext(s, p, stage, c).value, p, s.current, c)
  {
    var s' := EnteredNext(s, p, stage, c).value;
    match c {
      case CheckClosing => QuietFrame(s, p, s.current, c, s'.calls[p], s'.lock);
      case CheckAvailable => QuietFrame(s, p, s.current, c, s'.calls[p], s'.lock);
      case _ =>
    }
  }

  lemma AdmittedFrame(s: State, p: CallId, c: CallStep)
    requires p in s.calls && !s.calls[p].Released? && s.current < |s.gens| && AdmittedNext(s, p, c).Some?
    ensures CallFrame(s, AdmittedNext(s, p, c).value, p, s.current, c)
  {
    match c {
      case AcquireLock => QuietFrame(s, p, s.current, c, Entered(Locked), ByCall(p));
      case Expire => QuietFrame(s, p, s.current, c, Finished(Plain(NotSent), None), s.lock);
      case _ =>
    }
  }

  lemma CallStepFrame(s: State, p: CallId, c: CallStep)
    requires s.current < |s.gens| && CallNext(s, p, c).Some? && !c.Admit? && !c.Release? && !c.Register?
    ensures CallFrame(s, CallNext(s, p, c).value, p, Concerns(s, p), c)
  {
    match s.calls[p] {
      case Admitted => AdmittedFrame(s, p, c);
      case Entered(stage) => EnteredFrame(s, p, stage, c);
      case Held(g, stage) => HeldFrame(s, p, g, stage, c);
      case Loose(g, stage) => LooseFrame(s, p, g, stage, c);
      case _ =>
    }
  }

  /** What a call step does to the tracker it concerns: nothing, or one abandon of its own sequence. */
  ghost predicate OwnAbandon(s: State, s': State, p: CallId, g: GenId) {
    && g < |s.gens| && g < |s'.gens|
    && (s'.gens[g].attempts == s.gens[g].attempts ||
        (p in s.gens[g].attempts && exists state | Abandonable(state) ::
           s'.gens[g].attempts == Apply(s.gens[g].attempts, Abandon(s.gens[g].attempts[p].sequence, state))))
  }

  /** The tracker of `g` is untouched, or takes one abandon of the call's own sequence. */
  lemma AbandonsOnce(s: State, s': State, p: CallId, g: GenId, state: PublishState)
    requires g < |s.gens| && g < |s'.gens| && p in s.gens[g].attempts && Abandonable(state)
    requires s'.gens[g].attempts == Apply(s.gens[g].attempts, Abandon(s.gens[g].attempts[p].sequence, state))
    ensures OwnAbandon(s, s', p, g)
  {
  }

  lemma CheckAgainAbandons(s: State, p: CallId, g: GenId)
    requires g < |s.gens| && p in s.gens[g].attempts
    ensures OwnAbandon(s, HeldNext(s, p, g, Registered, CheckClosingAgain).value, p, g)
  {
    if s.shutdownClosing {
      AbandonsOnce(s, HeldNext(s, p, g, Registered, CheckClosingAgain).value, p, g, NotSent);
    }
  }

  lemma MarkLeavesTracker(s: State, p: CallId, g: GenId, stage: HeldStage)
    requires g < |s.gens| && p in s.gens[g].attempts && stage.Marking?
    ensures |HeldNext(s, p, g, stage, Mark).value.gens| == |s.gens|
    ensures HeldNext(s, p, g, stage, Mark).value.gens[g].attempts == s.gens[g].attempts
  {
    if s.current != g || s.closed { } else { }
  }

  lemma SignalLeavesTracker(s: State, p: CallId, g: GenId, stage: HeldStage)
    requires g < |s.gens| && p in s.gens[g].attempts && stage.Signalling?
    ensures |HeldNext(s, p, g, stage, Signal).value.gens| == |s.gens|
    ensures HeldNext(s, p, g, stage, Signal).value.gens[g].attempts == s.gens[g].attempts
  {
    if stage.kind.TimedOut? { } else { }
  }

  lemma HeldAbandons(s: State, p: CallId, g: GenId, stage: HeldStage, c: CallStep)
    requires g < |s.gens| && p in s.gens[g].attempts && HeldNext(s, p, g, stage, c).Some?
    ensures OwnAbandon(s, HeldNext(s, p, g, stage, c).value, p, g)
  {
    match c {
      case CheckClosingAgain => CheckAgainAbandons(s, p, g);
      case Mark => MarkLeavesTracker(s, p, g, stage);
      case Signal => SignalLeavesTracker(s, p, g, stage);
      case SendEnds(_) => case Unlock => case _ =>
    }
  }

  lemma AbandonedAbandons(s: State, p: CallId, g: GenId)
    requires g < |s.gens| && p in s.gens[g].attempts
    ensures OwnAbandon(s, Abandoned(s, p, g), p, g)
  {
    if LiveSequence(s.gens[g], s.gens[g].attempts[p].sequence) {
      AbandonsOnce(s, Abandoned(s, p, g), p, g, Ambiguous);
    }
  }

  lemma LooseAbandons(s: State, p: CallId, g: GenId, stage: LooseStage, c: CallStep)
    requires g < |s.gens| && p in s.gens[g].attempts && LooseNext(s, p, g, stage, c).Some?
    ensures OwnAbandon(s, LooseNext(s, p, g, stage, c).value, p, g)
  {
    match c {
      case FailAttempt => AbandonedAbandons(s, p, g);
      case GiveUp => AbandonedAbandons(s, p, g);
      case DropPreflight => AbandonsOnce(s, LooseNext(s, p, g, stage, c).value, p, g, NotSent);
      case ContextDone => case Recheck => case Receive => case _ =>
    }
  }

  lemma OuterAbandons(s: State, p: CallId, c: CallStep)
    requires s.current < |s.gens| && p in s.calls && (s.calls[p].Admitted? || s.calls[p].Entered?)
    requires CallNext(s, p, c).Some? && !c.Register?
    ensures OwnAbandon(s, CallNext(s, p, c).value, p, s.current)
  {
    match s.calls[p] {
      case Admitted => match c { case AcquireLock => case Expire => case _ => }
      case Entered(stage) => match c { case CheckClosing => case CheckAvailable => case _ => }
    }
  }

  lemma CallAbandons(s: State, p: CallId, c: CallStep)
    requires s.current < |s.gens| && CallNext(s, p, c).Some? && !c.Admit? && !c.Release? && !c.Register?
    ensures OwnAbandon(s, CallNext(s, p, c).value, p, Concerns(s, p))
  {
    match s.calls[p] {
      case Admitted => OuterAbandons(s, p, c);
      case Entered(_) => OuterAbandons(s, p, c);
      case Held(g, stage) => HeldAbandons(s, p, g, stage, c);
      case Loose(g, stage) => LooseAbandons(s, p, g, stage, c);
      case _ =>
    }
  }

  /** Either the registration was refused and the call left, or one fresh attempt was added. */
  lemma RegisterCases(s: State, p: CallId, c: CallStep)
    requires s.current < |s.gens| && c.Register? && CallNext(s, p, c).Some?
    ensures p in s.calls && s.calls[p] == Entered(Available)
    ensures var s' := CallNext(s, p, c).value;
            var token := Text.Token(s.gens[s.current].session, c.sequence);
            var refusal := Refusal(s.maximum, s.gens[s.current].attempts, c.sequence, token);
            s' == if refusal.Some? then Leave(s, p) else Inserted(s, p, NewRecord(c.sequence, token, c.exchange, c.route))
  {
  }

  /** Admission and release touch neither generations nor availability. */
  lemma BoundaryFrame(s: State, p: CallId, c: CallStep)
    requires CallNext(s, p, c).Some? && (c.Admit? || c.Release?)
    ensures var s' := CallNext(s, p, c).value;
            s'.gens == s.gens && SameAvailability(s, s') && s'.closed == s.closed && s'.loop == s.loop &&
            s'.shutdown == s.shutdown && s'.lock == s.lock
  {
  }

  /** A step of a task that only reads the calls and concerns generation `g`. */
  ghost predicate TaskFrame(s: State, s': State, g: GenId) {
    && g < |s.gens| && |s'.gens| == |s.gens|
    && s' == s.(gens := s.gens[g := s'.gens[g]], loop := s'.loop, lock := s'.lock, current := s'.current,
                unavailable := s'.unavailable, recovering := s'.recovering)
    && TableGrows(s.gens[g].attempts, s'.gens[g].attempts)
    && s'.gens[g].broken == s.gens[g].broken && s'.gens[g].closers == s.gens[g].closers
    && s.gens[g].early <= s'.gens[g].early && s'.gens[g].late == s.gens[g].late
  }

  /** A step of the loop on the generation it serves, apart from marking and rejoining. */
  ghost predicate ServeFrame(s: State, s': State, g: GenId) {
    && TaskFrame(s, s', g) && SameAvailability(s, s') && SameClosing(s.gens[g], s'.gens[g])
    && s'.gens[g].confirmSeen == s.gens[g].confirmSeen
  }

  /** The loop takes something from a stream and lets the tracker grow. */
  lemma TakenFrame(s: State, g: GenId, t: map<CallId, Record>, queue: seq<Notice>, loop: Loop)
    requires g < |s.gens| && TableGrows(s.gens[g].attempts, t)
    ensures ServeFrame(s, LoopWithGen(s, g, s.gens[g].(attempts := t, returnQueue := queue), loop), g)
  {
  }

  lemma CorrelatedFrame(s: State, g: GenId, stay: ServeStage)
    requires g < |s.gens| && s.gens[g].returnQueue != [] && Correlates(s.gens[g])
    ensures ServeFrame(s, ReturnTaken(s, g, stay), g)
  {
    var gen := s.gens[g];
    var e := ReturnSeen(gen.returnQueue[0].token.value, gen.returnQueue[0].ret);
    ApplyGrows(gen.attempts, e);
    TakenFrame(s, g, Apply(gen.attempts, e), gen.returnQueue[1..], Serving(g, stay));
  }

  lemma ReturnTakenFrame(s: State, g: GenId, stay: ServeStage)
    requires g < |s.gens| && s.gens[g].returnQueue != []
    ensures ServeFrame(s, ReturnTaken(s, g, stay), g)
  {
    if Correlates(s.gens[g]) {
      CorrelatedFrame(s, g, stay);
    } else {
      TakenFrame(s, g, s.gens[g].attempts, s.gens[g].returnQueue[1..], Serving(g, Ending));
    }
  }

  lemma ReturnTakenServes(s: State, g: GenId, stay: ServeStage)
    requires g < |s.gens| && s.gens[g].returnQueue != []
    ensures ReturnTaken(s, g, stay).loop.Serving?
  {
  }

  lemma NotifiedFrame(s: State, g: GenId, e: Event, loop: Loop)
    requires g < |s.gens|
    ensures ServeFrame(s, LoopNotified(s, g, e, loop), g)
  {
    ApplyGrows(s.gens[g].attempts, e);
  }

  lemma FailedAllFrame(s: State, g: GenId, loop: Loop)
    requires g < |s.gens|
    ensures ServeFrame(s, LoopFailedAll(s, g, loop), g)
  {
    ApplyGrows(s.gens[g].attempts, FailAll(Ambiguous));
  }

  /** The loop only moves on. */
  lemma MovedOnFrame(s: State, g: GenId, loop: Loop)
    requires g < |s.gens|
    ensures ServeFrame(s, s.(loop := loop), g)
  {
  }

  lemma ConfirmTakenFrame(s: State, g: GenId, queue: seq<Confirm>, loop: Loop)
    requires g < |s.gens|
    ensures ServeFrame(s, LoopWithGen(s, g, s.gens[g].(confirmQueue := queue), loop), g)
  {
  }

  /** The loop marks the generation's end or rejoins: availability may change, nothing else. */
  lemma MarkEndFrame(s: State, g: GenId, unavailable: bool, recovering: bool, loop: Loop)
    requires g < |s.gens|
    ensures var s' := s.(unavailable := unavailable, recovering := recovering, loop := loop);
            TaskFrame(s, s', g) && s'.gens == s.gens
  {
  }

  lemma QuietServingFrame(s: State, g: GenId, stage: ServeStage, l: LoopStep)
    requires g < |s.gens| && ServingNext(s, g, stage, l).Some?
    requires l.TakeConfirm? || l.ReturnsEnd? || l.Break? || l.Cancelled? || l.DrainDone? || l.CloseOld?
    ensures ServeFrame(s, ServingNext(s, g, stage, l).value, g)
  {
    match l {
      case TakeConfirm =>
        ConfirmTakenFrame(s, g, s.gens[g].confirmQueue[1..],
                          Serving(g, Draining(stage.listening, s.gens[g].confirmQueue[0])));
      case ReturnsEnd => MovedOnFrame(s, g, Serving(g, Selecting(false)));
      case Break => MovedOnFrame(s, g, Serving(g, Ending));
      case Cancelled => MovedOnFrame(s, g, Serving(g, Stopping));
      case DrainDone => MovedOnFrame(s, g, Serving(g, Confirming(stage.listening, stage.confirm)));
      case CloseOld => MovedOnFrame(s, g, Recovering(0));
    }
  }

  lemma EndFrame(s: State, g: GenId, stage: ServeStage, l: LoopStep)
    requires g < |s.gens| && ServingNext(s, g, stage, l).Some? && (l.MarkEnd? || l.FinishRecovered?)
    ensures TaskFrame(s, ServingNext(s, g, stage, l).value, g) && ServingNext(s, g, stage, l).value.gens == s.gens
    ensures ServingNext(s, g, stage, l).value.current == s.current
  {
    var s' := ServingNext(s, g, stage, l).value;
    MarkEndFrame(s, g, s'.unavailable, s'.recovering, s'.loop);
    match l { case MarkEnd => case FinishRecovered => }
  }

  /** Serving steps other than the two above. */
  lemma NotifyingFrame(s: State, g: GenId, stage: ServeStage, l: LoopStep)
    requires g < |s.gens| && ServingNext(s, g, stage, l).Some? && !l.MarkEnd? && !l.FinishRecovered?
    ensures ServeFrame(s, ServingNext(s, g, stage, l).value, g)
  {
    match l {
      case TakeReturn => ReturnTakenFrame(s, g, stage);
      case DrainOne => ReturnTakenFrame(s, g, stage);
      case ApplyConfirm =>
        NotifiedFrame(s, g, ConfirmSeen(stage.confirm.sequence, stage.confirm.ack), Serving(g, Selecting(stage.listening)));
      case FailEach => FailedAllFrame(s, g, Serving(g, ClosingOld));
      case StopFailAll => FailedAllFrame(s, g, Exited);
      case _ => QuietServingFrame(s, g, stage, l);
    }
  }

  lemma ServingFrame(s: State, g: GenId, stage: ServeStage, l: LoopStep)
    requires g < |s.gens| && ServingNext(s, g, stage, l).Some?
    ensures TaskFrame(s, ServingNext(s, g, stage, l).value, g)
    ensures ServingNext(s, g, stage, l).value.gens[g].confirmSeen == s.gens[g].confirmSeen
    ensures SameClosing(s.gens[g], ServingNext(s, g, stage, l).value.gens[g])
    ensures l.MarkEnd? || l.FinishRecovered? || SameAvailability(s, ServingNext(s, g, stage, l).value)
    ensures ServingNext(s, g, stage, l).value.current == s.current
  {
    if l.MarkEnd? || l.FinishRecovered? {
      EndFrame(s, g, stage, l);
    } else {
      NotifyingFrame(s, g, stage, l);
    }
  }

  /** What every step on a generation that is not installed keeps. */
  ghost predicate OwnFrame(s: State, s': State, g: GenId) {
    TaskFrame(s, s', g) && SameStreams(s.gens[g], s'.gens[g]) && s'.gens[g].attempts == s.gens[g].attempts
  }

  lemma OwnedMovesOn(s: State, g: GenId, lock: Holder, loop: Loop)
    requires g < |s.gens|
    ensures var s' := s.(lock := lock, loop := loop);
            OwnFrame(s, s', g) && SameClosing(s.gens[g], s'.gens[g]) && SameAvailability(s, s')
  {
  }

  lemma InstalledFrame(s: State, g: GenId, loop: Loop)
    requires g < |s.gens|
    ensures var s' := s.(lock := Free, loop := loop, current := g, unavailable := false, recovering := false);
            OwnFrame(s, s', g) && SameClosing(s.gens[g], s'.gens[g])
  {
  }

  lemma DiscardedFrame(s: State, g: GenId, loop: Loop)
    requires g < |s.gens|
    ensures var s' := LoopWithGen(s, g, s.gens[g].(close := Closed, closes := s.gens[g].closes + 1), loop);
            OwnFrame(s, s', g) && SameAvailability(s, s')
  {
  }

  lemma OwningFrame(s: State, g: GenId, stage: OwnStage, l: LoopStep)
    requires g < |s.gens| && OwningNext(s, g, stage, l).Some?
    ensures OwnFrame(s, OwningNext(s, g, stage, l).value, g)
    ensures l.DiscardClose? || SameClosing(s.gens[g], OwningNext(s, g, stage, l).value.gens[g])
    ensures l.Install? || SameAvailability(s, OwningNext(s, g, stage, l).value)
  {
    match l {
      case SetupFails => OwnedMovesOn(s, g, s.lock, Owning(g, Discarding(Some(stage.attempt + 1))));
      case SetupWorks => OwnedMovesOn(s, g, s.lock, Owning(g, Installing));
      case LockInstall => OwnedMovesOn(s, g, ByLoop, Owning(g, InstallLocked));
      case Install =>
        OwnedMovesOn(s, g, Free, Owning(g, Discarding(None)));
        InstalledFrame(s, g, Serving(g, Rejoined));
      case DiscardClose =>
        DiscardedFrame(s, g, if stage.next.Some? then Recovering(stage.next.value) else GivenUp);
      case _ =>
    }
  }

  lemma LoopCounters(s: State, l: LoopStep)
    requires LoopNext(s, l).Some?
    ensures SameCounters(s, LoopNext(s, l).value) && LoopNext(s, l).value.calls == s.calls
  {
    match s.loop {
      case Serving(g, stage) => ServingFrame(s, g, stage, l);
      case Owning(g, stage) => OwningFrame(s, g, stage, l);
      case Recovering(attempt) => RecoveringCounters(s, attempt, l);
      case _ =>
    }
  }

  lemma RecoveringCounters(s: State, attempt: nat, l: LoopStep)
    requires RecoveringNext(s, attempt, l).Some?
    ensures SameCounters(s, RecoveringNext(s, attempt, l).value) && RecoveringNext(s, attempt, l).value.calls == s.calls
  {
    match l { case Skip => case Dial(_) => case Quit => case _ => }
  }

  /** A broker step leaves trackers and every task alone. */
  ghost predicate OutsideFrame(s: State, s': State, g: GenId) {
    && TaskFrame(s, s', g) && s' == s.(gens := s'.gens) && s'.gens[g].attempts == s.gens[g].attempts
    && s'.gens[g].failed == s.gens[g].failed
  }

  lemma ReturnArrivesFrame(s: State, g: GenId, queue: seq<Notice>, early: set<CallId>)
    requires g < |s.gens| && s.gens[g].early <= early
    ensures OutsideFrame(s, WithGen(s, g, s.gens[g].(returnQueue := queue, early := early)), g)
  {
  }

  lemma ConfirmArrivesFrame(s: State, g: GenId, queue: seq<Confirm>, seen: set<nat>)
    requires g < |s.gens|
    ensures OutsideFrame(s, WithGen(s, g, s.gens[g].(confirmQueue := queue, confirmSeen := seen)), g)
  {
  }

  lemma StreamClosesFrame(s: State, g: GenId)
    requires g < |s.gens|
    ensures OutsideFrame(s, WithGen(s, g, s.gens[g].(returnsClosed := true)), g)
  {
  }

  lemma CloseFrame(s: State, g: GenId, close: CloseState, closes: nat)
    requires g < |s.gens|
    ensures OutsideFrame(s, WithGen(s, g, s.gens[g].(close := close, closes := closes)), g)
  {
  }

  lemma CloseEndsFrame(s: State, g: GenId)
    requires g < |s.gens|
    ensures OutsideFrame(s, WithGen(s, g, s.gens[g].(close := Closed)), g)
  {
  }

  lemma ReturnStepFrame(s: State, g: GenId, notice: Notice)
    requires BrokerNext(s, ReturnArrives(g, notice)).Some?
    ensures OutsideFrame(s, BrokerNext(s, ReturnArrives(g, notice)).value, g)
  {
    var gen := s.gens[g];
    ReturnArrivesFrame(s, g, gen.returnQueue + [notice], gen.early + EarlyFor(gen, notice));
  }

  lemma ConfirmStepFrame(s: State, g: GenId, confirm: Confirm)
    requires BrokerNext(s, ConfirmArrives(g, confirm)).Some?
    ensures OutsideFrame(s, BrokerNext(s, ConfirmArrives(g, confirm)).value, g)
  {
    var gen := s.gens[g];
    ConfirmArrivesFrame(s, g, gen.confirmQueue + [confirm], gen.confirmSeen + {confirm.sequence});
  }

  lemma BrokerFrame(s: State, step: Step)
    requires BrokerStep(step) && BrokerNext(s, step).Some?
    ensures OutsideFrame(s, BrokerNext(s, step).value, step.g)
  {
    match step {
      case ReturnArrives(g, notice) => ReturnStepFrame(s, g, notice);
      case ConfirmArrives(g, confirm) => ConfirmStepFrame(s, g, confirm);
      case ReturnStreamCloses(g) => StreamClosesFrame(s, g);
      case CloseStarts(g) => CloseFrame(s, g, Running, s.gens[g].closes + 1);
      case CloseEnds(g) => CloseEndsFrame(s, g);
    }
  }

  lemma ShutdownFrame(s: State)
    requires ShutdownNext(s).Some?
    ensures var s' := ShutdownNext(s).value;
            s'.gens == s.gens && s'.calls == s.calls && s'.loop == s.loop && SameAvailability(s, s')
  {
    match s.shutdown {
      case Open => case WaitingDrain => case StoppingEvents => case ReadingCurrent =>
      case ClosingCurrent(_) => case WaitingLoop => case Done =>
    }
  }

  // ---------------------------------------------------------------- how a generation evolves in any step

  /** Attempts are kept and completed ones fixed; history only grows. */
  ghost predicate Evolves(gen: Generation, gen': Generation) {
    && gen.attempts.Keys <= gen'.attempts.Keys
    && (forall q | q in gen.attempts ::
          && gen'.attempts[q].sequence == gen.attempts[q].sequence
          && (gen.attempts[q].outcome.Some? ==> gen'.attempts[q] == gen.attempts[q]))
    && gen.early <= gen'.early && (gen.broken ==> gen'.broken) && gen.closers <= gen'.closers
  }

  /** Generation `g` evolves and, if `fixed`, gets no new attempt. */
  ghost predicate GenEvolves(s: State, s': State, g: GenId, fixed: bool) {
    && g < |s.gens| && g < |s'.gens| && Evolves(s.gens[g], s'.gens[g])
    && (fixed ==> s'.gens[g].attempts.Keys == s.gens[g].attempts.Keys)
  }

  lemma SameGensEvolve(s: State, s': State, g: GenId)
    requires g < |s.gens| && s'.gens == s.gens
    ensures GenEvolves(s, s', g, true)
  {
  }

  lemma CallFrameEvolves(s: State, s': State, p: CallId, h: GenId, c: CallStep, g: GenId)
    requires CallFrame(s, s', p, h, c) && g < |s.gens|
    ensures GenEvolves(s, s', g, true)
  {
  }

  lemma TaskFrameEvolves(s: State, s': State, h: GenId, g: GenId)
    requires TaskFrame(s, s', h) && g < |s.gens|
    ensures GenEvolves(s, s', g, true)
  {
  }

  lemma InsertEvolves(s: State, p: CallId, record: Record, g: GenId)
    requires s.current < |s.gens| && g < |s.gens| && p !in s.gens[s.current].attempts
    ensures GenEvolves(s, Inserted(s, p, record), g, g != s.current)
  {
  }

  lemma RegisterEvolves(s: State, p: CallId, c: CallStep, g: GenId)
    requires Structure(s) && c.Register? && CallNext(s, p, c).Some? && g < |s.gens|
    ensures GenEvolves(s, CallNext(s, p, c).value, g, g != s.current)
  {
    RegisterCases(s, p, c);
    assert p in s.gens[s.current].attempts ==> AttemptOk(s, s.current, p);
    SameGensEvolve(s, Leave(s, p), g);
    var token := Text.Token(s.gens[s.current].session, c.sequence);
    InsertEvolves(s, p, NewRecord(c.sequence, token, c.exchange, c.route), g);
  }

  lemma QuietCallEvolves(s: State, p: CallId, c: CallStep, g: GenId)
    requires Structure(s) && CallNext(s, p, c).Some? && !c.Admit? && !c.Release? && !c.Register? && g < |s.gens|
    ensures GenEvolves(s, CallNext(s, p, c).value, g, true)
  {
    CallStepFrame(s, p, c);
    CallFrameEvolves(s, CallNext(s, p, c).value, p, Concerns(s, p), c, g);
  }

  lemma BoundaryEvolves(s: State, p: CallId, c: CallStep, g: GenId)
    requires CallNext(s, p, c).Some? && (c.Admit? || c.Release?) && g < |s.gens|
    ensures GenEvolves(s, CallNext(s, p, c).value, g, true)
  {
    BoundaryFrame(s, p, c);
    SameGensEvolve(s, CallNext(s, p, c).value, g);
  }

  lemma CallEvolves(s: State, p: CallId, c: CallStep, g: GenId)
    requires Structure(s) && CallNext(s, p, c).Some? && g < |s.gens|
    ensures GenEvolves(s, CallNext(s, p, c).value, g, !c.Register? || g != s.current)
  {
    if c.Admit? || c.Release? {
      BoundaryEvolves(s, p, c, g);
    } else if c.Register? {
      RegisterEvolves(s, p, c, g);
    } else {
      QuietCallEvolves(s, p, c, g);
    }
  }

  lemma ServingEvolves(s: State, h: GenId, stage: ServeStage, l: LoopStep, g: GenId)
    requires h < |s.gens| && ServingNext(s, h, stage, l).Some? && g < |s.gens|
    ensures GenEvolves(s, ServingNext(s, h, stage, l).value, g, true)
  {
    ServingFrame(s, h, stage, l);
    TaskFrameEvolves(s, ServingNext(s, h, stage, l).value, h, g);
  }

  lemma OwningEvolves(s: State, h: GenId, stage: OwnStage, l: LoopStep, g: GenId)
    requires h < |s.gens| && OwningNext(s, h, stage, l).Some? && g < |s.gens|
    ensures GenEvolves(s, OwningNext(s, h, stage, l).value, g, true)
  {
    OwningFrame(s, h, stage, l);
    TaskFrameEvolves(s, OwningNext(s, h, stage, l).value, h, g);
  }

  lemma RecoveringEvolves(s: State, attempt: nat, l: LoopStep, g: GenId)
    requires RecoveringNext(s, attempt, l).Some? && g < |s.gens|
    ensures GenEvolves(s, RecoveringNext(s, attempt, l).value, g, true)
  {
    match l { case Skip => case Dial(_) => case Quit => case _ => }
  }

  lemma LoopEvolves(s: State, l: LoopStep, g: GenId)
    requires LoopNext(s, l).Some? && g < |s.gens|
    ensures GenEvolves(s, LoopNext(s, l).value, g, true)
  {
    match s.loop {
      case Serving(h, stage) => ServingEvolves(s, h, stage, l, g);
      case Owning(h, stage) => OwningEvolves(s, h, stage, l, g);
      case Recovering(attempt) => RecoveringEvolves(s, attempt, l, g);
      case GivenUp => SameGensEvolve(s, LoopNext(s, l).value, g);
      case Exited =>
    }
  }

  lemma ShutdownEvolves(s: State, g: GenId)
    requires ShutdownNext(s).Some? && g < |s.gens|
    ensures GenEvolves(s, ShutdownNext(s).value, g, true)
  {
    ShutdownFrame(s);
    SameGensEvolve(s, ShutdownNext(s).value, g);
  }

  lemma BrokerEvolves(s: State, step: Step, g: GenId)
    requires BrokerStep(step) && BrokerNext(s, step).Some? && g < |s.gens|
    ensures GenEvolves(s, BrokerNext(s, step).value, g, true)
  {
    BrokerFrame(s, step);
    TaskFrameEvolves(s, BrokerNext(s, step).value, step.g, g);
  }

  predicate Registers(s: State, step: Step, g: GenId) {
    step.ByCaller? && step.c.Register? && g == s.current
  }

  /** Every step lets every generation evolve, and only a registration on the current one adds an attempt. */
  lemma StepEvolves(s: State, step: Step, g: GenId)
    requires Structure(s) && Next(s, step).Some? && g < |s.gens|
    ensures GenEvolves(s, Next(s, step).value, g, !Registers(s, step, g))
  {
    match step {
      case ByCaller(p, c) => CallEvolves(s, p, c, g);
      case ByLoopTask(l) => LoopEvolves(s, l, g);
      case ByShutdown => ShutdownEvolves(s, g);
      case _ => BrokerEvolves(s, step, g);
    }
  }

  // ---------------------------------------------------------------- a call moves only by its own steps

  /** Call `p` is where it was. */
  predicate Stays(s: State, s': State, p: CallId) {
    p in s.calls ==> p in s'.calls && s'.calls[p] == s.calls[p]
  }

  lemma OtherCallStays(s: State, q: CallId, c: CallStep, p: CallId)
    requires Structure(s) && CallNext(s, q, c).Some? && p != q
    ensures Stays(s, CallNext(s, q, c).value, p)
  {
    if c.Admit? || c.Release? {
      BoundaryStays(s, q, c, p);
    } else if c.Register? {
      RegisterCases(s, q, c);
    } else {
      CallStepFrame(s, q, c);
    }
  }

  lemma BoundaryStays(s: State, q: CallId, c: CallStep, p: CallId)
    requires CallNext(s, q, c).Some? && (c.Admit? || c.Release?) && p != q
    ensures Stays(s, CallNext(s, q, c).value, p)
  {
  }

  lemma PhaseStays(s: State, step: Step, p: CallId)
    requires Structure(s) && Next(s, step).Some? && (step.ByCaller? ==> step.p != p)
    ensures Stays(s, Next(s, step).value, p)
  {
    match step {
      case ByCaller(q, c) => OtherCallStays(s, q, c, p);
      case ByLoopTask(l) => LoopCounters(s, l);
      case ByShutdown => ShutdownFrame(s);
      case _ => BrokerFrame(s, step);
    }
  }

  lemma ClosedStays(s: State, step: Step)
    requires Structure(s) && Next(s, step).Some? && s.closed
    ensures Next(s, step).value.closed
  {
    match step {
      case ByCaller(p, c) => CallKeepsClosed(s, p, c);
      case ByLoopTask(l) => LoopCounters(s, l);
      case ByShutdown => match s.shutdown { case Open => case _ => }
      case _ => BrokerFrame(s, step);
    }
  }

  lemma CallKeepsClosed(s: State, p: CallId, c: CallStep)
    requires Structure(s) && CallNext(s, p, c).Some?
    ensures CallNext(s, p, c).value.closed == s.closed
  {
    if c.Admit? || c.Release? {
      BoundaryFrame(s, p, c);
    } else if c.Register? {
      RegisterCases(s, p, c);
    } else {
      CallStepFrame(s, p, c);
    }
  }

  // ---------------------------------------------------------------- the current generation only moves forward

  lemma CallKeepsCurrent(s: State, p: CallId, c: CallStep)
    requires Structure(s) && CallNext(s, p, c).Some?
    ensures CallNext(s, p, c).value.current == s.current
  {
    if c.Admit? || c.Release? {
      BoundaryFrame(s, p, c);
    } else if c.Register? {
      RegisterCases(s, p, c);
    } else {
      CallStepFrame(s, p, c);
    }
  }

  lemma OwningKeepsCurrent(s: State, g: GenId, stage: OwnStage, l: LoopStep)
    requires g < |s.gens| && s.current <= g && OwningNext(s, g, stage, l).Some?
    ensures s.current <= OwningNext(s, g, stage, l).value.current
  {
    match l { case SetupFails => case SetupWorks => case LockInstall => case Install => case DiscardClose => case _ => }
  }

  lemma RecoveringKeepsCurrent(s: State, attempt: nat, l: LoopStep)
    requires RecoveringNext(s, attempt, l).Some?
    ensures RecoveringNext(s, attempt, l).value.current == s.current
  {
    match l { case Skip => case Dial(_) => case Quit => case _ => }
  }

  lemma LoopKeepsCurrent(s: State, l: LoopStep)
    requires Structure(s) && LoopNext(s, l).Some?
    ensures s.current <= LoopNext(s, l).value.current
  {
    match s.loop {
      case Serving(h, stage) => ServingFrame(s, h, stage, l);
      case Owning(h, stage) => OwningKeepsCurrent(s, h, stage, l);
      case Recovering(attempt) => RecoveringKeepsCurrent(s, attempt, l);
      case GivenUp => case Exited =>
    }
  }

  lemma StepKeepsCurrent(s: State, step: Step)
    requires Structure(s) && Next(s, step).Some?
    ensures s.current <= Next(s, step).value.current
  {
    match step {
      case ByCaller(p, c) => CallKeepsCurrent(s, p, c);
      case ByLoopTask(l) => LoopKeepsCurrent(s, l);
      case ByShutdown => ShutdownFrame(s);
      case _ => BrokerFrame(s, step);
    }
  }
}
