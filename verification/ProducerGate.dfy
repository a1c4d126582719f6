/**
  A failed send closes its tracker for registration (producer.go:360-427, 500-543; producer_open.go:223-246).
  The argument needs both locks: the availability flag is read and the attempt registered under publishMu,
  and whoever marks the generation broken holds publishMu too.
 */
module ProducerGate {
  import opened Basics
  import opened TrackerSpec
  import Text
  import opened ProducerProtocol
  import opened ProducerStructure
  import opened ProducerFrames

  /** A call past the availability check faces a generation on which no send has failed. */
  ghost predicate Gate(s: State) {
    && s.current < |s.gens|
    && (s.recovering ==> s.unavailable)
    && (s.gens[s.current].broken ==> s.unavailable)
    && (forall p | p in s.calls && s.calls[p] == Entered(Available) :: !s.gens[s.current].broken)
    && (s.loop.Owning? && s.loop.gen < |s.gens| ==> !s.gens[s.loop.gen].broken)
  }

  /** The lock keeps every other call away from the availability check. */
  lemma NobodyElseAvailable(s: State, p: CallId, q: CallId)
    requires Structure(s) && p in s.calls && s.calls[p].Held? && q in s.calls
    ensures s.calls[q] != Entered(Available)
  {
    assert CallOk(s, p);
    assert CallOk(s, q);
  }

  lemma MarkKeepsGate(s: State, p: CallId)
    requires Structure(s) && Gate(s) && p in s.calls && s.calls[p].Held? && CallNext(s, p, Mark).Some?
    ensures Gate(CallNext(s, p, Mark).value)
  {
    var s' := CallNext(s, p, Mark).value;
    MarkFrame(s, p, s.calls[p].gen, s.calls[p].held);
    forall q | q in s'.calls ensures s'.calls[q] != Entered(Available) {
      if q != p {
        NobodyElseAvailable(s, p, q);
      }
    }
    assert CallOk(s, p);
  }

  lemma QuietStepKeepsGate(s: State, p: CallId, c: CallStep)
    requires Structure(s) && Gate(s) && CallNext(s, p, c).Some?
    requires !c.Admit? && !c.Release? && !c.Register? && !c.Mark?
    ensures Gate(CallNext(s, p, c).value)
  {
    var s' := CallNext(s, p, c).value;
    CallStepFrame(s, p, c);
    if s'.calls[p] == Entered(Available) {
      OnlyTheCheckAdmits(s, s', p, c);
    }
  }

  lemma HeldPhase(s: State, p: CallId, g: GenId, stage: HeldStage, c: CallStep)
    requires g < |s.gens| && p in s.gens[g].attempts && HeldNext(s, p, g, stage, c).Some?
    ensures p in HeldNext(s, p, g, stage, c).value.calls && !HeldNext(s, p, g, stage, c).value.calls[p].Entered?
  {
    match c { case Mark => case Signal => case CheckClosingAgain => case SendEnds(_) => case Unlock => case _ => }
  }

  lemma LoosePhase(s: State, p: CallId, g: GenId, stage: LooseStage, c: CallStep)
    requires g < |s.gens| && p in s.gens[g].attempts && LooseNext(s, p, g, stage, c).Some?
    ensures p in LooseNext(s, p, g, stage, c).value.calls && !LooseNext(s, p, g, stage, c).value.calls[p].Entered?
  {
    match c {
      case FailAttempt => AbandonedPhase(s, p, g);
      case GiveUp => AbandonedPhase(s, p, g);
      case Recheck => case DropPreflight => case ContextDone => case Receive => case _ =>
    }
  }

  lemma EnteredPhase(s: State, p: CallId, stage: EntryStage, c: CallStep)
    requires EnteredNext(s, p, stage, c).Some? && !c.Register?
    ensures p in EnteredNext(s, p, stage, c).value.calls
    ensures EnteredNext(s, p, stage, c).value.calls[p] == Entered(Available) ==> c.CheckAvailable? && !s.unavailable
  {
    match c { case CheckClosing => case CheckAvailable => case _ => }
  }

  /** The only way to become `Available` is to find the producer available. */
  lemma OnlyTheCheckAdmits(s: State, s': State, p: CallId, c: CallStep)
    requires CallNext(s, p, c) == Some(s') && !c.Admit? && !c.Register?
    requires p in s'.calls && s'.calls[p] == Entered(Available)
    ensures c.CheckAvailable? && !s.unavailable
  {
    match s.calls[p] {
      case Held(g, stage) => HeldPhase(s, p, g, stage, c);
      case Loose(g, stage) => LoosePhase(s, p, g, stage, c);
      case Entered(stage) => EnteredPhase(s, p, stage, c);
      case Admitted => AdmittedPhase(s, p, c);
      case _ =>
    }
  }

  lemma AdmittedPhase(s: State, p: CallId, c: CallStep)
    requires AdmittedNext(s, p, c).Some?
    ensures p in AdmittedNext(s, p, c).value.calls
    ensures AdmittedNext(s, p, c).value.calls[p] == Entered(Locked) ||
            AdmittedNext(s, p, c).value.calls[p] == Finished(Plain(NotSent), None)
  {
    match c { case AcquireLock => case Expire => case _ => }
  }

  lemma AbandonedPhase(s: State, p: CallId, g: GenId)
    requires g < |s.gens| && p in s.gens[g].attempts
    ensures p in Abandoned(s, p, g).calls && !Abandoned(s, p, g).calls[p].Entered?
  {
    if LiveSequence(s.gens[g], s.gens[g].attempts[p].sequence) { } else { }
  }

  lemma BoundaryKeepsGate(s: State, p: CallId, c: CallStep)
    requires Gate(s) && CallNext(s, p, c).Some? && (c.Admit? || c.Release?)
    ensures Gate(CallNext(s, p, c).value)
  {
    BoundaryFrame(s, p, c);
    var s' := CallNext(s, p, c).value;
    assert forall q | q in s'.calls && s'.calls[q] == Entered(Available) :: q in s.calls && s.calls[q] == s'.calls[q];
  }

  lemma InsertKeepsGate(s: State, p: CallId, record: Record)
    requires Gate(s)
    ensures Gate(Inserted(s, p, record))
  {
  }

  lemma RegisterKeepsGate(s: State, p: CallId, c: CallStep)
    requires Gate(s) && c.Register? && CallNext(s, p, c).Some?
    ensures Gate(CallNext(s, p, c).value)
  {
    RegisterCases(s, p, c);
    InsertKeepsGate(s, p, NewRecord(c.sequence, Text.Token(s.gens[s.current].session, c.sequence), c.exchange, c.route));
  }

  lemma CallKeepsGate(s: State, p: CallId, c: CallStep)
    requires Structure(s) && Gate(s) && CallNext(s, p, c).Some?
    ensures Gate(CallNext(s, p, c).value)
  {
    if c.Admit? || c.Release? {
      BoundaryKeepsGate(s, p, c);
    } else if c.Register? {
      RegisterKeepsGate(s, p, c);
    } else if c.Mark? {
      MarkKeepsGate(s, p);
    } else {
      QuietStepKeepsGate(s, p, c);
    }
  }

  lemma InstallKeepsGate(s: State)
    requires Structure(s) && Gate(s) && s.loop.Owning? && LoopNext(s, Install).Some?
    ensures Gate(LoopNext(s, Install).value)
  {
    var s' := LoopNext(s, Install).value;
    assert TasksOk(s);
  }

  lemma EndKeepsGate(s: State, l: LoopStep)
    requires Structure(s) && Gate(s) && s.loop.Serving? && (l.MarkEnd? || l.FinishRecovered?) && LoopNext(s, l).Some?
    ensures Gate(LoopNext(s, l).value)
  {
    match l { case MarkEnd => case FinishRecovered => }
  }

  lemma ServingKeepsGate(s: State, l: LoopStep)
    requires Structure(s) && Gate(s) && s.loop.Serving? && LoopNext(s, l).Some?
    ensures Gate(LoopNext(s, l).value)
  {
    if l.MarkEnd? || l.FinishRecovered? {
      EndKeepsGate(s, l);
    } else {
      ServingFrame(s, s.loop.gen, s.loop.serve, l);
      ServingNeverOwns(s, l);
    }
  }

  lemma ServingNeverOwns(s: State, l: LoopStep)
    requires s.loop.Serving? && LoopNext(s, l).Some?
    ensures !LoopNext(s, l).value.loop.Owning?
  {
    match l {
      case TakeReturn => ReturnTakenServes(s, s.loop.gen, s.loop.serve);
      case DrainOne => ReturnTakenServes(s, s.loop.gen, s.loop.serve);
      case TakeConfirm => case ApplyConfirm => case FailEach => case StopFailAll =>
      case ReturnsEnd => case Break => case Cancelled => case DrainDone => case MarkEnd =>
      case CloseOld => case FinishRecovered => case _ =>
    }
  }

  lemma OwningKeepsGate(s: State, l: LoopStep)
    requires Structure(s) && Gate(s) && s.loop.Owning? && !l.Install? && LoopNext(s, l).Some?
    ensures Gate(LoopNext(s, l).value)
  {
    match l { case SetupFails => case SetupWorks => case LockInstall => case DiscardClose => case _ => }
  }

  lemma RecoveringKeepsGate(s: State, l: LoopStep)
    requires Structure(s) && Gate(s) && !s.loop.Owning? && !s.loop.Serving? && LoopNext(s, l).Some?
    ensures Gate(LoopNext(s, l).value)
  {
    match s.loop {
      case Recovering(attempt) => match l { case Dial(_) => case Skip => case Quit => case _ => }
      case GivenUp =>
      case Exited =>
    }
  }

  lemma LoopKeepsGate(s: State, l: LoopStep)
    requires Structure(s) && Gate(s) && LoopNext(s, l).Some?
    ensures Gate(LoopNext(s, l).value)
  {
    if s.loop.Serving? {
      ServingKeepsGate(s, l);
    } else if !s.loop.Owning? {
      RecoveringKeepsGate(s, l);
    } else if l.Install? {
      InstallKeepsGate(s);
    } else {
      OwningKeepsGate(s, l);
    }
  }

  lemma ShutdownKeepsGate(s: State)
    requires Gate(s) && ShutdownNext(s).Some?
    ensures Gate(ShutdownNext(s).value)
  {
    ShutdownFrame(s);
  }

  lemma BrokerKeepsGate(s: State, step: Step)
    requires Gate(s) && BrokerStep(step) && BrokerNext(s, step).Some?
    ensures Gate(BrokerNext(s, step).value)
  {
    BrokerFrame(s, step);
    var s' := BrokerNext(s, step).value;
    assert s'.gens[s.current].broken == s.gens[s.current].broken;
  }

  lemma StepKeepsGate(s: State, step: Step)
    requires Structure(s) && Gate(s) && Next(s, step).Some?
    ensures Gate(Next(s, step).value)
  {
    match step {
      case ByCaller(p, c) => CallKeepsGate(s, p, c);
      case ByLoopTask(l) => LoopKeepsGate(s, l);
      case ByShutdown => ShutdownKeepsGate(s);
      case _ => BrokerKeepsGate(s, step);
    }
  }

  lemma {:induction false} FromKeepsGate(s: State, steps: seq<Step>)
    requires Structure(s) && Gate(s) && From(s, steps).Some?
    ensures Gate(From(s, steps).value)
  {
    if steps != [] {
      var n := |steps| - 1;
      FromKeepsGate(s, steps[..n]);
      FromKeepsStructure(s, steps[..n]);
      StepKeepsGate(From(s, steps[..n]).value, steps[n]);
    }
  }

  lemma ReachableGate(s: State)
    requires Reachable(s)
    ensures Gate(s)
  {
    var c, steps :| After(c, steps) == Some(s);
    FromKeepsGate(Init(c.maximum, c.maxAttempts, c.session), steps);
  }

  // ---------------------------------------------------------------- no registration on a broken tracker

  /** Nothing was registered on generation `g` between the two states, and it is still broken. */
  ghost predicate Sealed(s: State, s': State, g: GenId) {
    && g < |s.gens| && g < |s'.gens|
    && s'.gens[g].broken && s'.gens[g].attempts.Keys == s.gens[g].attempts.Keys
    && s.current <= s'.current
  }

  lemma StepKeepsSeal(s: State, step: Step, g: GenId)
    requires Structure(s) && Gate(s) && g < |s.gens| && s.gens[g].broken && Next(s, step).Some?
    ensures Sealed(s, Next(s, step).value, g)
  {
    StepEvolves(s, step, g);
    StepKeepsCurrent(s, step);
    if Registers(s, step, g) {
      RegistrationIsUnbroken(s, step.p, step.c);
    }
  }

  lemma {:induction false} SealedForever(s: State, steps: seq<Step>, g: GenId)
    requires Structure(s) && Gate(s) && g < |s.gens| && s.gens[g].broken && From(s, steps).Some?
    ensures Sealed(s, From(s, steps).value, g)
  {
    if steps != [] {
      var n := |steps| - 1;
      SealedForever(s, steps[..n], g);
      FromKeepsGate(s, steps[..n]);
      FromKeepsStructure(s, steps[..n]);
      StepKeepsSeal(From(s, steps[..n]).value, steps[n], g);
    }
  }

  /** Marking a failed send before shutdown breaks the generation and makes the producer unavailable. */
  lemma MarkBreaks(s: State, p: CallId)
    requires Structure(s) && Gate(s) && !s.closed && CallNext(s, p, Mark).Some?
    ensures p in s.calls && s.calls[p].Held? && s.calls[p].gen == s.current
    ensures var s' := CallNext(s, p, Mark).value;
            s'.unavailable && s'.current == s.current && |s'.gens| == |s.gens| && s'.gens[s.current].broken &&
            s'.gens[s.current].attempts == s.gens[s.current].attempts
  {
    assert CallOk(s, p);
    match s.calls[p] { case Held(_, stage) => case _ => }
  }

  lemma FailedSendSeals(s: State, p: CallId, marked: State, later: seq<Step>, end: State)
    requires Structure(s) && Gate(s) && !s.closed && CallNext(s, p, Mark) == Some(marked)
    requires From(marked, later) == Some(end)
    ensures p in s.calls && s.calls[p].Held? && s.calls[p].gen == s.current
    ensures Sealed(s, end, s.current) && Gate(end)
  {
    MarkBreaks(s, p);
    CallKeepsStructure(s, p, Mark);
    CallKeepsGate(s, p, Mark);
    SealedForever(marked, later, s.current);
    FromKeepsGate(marked, later);
  }

  /**
    Once a send has failed or timed out on a tracker while the producer is not closed, no later step of any run
    registers an attempt on that tracker.
   */
  lemma NoRegistrationAfterFailedSend(s: State, p: CallId, marked: State, later: seq<Step>, end: State)
    requires Reachable(s) && !s.closed && CallNext(s, p, Mark) == Some(marked) && From(marked, later) == Some(end)
    ensures p in s.calls && s.calls[p].Held?
    ensures var g := s.calls[p].gen;
            g < |s.gens| && Sealed(s, end, g) && end.gens[g].attempts.Keys == s.gens[g].attempts.Keys
  {
    ReachableStructure(s);
    ReachableGate(s);
    FailedSendSeals(s, p, marked, later, end);
  }

  /** A registration always meets an unbroken current generation. */
  lemma RegistrationIsUnbroken(s: State, q: CallId, c: CallStep)
    requires Gate(s) && c.Register? && CallNext(s, q, c).Some?
    ensures !s.gens[s.current].broken
  {
    RegisterCases(s, q, c);
  }

  lemma SealMeetsGate(s: State, end: State, q: CallId, c: CallStep)
    requires Sealed(s, end, s.current) && Gate(end) && c.Register? && CallNext(end, q, c).Some?
    ensures end.current > s.current
  {
    RegistrationIsUnbroken(end, q, c);
  }

  /** If a call does register after that, it does so on a generation installed later. */
  lemma RegistrationResumesOnALaterGeneration(s: State, p: CallId, marked: State, later: seq<Step>, end: State,
                                              q: CallId, c: CallStep)
    requires Reachable(s) && !s.closed && CallNext(s, p, Mark) == Some(marked) && From(marked, later) == Some(end)
    requires c.Register? && CallNext(end, q, c).Some?
    ensures end.current > s.current
  {
    ReachableStructure(s);
    ReachableGate(s);
    FailedSendSeals(s, p, marked, later, end);
    SealMeetsGate(s, end, q, c);
  }
}
