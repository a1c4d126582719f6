/** Every dialled connection is closed exactly once (producer.go:633-676, 944-985; producer_open.go:163-275). */
module ProducerClosing {
  import opened Basics
  import opened TrackerSpec
  import Text
  import opened ProducerProtocol
  import opened ProducerStructure
  import opened ProducerFrames

  /** The connection's Close has been called as often as its close state says. */
  predicate CountOk(gen: Generation) {
    gen.closes == if gen.close.NotStarted? then 0 else 1
  }

  /** Somebody still owes this generation its close: the installed one, or the one being set up. */
  predicate Owed(s: State, g: GenId) {
    g == s.current || (s.loop.Owning? && s.loop.gen == g)
  }

  predicate PastClose(loop: Loop) {
    loop.Recovering? || loop.Owning? || loop.GivenUp?
  }

  ghost predicate Closing(s: State) {
    && s.current < |s.gens|
    && (forall g | 0 <= g < |s.gens| :: CountOk(s.gens[g]))
    && (forall g | 0 <= g < |s.gens| :: Owed(s, g) || s.gens[g].close.Closed?)
    && (PastClose(s.loop) ==> s.gens[s.current].close.Closed?)
    && (s.shutdown.WaitingLoop? || s.shutdown.Done? ==> s.gens[s.current].close.Closed?)
    && (s.shutdown.Done? ==> s.loop.Exited?)
  }

  lemma FrameKeepsClosing(s: State, s': State, p: CallId, g: GenId, c: CallStep)
    requires Closing(s) && CallFrame(s, s', p, g, c)
    ensures Closing(s')
  {
    assert forall h | 0 <= h < |s.gens| :: SameClosing(s.gens[h], s'.gens[h]);
  }

  lemma CallKeepsClosing(s: State, p: CallId, c: CallStep)
    requires Structure(s) && Closing(s) && CallNext(s, p, c).Some?
    ensures Closing(CallNext(s, p, c).value)
  {
    if c.Admit? || c.Release? {
      BoundaryFrame(s, p, c);
    } else if c.Register? {
      RegisterClosing(s, p, c);
    } else {
      CallStepFrame(s, p, c);
      FrameKeepsClosing(s, CallNext(s, p, c).value, p, Concerns(s, p), c);
    }
  }

  lemma InsertKeepsClosing(s: State, p: CallId, record: Record)
    requires Closing(s)
    ensures Closing(Inserted(s, p, record))
  {
    var s' := Inserted(s, p, record);
    assert forall g | 0 <= g < |s.gens| :: SameClosing(s.gens[g], s'.gens[g]);
  }

  lemma RegisterClosing(s: State, p: CallId, c: CallStep)
    requires Closing(s) && c.Register? && CallNext(s, p, c).Some?
    ensures Closing(CallNext(s, p, c).value)
  {
    RegisterCases(s, p, c);
    InsertKeepsClosing(s, p, NewRecord(c.sequence, Text.Token(s.gens[s.current].session, c.sequence), c.exchange, c.route));
  }

  lemma ServingKeepsClosing(s: State, l: LoopStep)
    requires Structure(s) && Closing(s) && s.loop.Serving? && LoopNext(s, l).Some?
    ensures Closing(LoopNext(s, l).value)
  {
    var s' := LoopNext(s, l).value;
    ServingFrame(s, s.loop.gen, s.loop.serve, l);
    assert s'.current == s.current by { match l { case MarkEnd => case FinishRecovered => case _ => } }
    assert PastClose(s'.loop) ==> l.CloseOld? by { NextStage(s, l); }
  }

  /** A served generation is left for recovery only after its close has finished. */
  lemma NextStage(s: State, l: LoopStep)
    requires s.loop.Serving? && LoopNext(s, l).Some?
    ensures PastClose(LoopNext(s, l).value.loop) ==> l.CloseOld?
    ensures !LoopNext(s, l).value.loop.Owning?
  {
    match l {
      case TakeReturn => ReturnTakenServes(s, s.loop.gen, s.loop.serve);
      case DrainOne => ReturnTakenServes(s, s.loop.gen, s.loop.serve);
      case TakeConfirm => case ApplyConfirm => case FailEach => case StopFailAll =>
      case ReturnsEnd => case Break => case Cancelled => case DrainDone => case MarkEnd =>
      case CloseOld => case FinishRecovered => case _ =>
    }
  }

  lemma DiscardKeepsClosing(s: State)
    requires Structure(s) && Closing(s) && s.loop.Owning? && LoopNext(s, DiscardClose).Some?
    ensures Closing(LoopNext(s, DiscardClose).value)
  {
  }

  lemma InstallKeepsClosing(s: State)
    requires Structure(s) && Closing(s) && s.loop.Owning? && LoopNext(s, Install).Some?
    ensures Closing(LoopNext(s, Install).value)
  {
  }

  lemma OwningKeepsClosing(s: State, l: LoopStep)
    requires Structure(s) && Closing(s) && s.loop.Owning? && LoopNext(s, l).Some?
    ensures Closing(LoopNext(s, l).value)
  {
    match l {
      case DiscardClose => DiscardKeepsClosing(s);
      case Install => InstallKeepsClosing(s);
      case SetupFails => case SetupWorks => case LockInstall => case _ =>
    }
  }

  lemma LoopKeepsClosing(s: State, l: LoopStep)
    requires Structure(s) && Closing(s) && LoopNext(s, l).Some?
    ensures Closing(LoopNext(s, l).value)
  {
    match s.loop {
      case Serving(_, _) => ServingKeepsClosing(s, l);
      case Owning(_, _) => OwningKeepsClosing(s, l);
      case Recovering(attempt) => RecoveringKeepsClosing(s, l);
      case _ =>
    }
  }

  lemma RecoveringKeepsClosing(s: State, l: LoopStep)
    requires Structure(s) && Closing(s) && s.loop.Recovering? && LoopNext(s, l).Some?
    ensures Closing(LoopNext(s, l).value)
  {
    match l { case Dial(_) => case Skip => case Quit => case _ => }
  }

  lemma ShutdownKeepsClosing(s: State)
    requires Structure(s) && Closing(s) && ShutdownNext(s).Some?
    ensures Closing(ShutdownNext(s).value)
  {
    match s.shutdown {
      case Open => case WaitingDrain => case StoppingEvents => case ReadingCurrent =>
      case ClosingCurrent(_) => case WaitingLoop => case Done =>
    }
  }

  /** One generation's close state moves forward and stays counted. */
  lemma OneGenKeepsClosing(s: State, g: GenId, gen: Generation)
    requires Closing(s) && g < |s.gens| && CountOk(gen) && (s.gens[g].close.Closed? ==> gen.close.Closed?)
    ensures Closing(WithGen(s, g, gen))
  {
  }

  lemma ReturnKeepsClosing(s: State, g: GenId, notice: Notice)
    requires Closing(s) && BrokerNext(s, ReturnArrives(g, notice)).Some?
    ensures Closing(BrokerNext(s, ReturnArrives(g, notice)).value)
  {
    var gen := s.gens[g];
    assert CountOk(gen);
    OneGenKeepsClosing(s, g, gen.(returnQueue := gen.returnQueue + [notice], early := gen.early + EarlyFor(gen, notice)));
  }

  lemma ConfirmKeepsClosing(s: State, g: GenId, confirm: Confirm)
    requires Closing(s) && BrokerNext(s, ConfirmArrives(g, confirm)).Some?
    ensures Closing(BrokerNext(s, ConfirmArrives(g, confirm)).value)
  {
    var gen := s.gens[g];
    assert CountOk(gen);
    OneGenKeepsClosing(s, g, gen.(confirmQueue := gen.confirmQueue + [confirm],
                                  confirmSeen := gen.confirmSeen + {confirm.sequence}));
  }

  lemma BrokerKeepsClosing(s: State, step: Step)
    requires Structure(s) && Closing(s) && BrokerStep(step) && BrokerNext(s, step).Some?
    ensures Closing(BrokerNext(s, step).value)
  {
    assert CountOk(s.gens[step.g]);
    match step {
      case ReturnArrives(g, notice) => ReturnKeepsClosing(s, g, notice);
      case ConfirmArrives(g, confirm) => ConfirmKeepsClosing(s, g, confirm);
      case ReturnStreamCloses(g) => OneGenKeepsClosing(s, g, s.gens[g].(returnsClosed := true));
      case CloseStarts(g) => OneGenKeepsClosing(s, g, s.gens[g].(close := Running, closes := s.gens[g].closes + 1));
      case CloseEnds(g) => OneGenKeepsClosing(s, g, s.gens[g].(close := Closed));
    }
  }

  lemma StepKeepsClosing(s: State, step: Step)
    requires Structure(s) && Closing(s) && Next(s, step).Some?
    ensures Closing(Next(s, step).value)
  {
    match step {
      case ByCaller(p, c) => CallKeepsClosing(s, p, c);
      case ByLoopTask(l) => LoopKeepsClosing(s, l);
      case ByShutdown => ShutdownKeepsClosing(s);
      case _ => BrokerKeepsClosing(s, step);
    }
  }

  lemma {:induction false} FromKeepsClosing(s: State, steps: seq<Step>)
    requires Structure(s) && Closing(s) && From(s, steps).Some?
    ensures Closing(From(s, steps).value)
  {
    if steps != [] {
      var n := |steps| - 1;
      FromKeepsClosing(s, steps[..n]);
      FromKeepsStructure(s, steps[..n]);
      StepKeepsClosing(From(s, steps[..n]).value, steps[n]);
    }
  }

  /**
    When shutdown completes, every generation ever dialled - superseded, set up in vain, discarded because the
    producer was closed, or current - has had its connection closed exactly once; and never is one closed twice.
   */
  lemma ShutdownClosesEveryGenerationOnce(s: State, g: GenId)
    requires Reachable(s) && g < |s.gens|
    ensures s.gens[g].closes <= 1
    ensures s.shutdown.Done? ==> s.gens[g].close.Closed? && s.gens[g].closes == 1 && s.loop.Exited?
  {
    var c, steps :| After(c, steps) == Some(s);
    FromKeepsStructure(Init(c.maximum, c.maxAttempts, c.session), steps);
    FromKeepsClosing(Init(c.maximum, c.maxAttempts, c.session), steps);
    assert CountOk(s.gens[g]);
    assert Owed(s, g) || s.gens[g].close.Closed?;
  }
}
