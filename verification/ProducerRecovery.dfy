/**
  Availability and the recovery attempts (producer.go:500-543, 633-676; producer_open.go:115-246): an unavailable
  producer is being recovered or has given up, giving up takes every allowed attempt, and a terminal producer admits
  nothing any more.
 */
module ProducerRecovery {
  import opened Basics
  import opened TrackerSpec
  import Text
  import opened ProducerProtocol
  import opened ProducerStructure
  import opened ProducerFrames

  // ---------------------------------------------------------------- steps of the other tasks

  /** What the loop relies on while others move. */
  ghost predicate Around(s: State, s': State) {
    && s'.loop == s.loop && s'.current == s.current && s'.maxAttempts == s.maxAttempts && s'.terminal == s.terminal
    && (s.closed ==> s'.closed) && (s'.eventsCancelled ==> s.eventsCancelled || s'.closed)
    && |s'.gens| == |s.gens| && s.calls.Keys <= s'.calls.Keys
    && (s.unavailable ==> s'.unavailable) && (s.recovering ==> s'.recovering)
    && forall g | 0 <= g < |s.gens| :: s.gens[g].broken ==> s'.gens[g].broken
  }

  /** Why a call step changes availability. */
  ghost predicate Marks(s: State, s': State) {
    && (s'.unavailable != s.unavailable || s'.recovering != s.recovering ==>
          s.current < |s'.gens| && s'.gens[s.current].broken && s'.unavailable && s'.recovering)
    && (s.unavailable || s.terminal ==> s'.calls.Keys == s.calls.Keys)
  }

  lemma BoundaryAround(s: State, p: CallId, c: CallStep)
    requires CallNext(s, p, c).Some? && (c.Admit? || c.Release?)
    ensures Around(s, CallNext(s, p, c).value)
    ensures CallNext(s, p, c).value.unavailable == s.unavailable && CallNext(s, p, c).value.recovering == s.recovering
    ensures s.unavailable ==> CallNext(s, p, c).value.calls.Keys == s.calls.Keys
  {
  }

  lemma RegisterAround(s: State, p: CallId, c: CallStep)
    requires Structure(s) && CallNext(s, p, c).Some? && c.Register?
    ensures Around(s, CallNext(s, p, c).value)
    ensures CallNext(s, p, c).value.unavailable == s.unavailable && CallNext(s, p, c).value.recovering == s.recovering
    ensures CallNext(s, p, c).value.calls.Keys == s.calls.Keys
  {
    RegisterCases(s, p, c);
    LeaveAround(s, p);
    InsertAround(s, p, NewRecord(c.sequence, Text.Token(s.gens[s.current].session, c.sequence), c.exchange, c.route));
  }

  lemma LeaveAround(s: State, p: CallId)
    requires p in s.calls
    ensures Around(s, Leave(s, p)) && Leave(s, p).calls.Keys == s.calls.Keys
    ensures Leave(s, p).unavailable == s.unavailable && Leave(s, p).recovering == s.recovering
  {
  }

  lemma InsertAround(s: State, p: CallId, record: Record)
    requires s.current < |s.gens| && p in s.calls
    ensures Around(s, Inserted(s, p, record)) && Inserted(s, p, record).calls.Keys == s.calls.Keys
    ensures Inserted(s, p, record).unavailable == s.unavailable && Inserted(s, p, record).recovering == s.recovering
  {
  }

  lemma QuietAround(s: State, p: CallId, c: CallStep)
    requires Structure(s) && CallNext(s, p, c).Some? && !c.Admit? && !c.Release? && !c.Register? && !c.Mark?
    ensures Around(s, CallNext(s, p, c).value)
    ensures CallNext(s, p, c).value.unavailable == s.unavailable && CallNext(s, p, c).value.recovering == s.recovering
    ensures CallNext(s, p, c).value.calls.Keys == s.calls.Keys
  {
    CallStepFrame(s, p, c);
  }

  lemma MarkAround(s: State, p: CallId)
    requires Structure(s) && CallNext(s, p, Mark).Some? && (s.recovering ==> s.unavailable)
    ensures Around(s, CallNext(s, p, Mark).value) && Marks(s, CallNext(s, p, Mark).value)
  {
    var g := s.calls[p].gen;
    if s.current != g || s.closed { } else { }
  }

  lemma CallAround(s: State, p: CallId, c: CallStep)
    requires Structure(s) && CallNext(s, p, c).Some? && (s.recovering ==> s.unavailable)
    requires s.terminal ==> s.unavailable
    ensures Around(s, CallNext(s, p, c).value) && Marks(s, CallNext(s, p, c).value)
  {
    if c.Admit? || c.Release? {
      BoundaryAround(s, p, c);
    } else if c.Register? {
      RegisterAround(s, p, c);
    } else if c.Mark? {
      MarkAround(s, p);
    } else {
      QuietAround(s, p, c);
    }
  }

  lemma ShutdownAround(s: State)
    requires Structure(s) && ShutdownNext(s).Some?
    ensures Around(s, ShutdownNext(s).value)
  {
    ShutdownFrame(s);
    match s.shutdown {
      case Open => case WaitingDrain => case StoppingEvents => case ReadingCurrent =>
      case ClosingCurrent(_) => case WaitingLoop => case Done =>
    }
  }

  lemma BrokerAround(s: State, step: Step)
    requires BrokerStep(step) && BrokerNext(s, step).Some?
    ensures Around(s, BrokerNext(s, step).value)
  {
    BrokerFrame(s, step);
  }

  /** Every step except the loop's own. */
  lemma OthersAround(s: State, step: Step)
    requires Structure(s) && Next(s, step).Some? && !step.ByLoopTask? && (s.recovering ==> s.unavailable)
    requires s.terminal ==> s.unavailable
    ensures Around(s, Next(s, step).value) && Marks(s, Next(s, step).value)
  {
    match step {
      case ByCaller(p, c) => CallAround(s, p, c);
      case ByShutdown =>
        ShutdownAround(s);
        ShutdownFrame(s);
      case _ =>
        BrokerAround(s, step);
        BrokerFrame(s, step);
    }
  }

  // ---------------------------------------------------------------- availability is accounted for

  /** The loop has left one generation and not installed the next. */
  predicate Between(loop: Loop) {
    || (loop.Serving? && (loop.serve.FailingAll? || loop.serve.ClosingOld?))
    || loop.Recovering? || loop.Owning? || loop.GivenUp?
  }

  ghost predicate Accounted(s: State) {
    && s.current < |s.gens|
    && (s.recovering ==> s.unavailable)
    && (s.unavailable ==> s.recovering || s.gens[s.current].broken || s.loop.Exited?)
    && (s.loop.Serving? && s.loop.serve.Rejoined? && s.unavailable ==> s.gens[s.current].broken)
    && (Between(s.loop) && !s.closed ==> s.recovering)
    && (s.terminal ==> s.loop.Exited? && s.unavailable)
    && (s.loop.Exited? && !s.closed ==> s.terminal)
    && (s.eventsCancelled || (s.loop.Serving? && s.loop.serve.Stopping?) ==> s.closed)
  }

  lemma OthersKeepAccounted(s: State, step: Step)
    requires Structure(s) && Accounted(s) && Next(s, step).Some? && !step.ByLoopTask?
    ensures Accounted(Next(s, step).value)
  {
    OthersAround(s, step);
  }

  lemma ServingKeepsAccounted(s: State, l: LoopStep)
    requires Structure(s) && Accounted(s) && s.loop.Serving? && LoopNext(s, l).Some?
    requires !l.MarkEnd? && !l.FinishRecovered?
    ensures Accounted(LoopNext(s, l).value)
  {
    ServingFrame(s, s.loop.gen, s.loop.serve, l);
    NextServing(s, l);
  }

  /** Where the loop goes from a served generation. */
  lemma NextServing(s: State, l: LoopStep)
    requires s.loop.Serving? && LoopNext(s, l).Some? && !l.MarkEnd? && !l.FinishRecovered?
    ensures var loop := LoopNext(s, l).value.loop;
      && (Between(loop) ==> Between(s.loop))
      && (loop.Exited? ==> s.loop.serve.Stopping?)
      && (loop.Serving? && loop.serve.Stopping? ==> s.eventsCancelled)
      && (loop.Serving? ==> !loop.serve.Rejoined?)
  {
    match l {
      case TakeReturn => TakenStage(s, s.loop.gen, s.loop.serve);
      case DrainOne => TakenStage(s, s.loop.gen, s.loop.serve);
      case TakeConfirm => case ApplyConfirm => case FailEach => case StopFailAll =>
      case ReturnsEnd => case Break => case Cancelled => case DrainDone => case CloseOld => case _ =>
    }
  }

  lemma TakenStage(s: State, g: GenId, stay: ServeStage)
    requires g < |s.gens| && s.gens[g].returnQueue != []
    ensures ReturnTaken(s, g, stay).loop == Serving(g, stay) || ReturnTaken(s, g, stay).loop == Serving(g, Ending)
  {
  }

  lemma EndKeepsAccounted(s: State, l: LoopStep)
    requires Structure(s) && Accounted(s) && s.loop.Serving? && LoopNext(s, l).Some? && (l.MarkEnd? || l.FinishRecovered?)
    ensures Accounted(LoopNext(s, l).value)
  {
    match l { case MarkEnd => case FinishRecovered => }
  }

  lemma OwningKeepsAccounted(s: State, l: LoopStep)
    requires Structure(s) && Accounted(s) && s.loop.Owning? && LoopNext(s, l).Some?
    ensures Accounted(LoopNext(s, l).value)
  {
    match l { case SetupFails => case SetupWorks => case LockInstall => case Install => case DiscardClose => case _ => }
  }

  lemma RecoveringKeepsAccounted(s: State, l: LoopStep)
    requires Accounted(s) && (s.loop.Recovering? || s.loop.GivenUp?) && LoopNext(s, l).Some?
    ensures Accounted(LoopNext(s, l).value)
  {
    match l { case Skip => case Dial(_) => case Quit => case FinishFailed => case _ => }
  }

  lemma StepKeepsAccounted(s: State, step: Step)
    requires Structure(s) && Accounted(s) && Next(s, step).Some?
    ensures Accounted(Next(s, step).value)
  {
    if !step.ByLoopTask? {
      OthersKeepAccounted(s, step);
    } else if s.loop.Serving? {
      if step.l.MarkEnd? || step.l.FinishRecovered? {
        EndKeepsAccounted(s, step.l);
      } else {
        ServingKeepsAccounted(s, step.l);
      }
    } else if s.loop.Owning? {
      OwningKeepsAccounted(s, step.l);
    } else {
      RecoveringKeepsAccounted(s, step.l);
    }
  }

  lemma {:induction false} FromKeepsAccounted(s: State, steps: seq<Step>)
    requires Structure(s) && Accounted(s) && From(s, steps).Some?
    ensures Accounted(From(s, steps).value)
  {
    if steps != [] {
      var n := |steps| - 1;
      FromKeepsAccounted(s, steps[..n]);
      FromKeepsStructure(s, steps[..n]);
      StepKeepsAccounted(From(s, steps[..n]).value, steps[n]);
    }
  }

  lemma ReachableAccounted(s: State)
    requires Reachable(s)
    ensures Structure(s) && Accounted(s)
  {
    var c, steps :| After(c, steps) == Some(s);
    FromKeepsStructure(Init(c.maximum, c.maxAttempts, c.session), steps);
    FromKeepsAccounted(Init(c.maximum, c.maxAttempts, c.session), steps);
  }

  /**
    Availability has a reason in every reachable state: publishes are turned away only while a recovery is under way,
    after a failed send on the current generation, or once the loop has ended; and they are turned away whenever an
    open producer is between two generations.
   */
  lemma UnavailableHasAReason(s: State)
    requires Reachable(s)
    ensures s.current < |s.gens|
    ensures s.unavailable ==> s.recovering || s.gens[s.current].broken || s.loop.Exited?
    ensures Between(s.loop) && !s.closed ==> s.recovering && s.unavailable
    ensures s.loop.Exited? && !s.closed ==> s.terminal && s.unavailable
  {
    ReachableAccounted(s);
  }

  // ---------------------------------------------------------------- the terminal state

  lemma TerminalStep(s: State, step: Step)
    requires Structure(s) && Accounted(s) && s.terminal && Next(s, step).Some?
    ensures Next(s, step).value.terminal && Next(s, step).value.calls.Keys == s.calls.Keys
  {
    if !step.ByLoopTask? {
      OthersAround(s, step);
    }
  }

  lemma {:induction false} TerminalForever(s: State, steps: seq<Step>)
    requires Structure(s) && Accounted(s) && s.terminal && From(s, steps).Some?
    ensures From(s, steps).value.terminal && From(s, steps).value.calls.Keys == s.calls.Keys
  {
    if steps != [] {
      var n := |steps| - 1;
      TerminalForever(s, steps[..n]);
      FromKeepsStructure(s, steps[..n]);
      FromKeepsAccounted(s, steps[..n]);
      TerminalStep(From(s, steps[..n]).value, steps[n]);
    }
  }

  /** A terminal producer stays terminal, its loop has ended, and no publish call is admitted in any continuation. */
  lemma TerminalIsFinal(s: State, steps: seq<Step>, end: State)
    requires Reachable(s) && s.terminal && From(s, steps) == Some(end)
    ensures end.terminal && end.loop.Exited? && end.unavailable && end.calls.Keys == s.calls.Keys
  {
    ReachableAccounted(s);
    TerminalForever(s, steps);
    FromKeepsAccounted(s, steps);
  }

  // ---------------------------------------------------------------- recovery attempts

  predicate Tries(step: Step) {
    step.ByLoopTask? && (step.l.Skip? || step.l.Dial?)
  }

  /** How many recovery attempts a run makes. */
  function Tried(steps: seq<Step>): nat {
    if steps == [] then 0 else Tried(steps[..|steps| - 1]) + if Tries(steps[|steps| - 1]) then 1 else 0
  }

  /** After `n` attempts the loop is where it should be, as long as `base` has not been replaced. */
  ghost predicate Spent(s: State, base: GenId, n: nat) {
    && base <= s.current
    && (s.current == base ==>
          && n <= s.maxAttempts
          && match s.loop
             case Serving(_, _) => false
             case Recovering(attempt) => n == attempt
             case Owning(_, Dialled(attempt)) => n == attempt + 1
             case Owning(_, Discarding(Some(next))) => n == next
             case Owning(_, Discarding(None)) => s.closed
             case Owning(_, _) => true
             case _ => n == s.maxAttempts || s.closed)
  }

  lemma OthersKeepSpent(s: State, step: Step, base: GenId, n: nat)
    requires Structure(s) && Accounted(s) && Spent(s, base, n) && Next(s, step).Some? && !step.ByLoopTask?
    ensures Spent(Next(s, step).value, base, n)
  {
    OthersAround(s, step);
  }

  lemma OwningKeepsSpent(s: State, l: LoopStep, base: GenId, n: nat)
    requires Structure(s) && Spent(s, base, n) && s.loop.Owning? && LoopNext(s, l).Some?
    ensures Spent(LoopNext(s, l).value, base, n) && !l.Skip? && !l.Dial?
  {
    match l { case SetupFails => case SetupWorks => case LockInstall => case Install => case DiscardClose => case _ => }
  }

  lemma RecoveringKeepsSpent(s: State, l: LoopStep, base: GenId, n: nat)
    requires Structure(s) && Accounted(s) && Spent(s, base, n) && (s.loop.Recovering? || s.loop.GivenUp?)
    requires LoopNext(s, l).Some?
    ensures Spent(LoopNext(s, l).value, base, if l.Skip? || l.Dial? then n + 1 else n)
  {
    match l { case Skip => case Dial(_) => case Quit => case FinishFailed => case _ => }
  }

  lemma LoopKeepsSpent(s: State, l: LoopStep, base: GenId, n: nat)
    requires Structure(s) && Accounted(s) && Spent(s, base, n) && LoopNext(s, l).Some?
    ensures Spent(LoopNext(s, l).value, base, if l.Skip? || l.Dial? then n + 1 else n)
  {
    match s.loop {
      case Serving(_, _) => LoopKeepsCurrent(s, l); ServingFrame(s, s.loop.gen, s.loop.serve, l);
      case Owning(_, _) => OwningKeepsSpent(s, l, base, n);
      case _ => RecoveringKeepsSpent(s, l, base, n);
    }
  }

  lemma {:induction false} RunSpends(s: State, steps: seq<Step>)
    requires Structure(s) && Accounted(s) && s.loop == Recovering(0) && From(s, steps).Some?
    ensures Spent(From(s, steps).value, s.current, Tried(steps))
  {
    if steps != [] {
      var n := |steps| - 1;
      var mid := From(s, steps[..n]).value;
      RunSpends(s, steps[..n]);
      FromKeepsStructure(s, steps[..n]);
      FromKeepsAccounted(s, steps[..n]);
      if steps[n].ByLoopTask? {
        LoopKeepsSpent(mid, steps[n].l, s.current, Tried(steps[..n]));
      } else {
        OthersKeepSpent(mid, steps[n], s.current, Tried(steps[..n]));
      }
    }
  }

  /**
    From the start of a recovery until a generation is installed at most maxAttempts attempts are made, in every run;
    and a loop that gives up although the producer was not closed has made all of them.
   */
  lemma GivingUpTakesEveryAttempt(s: State, steps: seq<Step>, end: State)
    requires Reachable(s) && s.loop == Recovering(0) && From(s, steps) == Some(end) && end.current == s.current
    ensures Tried(steps) <= end.maxAttempts
    ensures (end.loop.GivenUp? || end.loop.Exited?) && !end.closed ==> Tried(steps) == end.maxAttempts
  {
    ReachableAccounted(s);
    RunSpends(s, steps);
  }
}
