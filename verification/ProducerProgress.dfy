/**
  Nothing the producer does can lock it up (producer.go:340-470, 633-740, 944-985; producer_open.go:163-275): from every
  reachable state shutdown can still complete, and a recovery with an attempt left can still open the gate again.
 */
module ProducerProgress {
  import opened Basics
  import opened TrackerSpec
  import Text
  import opened ProducerProtocol
  import opened ProducerStructure
  import opened ProducerFrames

  // ---------------------------------------------------------------- the lock always has a holder who can move

  ghost predicate LockHeld(s: State) {
    match s.lock
    case Free => true
    case ByCall(p) => p in s.calls && s.calls[p].HoldsLock()
    case ByLoop => s.loop.Owning? && s.loop.own.InstallLocked?
  }

  /** The lock is dropped, taken by the stepping call, or stays with a holder who stays. */
  ghost predicate LockMoves(s: State, s': State, p: CallId) {
    || s'.lock.Free?
    || (p in s'.calls && s'.calls[p].HoldsLock() && (s'.lock == ByCall(p) || s'.lock == s.lock))
    || (s'.lock == s.lock && (p in s.calls ==> !s.calls[p].HoldsLock()))
  }

  lemma HeldLock(s: State, p: CallId, g: GenId, stage: HeldStage, c: CallStep)
    requires p in s.calls && g < |s.gens| && p in s.gens[g].attempts && HeldNext(s, p, g, stage, c).Some?
    ensures LockMoves(s, HeldNext(s, p, g, stage, c).value, p)
  {
    match c {
      case Mark => MarkedLock(s, p, g, Held(g, Signalling(stage.kind)));
      case Signal => case CheckClosingAgain => case SendEnds(_) => case Unlock => case _ =>
    }
  }

  lemma MarkedLock(s: State, p: CallId, g: GenId, phase: Phase)
    requires g < |s.gens|
    ensures p in Marked(s, p, g, phase).calls && Marked(s, p, g, phase).calls[p] == phase
    ensures Marked(s, p, g, phase).lock == s.lock
  {
  }

  lemma LooseLock(s: State, p: CallId, g: GenId, stage: LooseStage, c: CallStep)
    requires p in s.calls && !s.calls[p].HoldsLock() && g < |s.gens| && p in s.gens[g].attempts
    requires LooseNext(s, p, g, stage, c).Some?
    ensures LockMoves(s, LooseNext(s, p, g, stage, c).value, p)
  {
    match c {
      case FailAttempt => AbandonedLock(s, p, g);
      case GiveUp => AbandonedLock(s, p, g);
      case Recheck => case DropPreflight => case ContextDone => case Receive => case _ =>
    }
  }

  lemma AbandonedLock(s: State, p: CallId, g: GenId)
    requires g < |s.gens| && p in s.gens[g].attempts
    ensures Abandoned(s, p, g).lock == s.lock
  {
    if LiveSequence(s.gens[g], s.gens[g].attempts[p].sequence) { } else { }
  }

  lemma OuterLock(s: State, p: CallId, c: CallStep)
    requires p in s.calls && (s.calls[p].Admitted? || s.calls[p].Entered?) && CallNext(s, p, c).Some? && !c.Register?
    ensures LockMoves(s, CallNext(s, p, c).value, p)
  {
    match c { case AcquireLock => case Expire => case CheckClosing => case CheckAvailable => case _ => }
  }

  lemma CallLock(s: State, p: CallId, c: CallStep)
    requires Structure(s) && CallNext(s, p, c).Some?
    ensures LockMoves(s, CallNext(s, p, c).value, p)
  {
    if c.Admit? || c.Release? {
      BoundaryLock(s, p, c);
    } else if c.Register? {
      RegisterCases(s, p, c);
    } else {
      match s.calls[p] {
        case Held(g, stage) => HeldLock(s, p, g, stage, c);
        case Loose(g, stage) => LooseLock(s, p, g, stage, c);
        case _ => OuterLock(s, p, c);
      }
    }
  }

  lemma BoundaryLock(s: State, p: CallId, c: CallStep)
    requires CallNext(s, p, c).Some? && (c.Admit? || c.Release?)
    ensures LockMoves(s, CallNext(s, p, c).value, p)
  {
  }

  lemma CallKeepsLockHeld(s: State, p: CallId, c: CallStep)
    requires Structure(s) && LockHeld(s) && CallNext(s, p, c).Some?
    ensures LockHeld(CallNext(s, p, c).value)
  {
    var s' := CallNext(s, p, c).value;
    CallLock(s, p, c);
    CallKeepsTasks(s, p, c);
    if s.lock.ByCall? && s.lock.call != p {
      OtherCallStays(s, p, c, s.lock.call);
    }
  }

  /** What a call leaves to the loop and the shutdown task. */
  predicate SameTasks(s: State, s': State) {
    && s'.loop == s.loop && s'.shutdown == s.shutdown && s'.current == s.current && |s'.gens| == |s.gens|
    && s'.closed == s.closed && s'.eventsCancelled == s.eventsCancelled && s'.maxAttempts == s.maxAttempts
  }

  lemma CallKeepsTasks(s: State, p: CallId, c: CallStep)
    requires Structure(s) && CallNext(s, p, c).Some?
    ensures SameTasks(s, CallNext(s, p, c).value)
  {
    if c.Admit? || c.Release? {
      BoundaryKeepsTasks(s, p, c);
    } else if c.Register? {
      RegisterCases(s, p, c);
    } else {
      CallStepFrame(s, p, c);
    }
  }

  lemma BoundaryKeepsTasks(s: State, p: CallId, c: CallStep)
    requires CallNext(s, p, c).Some? && (c.Admit? || c.Release?)
    ensures SameTasks(s, CallNext(s, p, c).value)
  {
  }

  lemma OwningKeepsLockHeld(s: State, l: LoopStep)
    requires Structure(s) && LockHeld(s) && s.loop.Owning? && LoopNext(s, l).Some?
    ensures LockHeld(LoopNext(s, l).value)
  {
    match l { case SetupFails => case SetupWorks => case LockInstall => case Install => case DiscardClose => case _ => }
  }

  lemma RecoveringKeepsLockHeld(s: State, l: LoopStep)
    requires LockHeld(s) && (s.loop.Recovering? || s.loop.GivenUp?) && LoopNext(s, l).Some?
    ensures LockHeld(LoopNext(s, l).value)
  {
    match l { case Skip => case Dial(_) => case Quit => case FinishFailed => case _ => }
  }

  lemma ServingKeepsLock(s: State, l: LoopStep)
    requires s.loop.Serving? && LoopNext(s, l).Some?
    ensures LoopNext(s, l).value.lock == s.lock
  {
    match l {
      case TakeReturn => case DrainOne => case TakeConfirm => case ApplyConfirm => case FailEach => case StopFailAll =>
      case ReturnsEnd => case Break => case Cancelled => case DrainDone => case MarkEnd =>
      case CloseOld => case FinishRecovered => case _ =>
    }
  }

  lemma StepKeepsLockHeld(s: State, step: Step)
    requires Structure(s) && LockHeld(s) && Next(s, step).Some?
    ensures LockHeld(Next(s, step).value)
  {
    match step {
      case ByCaller(p, c) => CallKeepsLockHeld(s, p, c);
      case ByLoopTask(l) => LoopKeepsLockHeld(s, l);
      case ByShutdown => ShutdownKeepsLock(s);
      case _ => BrokerKeepsLock(s, step);
    }
  }

  lemma LoopKeepsLockHeld(s: State, l: LoopStep)
    requires Structure(s) && LockHeld(s) && LoopNext(s, l).Some?
    ensures LockHeld(LoopNext(s, l).value)
  {
    if s.loop.Owning? {
      OwningKeepsLockHeld(s, l);
    } else if s.loop.Serving? {
      LoopCounters(s, l);
      ServingKeepsLock(s, l);
      CallsLeftAlone(s, LoopNext(s, l).value);
    } else {
      RecoveringKeepsLockHeld(s, l);
    }
  }

  /** A loop that serves does not have the lock, and a call that has it keeps it. */
  lemma CallsLeftAlone(s: State, s': State)
    requires LockHeld(s) && s.loop.Serving? && s'.lock == s.lock && s'.calls == s.calls
    ensures LockHeld(s')
  {
  }

  lemma BrokerKeepsLock(s: State, step: Step)
    requires BrokerStep(step) && BrokerNext(s, step).Some?
    ensures var s' := BrokerNext(s, step).value; s'.lock == s.lock && s'.calls == s.calls && s'.loop == s.loop
  {
    BrokerFrame(s, step);
  }

  lemma ShutdownKeepsLock(s: State)
    requires ShutdownNext(s).Some?
    ensures var s' := ShutdownNext(s).value; s'.lock == s.lock && s'.calls == s.calls && s'.loop == s.loop
  {
    match s.shutdown {
      case Open => case WaitingDrain => case StoppingEvents => case ReadingCurrent =>
      case ClosingCurrent(_) => case WaitingLoop => case Done =>
    }
  }

  lemma {:induction false} FromKeepsLockHeld(s: State, steps: seq<Step>)
    requires Structure(s) && LockHeld(s) && From(s, steps).Some?
    ensures LockHeld(From(s, steps).value)
  {
    if steps != [] {
      var n := |steps| - 1;
      FromKeepsLockHeld(s, steps[..n]);
      FromKeepsStructure(s, steps[..n]);
      StepKeepsLockHeld(From(s, steps[..n]).value, steps[n]);
    }
  }

  /** The lock is never lost: whoever has it is inside the section it guards. */
  lemma LockHasAHolder(s: State)
    requires Reachable(s)
    ensures Structure(s) && LockHeld(s)
  {
    var c, steps :| After(c, steps) == Some(s);
    FromKeepsStructure(Init(c.maximum, c.maxAttempts, c.session), steps);
    FromKeepsLockHeld(Init(c.maximum, c.maxAttempts, c.session), steps);
  }

  // ---------------------------------------------------------------- the lock can always be released

  /** Steps until the holder lets go. */
  function HoldRank(phase: Phase): nat
    requires phase.HoldsLock()
  {
    match phase
    case Entered(Locked) => 8
    case Entered(NotClosing) => 7
    case Entered(Available) => 6
    case Held(_, Registered) => 5
    case Held(_, Sending) => 4
    case Held(_, Marking(_)) => 3
    case Held(_, Signalling(_)) => 2
    case Held(_, Unlocking(_)) => 1
  }

  function HolderStep(phase: Phase): CallStep
    requires phase.HoldsLock()
  {
    match phase
    case Entered(Locked) => CheckClosing
    case Entered(NotClosing) => CheckAvailable
    case Entered(Available) => Register(1, [], [])
    case Held(_, Registered) => CheckClosingAgain
    case Held(_, Sending) => SendEnds(Sent)
    case Held(_, Marking(_)) => Mark
    case Held(_, Signalling(_)) => Signal
    case Held(_, Unlocking(_)) => Unlock
  }

  /** The holder is one step closer to letting go. */
  ghost predicate Nearer(s: State, s': State, p: CallId)
    requires p in s.calls && s.calls[p].HoldsLock()
  {
    p in s'.calls && (s'.lock.Free? ||
      (s'.lock == s.lock && s'.calls[p].HoldsLock() && HoldRank(s'.calls[p]) < HoldRank(s.calls[p])))
  }

  lemma CheckMoves(s: State, p: CallId)
    requires p in s.calls && (s.calls[p] == Entered(Locked) || s.calls[p] == Entered(NotClosing))
    ensures CallNext(s, p, HolderStep(s.calls[p])).Some?
    ensures Nearer(s, CallNext(s, p, HolderStep(s.calls[p])).value, p)
  {
    match s.calls[p].entry { case Locked => case NotClosing => }
  }

  lemma RegisterMoves(s: State, p: CallId)
    requires s.current < |s.gens| && p in s.calls && s.calls[p] == Entered(Available)
    ensures CallNext(s, p, Register(1, [], [])).Some?
    ensures Nearer(s, CallNext(s, p, Register(1, [], [])).value, p)
  {
    RegisterCases(s, p, Register(1, [], []));
  }

  lemma CheckAgainMoves(s: State, p: CallId, g: GenId)
    requires g < |s.gens| && p in s.gens[g].attempts && p in s.calls && s.calls[p] == Held(g, Registered)
    ensures CallNext(s, p, CheckClosingAgain).Some? && Nearer(s, CallNext(s, p, CheckClosingAgain).value, p)
  {
    if s.shutdownClosing { } else { }
  }

  lemma MarkMoves(s: State, p: CallId, g: GenId)
    requires g < |s.gens| && p in s.gens[g].attempts && p in s.calls && s.calls[p].Held? && s.calls[p].gen == g
    requires s.calls[p].held.Marking?
    ensures CallNext(s, p, Mark).Some? && Nearer(s, CallNext(s, p, Mark).value, p)
  {
    MarkedLock(s, p, g, Held(g, Signalling(s.calls[p].held.kind)));
  }

  lemma SignalMoves(s: State, p: CallId, g: GenId)
    requires g < |s.gens| && p in s.gens[g].attempts && p in s.calls && s.calls[p].Held? && s.calls[p].gen == g
    requires s.calls[p].held.Signalling?
    ensures CallNext(s, p, Signal).Some? && Nearer(s, CallNext(s, p, Signal).value, p)
  {
    if s.calls[p].held.kind.TimedOut? { } else { }
  }

  lemma SendMoves(s: State, p: CallId, g: GenId)
    requires g < |s.gens| && p in s.gens[g].attempts && p in s.calls && s.calls[p].Held? && s.calls[p].gen == g
    requires s.calls[p].held.Sending? || s.calls[p].held.Unlocking?
    ensures CallNext(s, p, HolderStep(s.calls[p])).Some?
    ensures Nearer(s, CallNext(s, p, HolderStep(s.calls[p])).value, p)
  {
    match s.calls[p].held { case Sending => case Unlocking(_) => }
  }

  lemma HeldMoves(s: State, p: CallId, g: GenId)
    requires g < |s.gens| && p in s.gens[g].attempts && p in s.calls && s.calls[p].Held? && s.calls[p].gen == g
    ensures CallNext(s, p, HolderStep(s.calls[p])).Some?
    ensures Nearer(s, CallNext(s, p, HolderStep(s.calls[p])).value, p)
  {
    match s.calls[p].held {
      case Registered => CheckAgainMoves(s, p, g);
      case Marking(_) => MarkMoves(s, p, g);
      case Signalling(_) => SignalMoves(s, p, g);
      case _ => SendMoves(s, p, g);
    }
  }

  lemma HolderMoves(s: State, p: CallId)
    requires Structure(s) && s.lock == ByCall(p) && p in s.calls && s.calls[p].HoldsLock()
    ensures CallNext(s, p, HolderStep(s.calls[p])).Some?
    ensures Nearer(s, CallNext(s, p, HolderStep(s.calls[p])).value, p)
    ensures SameTasks(s, CallNext(s, p, HolderStep(s.calls[p])).value)
  {
    match s.calls[p] {
      case Entered(Available) => RegisterMoves(s, p);
      case Entered(_) => CheckMoves(s, p);
      case Held(g, _) =>
        assert CallOk(s, p);
        HeldMoves(s, p, g);
    }
    CallKeepsTasks(s, p, HolderStep(s.calls[p]));
  }

  lemma {:induction false} LockCanBeFreed(origin: State, s: State) returns (t: State)
    requires Reachable(s) && Leads(origin, s) && !s.lock.ByLoop?
    ensures Reachable(t) && Leads(origin, t) && t.lock.Free? && SameTasks(s, t)
    decreases if s.lock.ByCall? && s.lock.call in s.calls && s.calls[s.lock.call].HoldsLock()
              then HoldRank(s.calls[s.lock.call]) else 0
  {
    LockHasAHolder(s);
    if s.lock.Free? {
      t := s;
    } else {
      var p := s.lock.call;
      var step := ByCaller(p, HolderStep(s.calls[p]));
      HolderMoves(s, p);
      var m := Next(s, step).value;
      LeadsFurther(origin, s, step, m);
      ReachableFurther(s, step, m);
      t := LockCanBeFreed(origin, m);
    }
  }

  // ---------------------------------------------------------------- the loop can always exit

  function CloseRank(close: CloseState): nat {
    match close
    case NotStarted => 2
    case Running => 1
    case Closed => 0
  }

  /** Steps until the loop has exited once the events are cancelled. */
  function LoopRank(s: State): nat {
    match s.loop
    case Exited => 0
    case GivenUp => 1
    case Recovering(_) => 2
    case Owning(_, Discarding(_)) => 3
    case Owning(_, InstallLocked) => 4
    case Owning(_, Installing) => 5
    case Owning(_, Dialled(_)) => 4
    case Serving(_, Stopping) => 1
    case Serving(_, Selecting(_)) => 2
    case Serving(_, Rejoined) => 3
    case Serving(_, Confirming(_, _)) => 3
    case Serving(g, ClosingOld) => 3 + if g < |s.gens| then CloseRank(s.gens[g].close) else 0
    case Serving(_, FailingAll) => 6
    case Serving(_, Ending) => 7
    case Serving(g, Draining(_, _)) => 8 + if g < |s.gens| then |s.gens[g].returnQueue| else 0
  }

  /** A step that brings the loop closer to its exit; installing first needs a free lock. */
  function ExitStep(s: State): Step
    requires TasksOk(s) && !s.loop.Exited?
  {
    match s.loop
    case GivenUp => ByLoopTask(FinishFailed)
    case Recovering(_) => ByLoopTask(Quit)
    case Owning(_, Discarding(_)) => ByLoopTask(DiscardClose)
    case Owning(_, InstallLocked) => ByLoopTask(Install)
    case Owning(_, Installing) => ByLoopTask(LockInstall)
    case Owning(_, Dialled(_)) => ByLoopTask(SetupFails)
    case Serving(_, Stopping) => ByLoopTask(StopFailAll)
    case Serving(_, Selecting(_)) => ByLoopTask(Cancelled)
    case Serving(_, Rejoined) => ByLoopTask(FinishRecovered)
    case Serving(_, Confirming(_, _)) => ByLoopTask(ApplyConfirm)
    case Serving(g, ClosingOld) =>
      (match s.gens[g].close
       case NotStarted => CloseStarts(g)
       case Running => CloseEnds(g)
       case Closed => ByLoopTask(CloseOld))
    case Serving(_, FailingAll) => ByLoopTask(FailEach)
    case Serving(_, Ending) => ByLoopTask(MarkEnd)
    case Serving(g, Draining(listening, _)) =>
      if listening && s.gens[g].returnQueue != [] then ByLoopTask(DrainOne) else ByLoopTask(DrainDone)
  }

  ghost predicate Exiting(s: State, s': State) {
    LoopRank(s') < LoopRank(s) && s'.shutdown == s.shutdown && s'.eventsCancelled && s'.closed
  }

  lemma DrainExits(s: State)
    requires TasksOk(s) && s.eventsCancelled && s.closed && s.loop.Serving? && s.loop.serve.Draining?
    ensures Next(s, ExitStep(s)).Some? && Exiting(s, Next(s, ExitStep(s)).value)
  {
    var g := s.loop.gen;
    if s.loop.serve.listening && s.gens[g].returnQueue != [] {
      DrainOneExits(s, g, s.loop.serve);
    }
  }

  lemma DrainOneExits(s: State, g: GenId, stage: ServeStage)
    requires g < |s.gens| && s.gens[g].returnQueue != [] && stage.Draining?
    ensures var t := ReturnTaken(s, g, stage);
      && |t.gens| == |s.gens| && t.shutdown == s.shutdown && t.eventsCancelled == s.eventsCancelled && t.closed == s.closed
      && LoopRank(t) < 8 + |s.gens[g].returnQueue|
  {
  }

  lemma ServingExits(s: State)
    requires TasksOk(s) && s.eventsCancelled && s.closed && s.loop.Serving?
    requires s.loop.serve.Selecting? || s.loop.serve.Rejoined? || s.loop.serve.Ending?
    ensures Next(s, ExitStep(s)).Some? && Exiting(s, Next(s, ExitStep(s)).value)
  {
    match s.loop.serve { case Selecting(_) => case Rejoined => case Ending => }
  }

  lemma NotifyingExits(s: State)
    requires TasksOk(s) && s.eventsCancelled && s.closed && s.loop.Serving?
    requires s.loop.serve.Stopping? || s.loop.serve.Confirming? || s.loop.serve.FailingAll?
    ensures Next(s, ExitStep(s)).Some? && Exiting(s, Next(s, ExitStep(s)).value)
  {
    match s.loop.serve { case Stopping => case Confirming(_, _) => case FailingAll => }
  }

  lemma ClosingExits(s: State)
    requires TasksOk(s) && s.eventsCancelled && s.closed && s.loop.Serving? && s.loop.serve.ClosingOld?
    ensures Next(s, ExitStep(s)).Some? && Exiting(s, Next(s, ExitStep(s)).value)
  {
    match s.gens[s.loop.gen].close { case NotStarted => case Running => case Closed => }
  }

  lemma OutsideExits(s: State)
    requires TasksOk(s) && s.eventsCancelled && s.closed && !s.loop.Serving? && !s.loop.Exited?
    requires s.loop.Owning? && s.loop.own.Installing? ==> s.lock.Free?
    ensures Next(s, ExitStep(s)).Some? && Exiting(s, Next(s, ExitStep(s)).value)
  {
    match s.loop {
      case GivenUp => case Recovering(_) =>
      case Owning(_, stage) =>
        match stage { case Discarding(_) => case InstallLocked => case Installing => case Dialled(_) => }
    }
  }

  lemma LoopMoves(s: State)
    requires TasksOk(s) && s.eventsCancelled && s.closed && !s.loop.Exited?
    requires s.loop.Owning? && s.loop.own.Installing? ==> s.lock.Free?
    ensures Next(s, ExitStep(s)).Some? && Exiting(s, Next(s, ExitStep(s)).value)
  {
    if !s.loop.Serving? {
      OutsideExits(s);
    } else if s.loop.serve.Draining? {
      DrainExits(s);
    } else if s.loop.serve.ClosingOld? {
      ClosingExits(s);
    } else if s.loop.serve.Stopping? || s.loop.serve.Confirming? || s.loop.serve.FailingAll? {
      NotifyingExits(s);
    } else {
      ServingExits(s);
    }
  }

  /** Nothing more than a call's own step stands between the loop and its installation. */
  lemma ReadyToMove(origin: State, s: State) returns (t: State)
    requires Reachable(s) && Leads(origin, s) && !s.loop.Exited?
    ensures Reachable(t) && Leads(origin, t) && SameTasks(s, t) && LoopRank(t) <= LoopRank(s)
    ensures t.loop.Owning? && t.loop.own.Installing? ==> t.lock.Free?
  {
    t := s;
    if s.loop.Owning? && s.loop.own.Installing? {
      LockHasAHolder(s);
      t := LockCanBeFreed(origin, s);
    }
  }

  lemma {:induction false} LoopCanExit(origin: State, s: State) returns (t: State)
    requires Reachable(s) && Leads(origin, s) && s.eventsCancelled && s.closed
    ensures Reachable(t) && Leads(origin, t) && t.loop.Exited? && t.shutdown == s.shutdown
    decreases LoopRank(s)
  {
    if s.loop.Exited? {
      t := s;
    } else {
      var r := ReadyToMove(origin, s);
      ReachableStructure(r);
      LoopMoves(r);
      var m := Next(r, ExitStep(r)).value;
      LeadsFurther(origin, r, ExitStep(r), m);
      ReachableFurther(r, ExitStep(r), m);
      t := LoopCanExit(origin, m);
    }
  }

  // ---------------------------------------------------------------- shutdown can always complete

  function ShutdownRank(s: State): nat {
    match s.shutdown
    case Open => 7
    case WaitingDrain => 6
    case StoppingEvents => 5
    case ReadingCurrent => 4
    case ClosingCurrent(g) => 1 + if g < |s.gens| then CloseRank(s.gens[g].close) else 0
    case WaitingLoop => 0
    case Done => 0
  }

  function ShutdownStep(s: State): Step
    requires TasksOk(s)
  {
    match s.shutdown
    case ClosingCurrent(g) =>
      (match s.gens[g].close
       case NotStarted => CloseStarts(g)
       case Running => CloseEnds(g)
       case Closed => ByShutdown)
    case _ => ByShutdown
  }

  lemma ShutdownMoves(s: State)
    requires TasksOk(s) && !s.shutdown.WaitingLoop? && !s.shutdown.Done?
    ensures Next(s, ShutdownStep(s)).Some? && ShutdownRank(Next(s, ShutdownStep(s)).value) < ShutdownRank(s)
  {
    match s.shutdown {
      case Open => case WaitingDrain => case StoppingEvents => case ReadingCurrent =>
      case ClosingCurrent(g) => match s.gens[g].close { case NotStarted => case Running => case Closed => }
    }
  }

  lemma {:induction false} ShutdownCanWait(origin: State, s: State) returns (t: State)
    requires Reachable(s) && Leads(origin, s)
    ensures Reachable(t) && Leads(origin, t) && (t.shutdown.WaitingLoop? || t.shutdown.Done?)
    decreases ShutdownRank(s)
  {
    if s.shutdown.WaitingLoop? || s.shutdown.Done? {
      t := s;
    } else {
      ReachableStructure(s);
      ShutdownMoves(s);
      var m := Next(s, ShutdownStep(s)).value;
      LeadsFurther(origin, s, ShutdownStep(s), m);
      ReachableFurther(s, ShutdownStep(s), m);
      t := ShutdownCanWait(origin, m);
    }
  }

  /** Shutdown is past the point where it cancelled the events. */
  predicate CancelledInTime(s: State) {
    s.shutdown.ReadingCurrent? || s.shutdown.ClosingCurrent? || s.shutdown.WaitingLoop? || s.shutdown.Done? ==>
      s.eventsCancelled
  }

  lemma StepKeepsCancelled(s: State, step: Step)
    requires Structure(s) && CancelledInTime(s) && Next(s, step).Some?
    ensures CancelledInTime(Next(s, step).value)
  {
    match step {
      case ByCaller(p, c) => CallKeepsTasks(s, p, c);
      case ByLoopTask(l) => LoopKeepsCancelled(s, l);
      case ByShutdown => match s.shutdown { case Open => case WaitingDrain => case StoppingEvents => case _ => }
      case _ => BrokerFrame(s, step);
    }
  }

  lemma LoopKeepsCancelled(s: State, l: LoopStep)
    requires LoopNext(s, l).Some?
    ensures LoopNext(s, l).value.shutdown == s.shutdown && LoopNext(s, l).value.eventsCancelled == s.eventsCancelled
  {
    match s.loop {
      case Serving(g, stage) => ServingKeepsCancelled(s, g, stage, l);
      case Owning(g, stage) => OwningKeepsCancelled(s, g, stage, l);
      case Recovering(attempt) => RecoveringKeepsCancelled(s, attempt, l);
      case GivenUp => case Exited =>
    }
  }

  lemma ServingKeepsCancelled(s: State, g: GenId, stage: ServeStage, l: LoopStep)
    requires g < |s.gens| && ServingNext(s, g, stage, l).Some?
    ensures var t := ServingNext(s, g, stage, l).value; t.shutdown == s.shutdown && t.eventsCancelled == s.eventsCancelled
  {
    ServingFrame(s, g, stage, l);
  }

  lemma OwningKeepsCancelled(s: State, g: GenId, stage: OwnStage, l: LoopStep)
    requires g < |s.gens| && OwningNext(s, g, stage, l).Some?
    ensures var t := OwningNext(s, g, stage, l).value; t.shutdown == s.shutdown && t.eventsCancelled == s.eventsCancelled
  {
    OwningFrame(s, g, stage, l);
  }

  lemma RecoveringKeepsCancelled(s: State, attempt: nat, l: LoopStep)
    requires RecoveringNext(s, attempt, l).Some?
    ensures var t := RecoveringNext(s, attempt, l).value; t.shutdown == s.shutdown && t.eventsCancelled == s.eventsCancelled
  {
    match l { case Skip => case Dial(_) => case Quit => case _ => }
  }

  lemma {:induction false} FromKeepsCancelled(s: State, steps: seq<Step>)
    requires Structure(s) && CancelledInTime(s) && From(s, steps).Some?
    ensures CancelledInTime(From(s, steps).value)
  {
    if steps != [] {
      var n := |steps| - 1;
      FromKeepsCancelled(s, steps[..n]);
      FromKeepsStructure(s, steps[..n]);
      StepKeepsCancelled(From(s, steps[..n]).value, steps[n]);
    }
  }

  lemma ReachableCancelled(s: State)
    requires Reachable(s)
    ensures Structure(s) && CancelledInTime(s)
  {
    var c, steps :| After(c, steps) == Some(s);
    FromKeepsStructure(Init(c.maximum, c.maxAttempts, c.session), steps);
    FromKeepsCancelled(Init(c.maximum, c.maxAttempts, c.session), steps);
  }

  /**
    From every reachable state - calls anywhere in the publish path, a recovery half done, a close under way - shutdown
    can still run to completion: no order of steps leads into a deadlock.
   */
  lemma ShutdownCanComplete(s: State)
    requires Reachable(s)
    ensures exists t :: Leads(s, t) && t.shutdown.Done?
  {
    LeadsNowhere(s);
    var w := ShutdownCanWait(s, s);
    if !w.shutdown.Done? {
      ReachableCancelled(w);
      var x := LoopCanExit(s, w);
      var t := Next(x, ByShutdown).value;
      LeadsFurther(s, x, ByShutdown, t);
    }
  }

  // ---------------------------------------------------------------- recovery can open the gate again

  lemma DialMoves(s: State, attempt: nat, session: Bytes)
    requires s.loop == Recovering(attempt) && attempt < s.maxAttempts
    ensures LoopNext(s, Dial(session)) ==
            Some(s.(gens := s.gens + [NewGeneration(session)], loop := Owning(|s.gens|, Dialled(attempt))))
  {
  }

  lemma SetUpMoves(s: State, g: GenId)
    requires g < |s.gens| && s.loop.Owning? && s.loop.gen == g && s.loop.own.Dialled?
    ensures LoopNext(s, SetupWorks) == Some(s.(loop := Owning(g, Installing)))
  {
  }

  lemma InstallMoves(s: State, g: GenId)
    requires g < |s.gens| && s.loop == Owning(g, Installing) && s.lock.Free? && !s.closed
    ensures LoopNext(s, LockInstall).Some? && LoopNext(LoopNext(s, LockInstall).value, Install).Some?
    ensures var t := LoopNext(LoopNext(s, LockInstall).value, Install).value;
            t == s.(loop := Serving(g, Rejoined), current := g, unavailable := false, recovering := false)
  {
  }

  lemma RejoinMoves(s: State, g: GenId)
    requires g < |s.gens| && s.loop == Serving(g, Rejoined)
    ensures LoopNext(s, FinishRecovered) == Some(s.(recovering := false, loop := Serving(g, Selecting(true))))
  {
  }

  /** The dialled generation reaches its installation. */
  lemma DialledCanInstall(s: State, attempt: nat, session: Bytes) returns (t: State)
    requires Reachable(s) && s.loop == Recovering(attempt) && attempt < s.maxAttempts && !s.closed
    ensures Reachable(t) && Leads(s, t) && t.loop == Owning(|s.gens|, Installing) && t.lock.Free? && !t.closed
    ensures |t.gens| == |s.gens| + 1
  {
    LeadsNowhere(s);
    DialMoves(s, attempt, session);
    var d := LoopNext(s, Dial(session)).value;
    LeadsFurther(s, s, ByLoopTask(Dial(session)), d);
    ReachableFurther(s, ByLoopTask(Dial(session)), d);
    SetUpMoves(d, |s.gens|);
    var u := LoopNext(d, SetupWorks).value;
    LeadsFurther(s, d, ByLoopTask(SetupWorks), u);
    ReachableFurther(d, ByLoopTask(SetupWorks), u);
    LockHasAHolder(u);
    t := LockCanBeFreed(s, u);
  }

  /**
    A recovery with an attempt left can succeed whatever the calls are doing: some continuation installs a new
    generation, which the loop then serves, listening, with the producer available.
   */
  lemma RecoveryCanComplete(s: State, attempt: nat, session: Bytes)
    requires Reachable(s) && s.loop == Recovering(attempt) && attempt < s.maxAttempts && !s.closed
    ensures exists t :: Leads(s, t) && t.current == |s.gens| && t.loop == Serving(t.current, Selecting(true)) &&
              !t.unavailable && !t.recovering && !t.closed
  {
    var u := DialledCanInstall(s, attempt, session);
    var g := |s.gens|;
    InstallMoves(u, g);
    var k := LoopNext(u, LockInstall).value;
    LeadsFurther(s, u, ByLoopTask(LockInstall), k);
    var i := LoopNext(k, Install).value;
    LeadsFurther(s, k, ByLoopTask(Install), i);
    RejoinMoves(i, g);
    LeadsFurther(s, i, ByLoopTask(FinishRecovered), LoopNext(i, FinishRecovered).value);
  }
}
