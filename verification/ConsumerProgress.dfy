/**
  Nothing the consumer does can lock it up (consumer.go:313-349, 367-485, 537-623, 905-960): from every reachable state
  it can still stop with all its work done; and a drain that went wrong stays reported.
 */
module ConsumerProgress {
  import opened Basics
  import opened ConsumerProtocol
  import opened ConsumerSafety
  import opened ConsumerTags

  // ---------------------------------------------------------------- the loop can always leave

  /** Steps until the loop has closed the job queue. */
  function LoopRank(s: State): nat {
    match s.loop
    case Consuming(run, Top) => 6 + 2 * |run.ring|
    case Consuming(run, Gated(_)) => 5 + 2 * |run.ring|
    case Consuming(_, Selecting(_)) => 4
    case Consuming(run, Received(_)) => 10 + 2 * |run.ring|
    case Consuming(run, Accepting(_)) => 9 + 2 * |run.ring|
    case Consuming(_, Rejecting(_)) => 4
    case Leaving(_, _, _) => 3
    case Recovering => 2
    case Finishing => 1
    case Joining => 0
    case Stopped => 0
  }

  /** A step that brings the loop closer to its end, whatever the gates say. */
  function ExitStep(s: State): LoopStep {
    match s.loop
    case Consuming(_, Top) => EnterGate
    case Consuming(run, Gated(paused)) =>
      if run.ring != [] && !paused && |s.work.jobs| < s.prefetch then AdmitOne else LeaveGate
    case Consuming(_, Selecting(_)) => LifetimeExit
    case Consuming(_, Received(_)) => Decide
    case Consuming(_, Accepting(_)) => Enqueue
    case Consuming(_, Rejecting(_)) => Reject(false)
    case Leaving(_, _, _) => Drop
    case Recovering => GiveUp
    case Finishing => CloseJobs
    case _ => WorkersDone
  }

  lemma LoopMoves(s: State)
    requires LoopOk(s) && RunTagged(s) && !s.loop.Joining? && !s.loop.Stopped?
    ensures LoopNext(s, ExitStep(s)).Some? && LoopRank(LoopNext(s, ExitStep(s)).value) < LoopRank(s)
    ensures LoopNext(s, ExitStep(s)).value.concurrency == s.concurrency
  {
    match s.loop {
      case Consuming(_, at) => ConsumingMoves(s);
      case Leaving(_, _, _) => case Recovering => case Finishing =>
    }
  }

  lemma ConsumingMoves(s: State)
    requires LoopOk(s) && RunTagged(s) && s.loop.Consuming?
    ensures LoopNext(s, ExitStep(s)).Some? && LoopRank(LoopNext(s, ExitStep(s)).value) < LoopRank(s)
    ensures LoopNext(s, ExitStep(s)).value.concurrency == s.concurrency
  {
    match s.loop.at {
      case Top => case Gated(_) => case Selecting(_) => case Received(_) => case Accepting(_) => case Rejecting(_) =>
    }
  }

  lemma {:induction false} LoopCanJoin(origin: State, s: State) returns (t: State)
    requires Reachable(s) && Leads(origin, s)
    ensures Reachable(t) && Leads(origin, t) && (t.loop.Joining? || t.loop.Stopped?) && t.concurrency == s.concurrency
    decreases LoopRank(s)
  {
    if s.loop.Joining? || s.loop.Stopped? {
      t := s;
    } else {
      ReachableLoopOk(s);
      ReachableTagged(s);
      LoopMoves(s);
      var step := ByLoop(ExitStep(s));
      var m := Next(s, step).value;
      LeadsFurther(origin, s, step, m);
      ReachableFurther(s, step, m);
      t := LoopCanJoin(origin, m);
    }
  }

  // ---------------------------------------------------------------- the workers can always finish

  function WorkRank(w: Work): nat {
    3 * |w.jobs| + 2 * |w.handling| + |w.settling|
  }

  predicate Idle(w: Work) {
    w.jobs == [] && w.handling == multiset{} && w.settling == multiset{}
  }

  /** The step takes some work off the pile and touches neither the loop nor the configuration. */
  predicate Relieves(s: State, step: Step) {
    && IsWork(step) && WorkNext(s, step).Some? && WorkRank(WorkNext(s, step).value.work) < WorkRank(s.work)
    && WorkNext(s, step).value.loop == s.loop && WorkNext(s, step).value.concurrency == s.concurrency
  }

  lemma CompleteRelieves(s: State, e: Envelope)
    requires e in s.work.settling
    ensures Relieves(s, Complete(e))
  {
  }

  lemma DelegateRelieves(s: State, e: Envelope)
    requires e in s.work.handling
    ensures Relieves(s, Delegate(e))
  {
  }

  lemma TakeRelieves(s: State)
    requires s.work.jobs != [] && |s.work.handling| + |s.work.settling| < s.concurrency
    ensures Relieves(s, TakeJob)
  {
  }

  /** Some worker can take, finish or settle something as long as there is work. */
  lemma WorkMoves(s: State) returns (step: Step)
    requires s.concurrency >= 1 && !Idle(s.work)
    ensures Relieves(s, step)
  {
    if s.work.settling != multiset{} {
      var e :| e in s.work.settling;
      CompleteRelieves(s, e);
      step := Complete(e);
    } else if s.work.handling != multiset{} {
      var e :| e in s.work.handling;
      DelegateRelieves(s, e);
      step := Delegate(e);
    } else {
      TakeRelieves(s);
      step := TakeJob;
    }
  }

  lemma {:induction false} WorkCanFinish(origin: State, s: State) returns (t: State)
    requires Reachable(s) && Leads(origin, s) && s.concurrency >= 1
    ensures Reachable(t) && Leads(origin, t) && t.loop == s.loop && Idle(t.work)
    decreases WorkRank(s.work)
  {
    if Idle(s.work) {
      t := s;
    } else {
      var step := WorkMoves(s);
      var m := Next(s, step).value;
      LeadsFurther(origin, s, step, m);
      ReachableFurther(s, step, m);
      t := WorkCanFinish(origin, m);
    }
  }

  /**
    From every reachable state - paused, draining, recovering, with deliveries in the ring, in jobs and in handlers - a
    consumer with a worker can still reach the point where its Done channel closes: no order of steps is a deadlock.
   */
  lemma StopCanComplete(s: State)
    requires Reachable(s) && s.concurrency >= 1
    ensures exists t :: Leads(s, t) && t.loop.Stopped?
  {
    LeadsNowhere(s);
    var j := LoopCanJoin(s, s);
    if !j.loop.Stopped? {
      var w := WorkCanFinish(s, j);
      var t := Next(w, ByLoop(WorkersDone)).value;
      LeadsFurther(s, w, ByLoop(WorkersDone), t);
    }
  }

  // ---------------------------------------------------------------- a failed drain stays failed

  lemma DrainErrorStep(s: State, step: Step)
    requires Next(s, step).Some? && s.flags.drainErr
    ensures Next(s, step).value.flags.drainErr
  {
    match step {
      case ByLoop(l) => LoopKeepsDrainError(s, l);
      case TakeJob => case Delegate(_) => case Settle(_) => case Complete(_) =>
      case Pause => case Resume => case CloseAdmission => case Stop => case FailDrain =>
      case Deliver(_, _) => case CloseStream(_) =>
    }
  }

  lemma LoopKeepsDrainError(s: State, l: LoopStep)
    requires LoopNext(s, l).Some? && s.flags.drainErr
    ensures LoopNext(s, l).value.flags.drainErr
  {
    match s.loop {
      case Consuming(_, at) =>
        match at {
          case Top => case Received(_) => case Accepting(_) => case Rejecting(_) =>
          case Gated(_) => match l { case AdmitOne => case LeaveGate => case _ => }
          case Selecting(_) =>
            match l {
              case DrainExit => case Receive => case StreamEnd => case Wake => case CancelNotice =>
              case FailureExit => case RecoveryDone => case LifetimeExit => case _ =>
            }
        }
      case Leaving(_, _, _) => case Recovering => case Finishing => case Joining => case Stopped =>
    }
  }

  /** A generation that fails while the consumer is stopping makes the drain report an error in every continuation. */
  lemma {:induction false} DrainFailureIsKept(s: State, steps: seq<Step>)
    requires Next(s, FailDrain).Some? && From(Next(s, FailDrain).value, steps).Some?
    ensures From(Next(s, FailDrain).value, steps).value.flags.drainErr
  {
    var failed := Next(s, FailDrain).value;
    if steps != [] {
      var n := |steps| - 1;
      DrainFailureIsKept(s, steps[..n]);
      DrainErrorStep(From(failed, steps[..n]).value, steps[n]);
    }
  }
}
