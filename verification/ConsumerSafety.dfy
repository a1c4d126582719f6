/**
  Safety of the consumer over every run: where each delivery is, how often it is settled, what the gates let
  through, and what a completed drain and a closed Done channel mean.
 */
module ConsumerSafety {
  import opened Basics
  import opened ConsumerProtocol

  function RingOf(s: State): seq<Envelope> {
    if s.loop.Consuming? || s.loop.Leaving? then s.loop.run.ring else []
  }

  // ---------------------------------------------------------------- conservation of envelopes

  /** How many copies of `e` are in each place a read delivery can be. */
  function Places(s: State, e: Envelope): nat {
    multiset(RingOf(s))[e] + multiset(s.work.jobs)[e] + s.work.handling[e] + s.work.settling[e] +
    s.work.finished[e] + s.hist.dropped[e]
  }

  /** Copies of `e` are neither lost nor duplicated, and what workers did to them is accounted for. */
  predicate ConservedAt(s: State, e: Envelope) {
    var w := s.work;
    && s.hist.read[e] == Places(s, e)
    && multiset(s.hist.admitted)[e] == multiset(w.jobs)[e] + w.handling[e] + w.settling[e] + w.finished[e]
    && s.hist.settled[e] + s.hist.delegated[e] == w.settling[e] + w.finished[e]
    && s.hist.completed[e] == w.finished[e]
  }

  ghost predicate Conserved(s: State) {
    forall e :: ConservedAt(s, e)
  }

  /** Jobs are closed only once the loop is past admission, and Done only once the workers are idle. */
  predicate Joined(s: State) {
    && (s.work.jobsClosed <==> s.loop.Joining? || s.loop.Stopped?)
    && (s.loop.Stopped? ==> s.work.jobs == [] && s.work.handling == multiset{} && s.work.settling == multiset{})
  }

  lemma HeadAndTail<T>(q: seq<T>, e: T)
    requires q != []
    ensures multiset(q)[e] == multiset(q[1..])[e] + if q[0] == e then 1 else 0
  {
    assert q == [q[0]] + q[1..];
  }

  lemma Appended<T>(q: seq<T>, x: T, e: T)
    ensures multiset(q + [x])[e] == multiset(q)[e] + if x == e then 1 else 0
  {
  }

  lemma EnterConserves(s: State, e: Envelope)
    requires ConservedAt(s, e) && s.loop.Consuming? && s.loop.at.Top? && LoopNext(s, EnterGate).Some?
    ensures ConservedAt(LoopNext(s, EnterGate).value, e)
  {
    if s.flags.admissionClosed { } else { }
  }

  lemma AdmitConserves(s: State, e: Envelope)
    requires ConservedAt(s, e) && s.loop.Consuming? && s.loop.at.Gated? && LoopNext(s, AdmitOne).Some?
    ensures ConservedAt(LoopNext(s, AdmitOne).value, e)
  {
    var ring := s.loop.run.ring;
    HeadAndTail(ring, e);
    Appended(s.work.jobs, ring[0], e);
    Appended(s.hist.admitted, ring[0], e);
  }

  lemma GateConserves(s: State, l: LoopStep, e: Envelope)
    requires ConservedAt(s, e) && s.loop.Consuming? && (s.loop.at.Top? || s.loop.at.Gated?) && LoopNext(s, l).Some?
    ensures ConservedAt(LoopNext(s, l).value, e)
  {
    match l {
      case EnterGate => EnterConserves(s, e);
      case AdmitOne => AdmitConserves(s, e);
      case LeaveGate =>
      case _ =>
    }
  }

  /** The step moves no envelope. */
  predicate SameStock(s: State, s': State) {
    RingOf(s') == RingOf(s) && s'.work == s.work && s'.hist == s.hist
  }

  lemma SelectMovesNothing(s: State, l: LoopStep)
    requires s.loop.Consuming? && s.loop.at.Selecting? && LoopNext(s, l).Some?
    ensures SameStock(s, LoopNext(s, l).value)
  {
    match l {
      case DrainExit => case Receive => case StreamEnd => case Wake => case CancelNotice =>
      case FailureExit => case RecoveryDone => case LifetimeExit => case _ =>
    }
  }

  lemma DecisionMovesNothing(s: State, l: LoopStep)
    requires s.loop.Consuming? && (s.loop.at.Received? || s.loop.at.Rejecting?) && LoopNext(s, l).Some?
    ensures SameStock(s, LoopNext(s, l).value)
  {
    match s.loop.at { case Received(_) => case Rejecting(_) => case _ => }
  }

  lemma EnqueueConserves(s: State, e: Envelope)
    requires ConservedAt(s, e) && s.loop.Consuming? && s.loop.at.Accepting? && LoopNext(s, Enqueue).Some?
    ensures ConservedAt(LoopNext(s, Enqueue).value, e)
  {
    var run := s.loop.run;
    Appended(run.ring, Envelope(run.gen, s.loop.at.incoming.tag), e);
  }

  lemma IntakeConserves(s: State, l: LoopStep, e: Envelope)
    requires ConservedAt(s, e) && s.loop.Consuming? && !s.loop.at.Top? && !s.loop.at.Gated? && LoopNext(s, l).Some?
    ensures ConservedAt(LoopNext(s, l).value, e)
  {
    match s.loop.at {
      case Selecting(_) => SelectMovesNothing(s, l);
      case Received(_) => DecisionMovesNothing(s, l);
      case Accepting(_) => EnqueueConserves(s, e);
      case Rejecting(_) => DecisionMovesNothing(s, l);
      case _ =>
    }
  }

  lemma LoopConserves(s: State, l: LoopStep, e: Envelope)
    requires ConservedAt(s, e) && LoopNext(s, l).Some?
    ensures ConservedAt(LoopNext(s, l).value, e)
  {
    match s.loop {
      case Consuming(_, at) =>
        if at.Top? || at.Gated? {
          GateConserves(s, l, e);
        } else {
          IntakeConserves(s, l, e);
        }
      case _ => ExitConserves(s, l, e);
    }
  }

  lemma LeavingConserves(s: State, l: LoopStep, e: Envelope)
    requires ConservedAt(s, e) && s.loop.Leaving? && LoopNext(s, l).Some?
    ensures ConservedAt(LoopNext(s, l).value, e)
  {
  }

  lemma ExitConserves(s: State, l: LoopStep, e: Envelope)
    requires ConservedAt(s, e) && !s.loop.Consuming? && LoopNext(s, l).Some?
    ensures ConservedAt(LoopNext(s, l).value, e)
  {
    match s.loop {
      case Leaving(_, _, _) => LeavingConserves(s, l, e);
      case Recovering => case Finishing => case Joining => case Stopped =>
    }
  }

  lemma TakeJobConserves(s: State, e: Envelope)
    requires ConservedAt(s, e) && WorkNext(s, TakeJob).Some?
    ensures ConservedAt(WorkNext(s, TakeJob).value, e)
  {
    HeadAndTail(s.work.jobs, e);
  }

  lemma SettleConserves(s: State, x: Envelope, e: Envelope)
    requires ConservedAt(s, e) && WorkNext(s, Settle(x)).Some?
    ensures ConservedAt(WorkNext(s, Settle(x)).value, e)
  {
  }

  lemma DelegateConserves(s: State, x: Envelope, e: Envelope)
    requires ConservedAt(s, e) && WorkNext(s, Delegate(x)).Some?
    ensures ConservedAt(WorkNext(s, Delegate(x)).value, e)
  {
  }

  lemma CompleteConserves(s: State, x: Envelope, e: Envelope)
    requires ConservedAt(s, e) && WorkNext(s, Complete(x)).Some?
    ensures ConservedAt(WorkNext(s, Complete(x)).value, e)
  {
  }

  lemma WorkConserves(s: State, step: Step, e: Envelope)
    requires ConservedAt(s, e) && WorkNext(s, step).Some?
    ensures ConservedAt(WorkNext(s, step).value, e)
  {
    match step {
      case TakeJob => TakeJobConserves(s, e);
      case Settle(x) => SettleConserves(s, x, e);
      case Delegate(x) => DelegateConserves(s, x, e);
      case Complete(x) => CompleteConserves(s, x, e);
      case _ =>
    }
  }

  lemma OutsideConserves(s: State, step: Step, e: Envelope)
    requires ConservedAt(s, e) && !step.ByLoop? && !IsWork(step) && Next(s, step).Some?
    ensures ConservedAt(Next(s, step).value, e)
  {
    match step {
      case Pause => case Resume => case CloseAdmission => case Stop => case FailDrain =>
      case Deliver(_, _) => case CloseStream(_) => case _ =>
    }
  }

  lemma StepConserves(s: State, step: Step)
    requires Conserved(s) && Next(s, step).Some?
    ensures Conserved(Next(s, step).value)
  {
    forall e ensures ConservedAt(Next(s, step).value, e) {
      if step.ByLoop? {
        LoopConserves(s, step.l, e);
      } else if IsWork(step) {
        WorkConserves(s, step, e);
      } else {
        OutsideConserves(s, step, e);
      }
    }
  }

  lemma StepJoins(s: State, step: Step)
    requires Joined(s) && Next(s, step).Some?
    ensures Joined(Next(s, step).value)
  {
    if step.ByLoop? {
      LoopJoins(s, step.l);
    } else {
      match step {
        case TakeJob => case Delegate(_) => case Settle(_) => case Complete(_) =>
        case Pause => case Resume => case CloseAdmission => case Stop => case FailDrain =>
        case Deliver(_, _) => case CloseStream(_) => case _ =>
      }
    }
  }

  lemma ConsumingJoins(s: State, l: LoopStep)
    requires s.loop.Consuming? && LoopNext(s, l).Some?
    ensures LoopNext(s, l).value.work.jobsClosed == s.work.jobsClosed
    ensures LoopNext(s, l).value.loop.Consuming? || LoopNext(s, l).value.loop.Leaving?
  {
    match s.loop.at {
      case Selecting(paused) => SelectMovesNothing(s, l); SelectStays(s, l);
      case Top => case Gated(_) => case Received(_) => case Accepting(_) => case Rejecting(_) =>
    }
  }

  lemma SelectStays(s: State, l: LoopStep)
    requires s.loop.Consuming? && s.loop.at.Selecting? && LoopNext(s, l).Some?
    ensures LoopNext(s, l).value.loop.Consuming? || LoopNext(s, l).value.loop.Leaving?
  {
    match l {
      case DrainExit => case Receive => case StreamEnd => case Wake => case CancelNotice =>
      case FailureExit => case RecoveryDone => case LifetimeExit => case _ =>
    }
  }

  lemma LoopJoins(s: State, l: LoopStep)
    requires Joined(s) && LoopNext(s, l).Some?
    ensures Joined(LoopNext(s, l).value)
  {
    match s.loop {
      case Consuming(_, _) => ConsumingJoins(s, l);
      case Leaving(_, _, _) => case Recovering => case Finishing => case Joining => case Stopped =>
    }
  }

  lemma {:induction false} FromConserves(s: State, steps: seq<Step>)
    requires Conserved(s) && Joined(s) && From(s, steps).Some?
    ensures Conserved(From(s, steps).value) && Joined(From(s, steps).value)
  {
    if steps != [] {
      var n := |steps| - 1;
      FromConserves(s, steps[..n]);
      StepConserves(From(s, steps[..n]).value, steps[n]);
      StepJoins(From(s, steps[..n]).value, steps[n]);
    }
  }

  lemma ReachableConserves(s: State)
    requires Reachable(s)
    ensures Conserved(s) && Joined(s)
  {
    var prefetch: nat, concurrency: nat, steps :| From(Init(prefetch, concurrency), steps) == Some(s);
    FromConserves(Init(prefetch, concurrency), steps);
  }

  // ---------------------------------------------------------------- the ring is a bounded queue behind two gates

  /** The delivery in hand fits: the ring was not full when it was taken, and nothing was added since. */
  predicate InHand(at: Point) {
    at.Received? || at.Accepting? || at.Rejecting?
  }

  /** Admission follows arrival; only shutdown discards, and it says so. */
  predicate RunOk(s: State, run: Run) {
    && run.arrived == run.admitted + run.discarded + run.ring
    && |run.ring| <= Capacity(s)
    && (run.discarded != [] ==> s.flags.admissionClosed && s.flags.drainErr && run.ring == [])
  }

  predicate LoopOk(s: State) {
    match s.loop
    case Consuming(run, at) =>
      && RunOk(s, run)
      && (InHand(at) ==> |run.ring| < Capacity(s))
      && (at.Accepting? ==> run.discarded == [])
      && (s.gateHeld <==> at.Gated?)
      && (at.Gated? && run.ring != [] && !at.paused ==> !s.flags.admissionClosed && (!s.flags.paused || run.draining))
    case Leaving(run, recover, drained) =>
      && RunOk(s, run) && !s.gateHeld
      && (drained ==> run.draining && run.ended && run.ring == [])
    case _ => !s.gateHeld
  }

  lemma GateKeepsLoopOk(s: State, l: LoopStep)
    requires LoopOk(s) && s.loop.Consuming? && (s.loop.at.Top? || s.loop.at.Gated?) && LoopNext(s, l).Some?
    ensures LoopOk(LoopNext(s, l).value)
  {
    var run := s.loop.run;
    match l {
      case EnterGate =>
        if s.flags.admissionClosed {
          assert run.arrived == run.admitted + (run.discarded + run.ring) + [];
        } else {
        }
      case AdmitOne =>
        assert run.discarded == [];
        assert run.arrived == (run.admitted + [run.ring[0]]) + run.discarded + run.ring[1..];
      case LeaveGate =>
      case _ =>
    }
  }

  lemma IntakeKeepsLoopOk(s: State, l: LoopStep)
    requires LoopOk(s) && s.loop.Consuming? && !s.loop.at.Top? && !s.loop.at.Gated? && LoopNext(s, l).Some?
    ensures LoopOk(LoopNext(s, l).value)
  {
    var run := s.loop.run;
    match s.loop.at {
      case Selecting(_) =>
        match l {
          case DrainExit => case Receive => case StreamEnd => case Wake => case CancelNotice =>
          case FailureExit => case RecoveryDone => case LifetimeExit => case _ =>
        }
      case Received(_) =>
      case Accepting(incoming) =>
        var e := Envelope(run.gen, incoming.tag);
        assert run.arrived + [e] == run.admitted + run.discarded + (run.ring + [e]);
      case Rejecting(_) =>
      case _ =>
    }
  }

  lemma StepKeepsLoopOk(s: State, step: Step)
    requires LoopOk(s) && Next(s, step).Some?
    ensures LoopOk(Next(s, step).value)
  {
    if step.ByLoop? {
      match s.loop {
        case Consuming(_, at) =>
          if at.Top? || at.Gated? {
            GateKeepsLoopOk(s, step.l);
          } else {
            IntakeKeepsLoopOk(s, step.l);
          }
        case Leaving(_, _, _) => case Recovering => case Finishing => case Joining => case Stopped =>
      }
    } else {
      match step {
        case TakeJob => case Delegate(_) => case Settle(_) => case Complete(_) =>
        case Pause => case Resume => case CloseAdmission => case Stop => case FailDrain =>
        case Deliver(_, _) => case CloseStream(_) => case _ =>
      }
    }
  }

  lemma {:induction false} FromKeepsLoopOk(s: State, steps: seq<Step>)
    requires LoopOk(s) && From(s, steps).Some?
    ensures LoopOk(From(s, steps).value)
  {
    if steps != [] {
      var n := |steps| - 1;
      FromKeepsLoopOk(s, steps[..n]);
      StepKeepsLoopOk(From(s, steps[..n]).value, steps[n]);
    }
  }

  lemma ReachableLoopOk(s: State)
    requires Reachable(s)
    ensures LoopOk(s)
  {
    var prefetch: nat, concurrency: nat, steps :| From(Init(prefetch, concurrency), steps) == Some(s);
    FromKeepsLoopOk(Init(prefetch, concurrency), steps);
  }

  // ---------------------------------------------------------------- what the gates promise

  /** A step puts at most one envelope into jobs, and only through open gates. */
  lemma AdmissionNeedsOpenGates(s: State, step: Step)
    requires LoopOk(s) && Next(s, step).Some?
    requires Next(s, step).value.hist.admitted != s.hist.admitted
    ensures step == ByLoop(AdmitOne) && s.loop.Consuming?
    ensures !s.flags.admissionClosed && (!s.flags.paused || s.loop.run.draining)
  {
    if step.ByLoop? {
      match s.loop {
        case Consuming(_, at) =>
          match at {
            case Selecting(_) => SelectMovesNothing(s, step.l);
            case Received(_) => DecisionMovesNothing(s, step.l);
            case Rejecting(_) => DecisionMovesNothing(s, step.l);
            case Top => case Gated(_) => case Accepting(_) =>
          }
        case Leaving(_, _, _) => case Recovering => case Finishing => case Joining => case Stopped =>
      }
    } else {
      match step {
        case TakeJob => case Delegate(_) => case Settle(_) => case Complete(_) =>
        case Pause => case Resume => case CloseAdmission => case Stop => case FailDrain =>
        case Deliver(_, _) => case CloseStream(_) => case _ =>
      }
    }
  }

  /** Only the callers change the pause and shutdown gates. */
  lemma GateFlags(s: State, step: Step)
    requires Next(s, step).Some?
    ensures !step.Pause? && !step.Resume? ==> Next(s, step).value.flags.paused == s.flags.paused
    ensures step.Pause? && s.flags.paused ==> Next(s, step).value.flags.paused
    ensures s.flags.admissionClosed ==> Next(s, step).value.flags.admissionClosed
  {
    if step.ByLoop? {
      match s.loop {
        case Consuming(run, at) =>
          match at {
            case Selecting(_) =>
              match step.l {
                case DrainExit => case Receive => case StreamEnd => case Wake => case CancelNotice =>
                case FailureExit => case RecoveryDone => case LifetimeExit => case _ =>
              }
            case Received(_) => case Rejecting(_) => case Top => case Gated(_) => case Accepting(_) =>
          }
        case Leaving(_, _, _) => case Recovering => case Finishing => case Joining => case Stopped =>
      }
    } else {
      match step {
        case TakeJob => case Delegate(_) => case Settle(_) => case Complete(_) =>
        case Pause => case Resume => case CloseAdmission => case Stop => case FailDrain =>
        case Deliver(_, _) => case CloseStream(_) => case _ =>
      }
    }
  }

  /** After shutdown closed admission, nothing ever enters jobs again, however the run goes on. */
  lemma {:induction false} ShutdownStopsAdmission(s: State, steps: seq<Step>)
    requires LoopOk(s) && s.flags.admissionClosed && From(s, steps).Some?
    ensures From(s, steps).value.flags.admissionClosed
    ensures From(s, steps).value.hist.admitted == s.hist.admitted
  {
    if steps != [] {
      var n := |steps| - 1;
      ShutdownStopsAdmission(s, steps[..n]);
      FromKeepsLoopOk(s, steps[..n]);
      var before := From(s, steps[..n]).value;
      GateFlags(before, steps[n]);
      if Next(before, steps[n]).value.hist.admitted != before.hist.admitted {
        AdmissionNeedsOpenGates(before, steps[n]);
      }
    }
  }

  predicate IsDraining(s: State) {
    s.loop.Consuming? && s.loop.run.draining
  }

  lemma PausedStep(s: State, step: Step)
    requires LoopOk(s) && s.flags.paused && !IsDraining(s) && step != Resume && Next(s, step).Some?
    ensures Next(s, step).value.flags.paused && Next(s, step).value.hist.admitted == s.hist.admitted
  {
    GateFlags(s, step);
    if Next(s, step).value.hist.admitted != s.hist.admitted {
      AdmissionNeedsOpenGates(s, step);
    }
  }

  /** No step of the run is Resume, and none is taken while the loop drains. */
  predicate StaysPaused(s: State, steps: seq<Step>) {
    steps == [] ||
    var n := |steps| - 1;
    StaysPaused(s, steps[..n]) && steps[n] != Resume &&
    From(s, steps[..n]).Some? && !IsDraining(From(s, steps[..n]).value)
  }

  /** After Pause, nothing enters jobs until Resume is called or the loop starts draining. */
  lemma {:induction false} PauseStopsAdmission(s: State, steps: seq<Step>)
    requires LoopOk(s) && s.flags.paused && From(s, steps).Some? && StaysPaused(s, steps)
    ensures From(s, steps).value.flags.paused
    ensures From(s, steps).value.hist.admitted == s.hist.admitted
  {
    if steps != [] {
      var n := |steps| - 1;
      PauseStopsAdmission(s, steps[..n]);
      FromKeepsLoopOk(s, steps[..n]);
      PausedStep(From(s, steps[..n]).value, steps[n]);
    }
  }

  // ---------------------------------------------------------------- drain and Done

  /** At the drain-complete exit without a drain error, everything that arrived in the ring was admitted, in order. */
  lemma DrainedRingIsAdmitted(s: State)
    requires LoopOk(s) && s.loop.Leaving? && s.loop.drained && !s.flags.drainErr
    ensures s.loop.run.admitted == s.loop.run.arrived
  {
    var run := s.loop.run;
    assert run.arrived == run.admitted + [] + [];
  }

  /** Within one generation admission order is arrival order, whatever has been discarded or is still waiting. */
  lemma AdmissionFollowsArrival(s: State)
    requires Reachable(s) && (s.loop.Consuming? || s.loop.Leaving?)
    ensures s.loop.run.admitted <= s.loop.run.arrived
    ensures |s.loop.run.ring| <= s.prefetch + 1
  {
    ReachableLoopOk(s);
  }

  /** When Done closes, everything ever admitted has been handled once and its settlement result completed once. */
  lemma DoneMeansAllHandled(s: State, e: Envelope)
    requires Reachable(s) && s.loop.Stopped?
    ensures s.work.finished[e] == multiset(s.hist.admitted)[e]
    ensures s.hist.completed[e] == multiset(s.hist.admitted)[e]
    ensures s.hist.settled[e] + s.hist.delegated[e] == multiset(s.hist.admitted)[e]
  {
    ReachableConserves(s);
    assert ConservedAt(s, e);
  }
}
