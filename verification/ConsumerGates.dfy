/**
  What the caller's operations do to admission (consumer.go:386-410, 744-772, 885-903): from the Pause, Resume and
  Shutdown calls themselves, over every continuation.
 */
module ConsumerGates {
  import opened Basics
  import opened ConsumerProtocol
  import opened ConsumerSafety
  import opened ConsumerTags

  // ---------------------------------------------------------------- Pause and Shutdown close the gate

  /** A Pause that returns nil: until Resume or draining, nothing enters jobs any more. */
  lemma PauseTakesEffect(s: State, steps: seq<Step>)
    requires Reachable(s) && !s.gateHeld && !LifecycleClosed(s)
    requires Next(s, Pause).Some? ==>
      From(Next(s, Pause).value, steps).Some? && StaysPaused(Next(s, Pause).value, steps)
    ensures Next(s, Pause).Some?
    ensures From(Next(s, Pause).value, steps).value.hist.admitted == s.hist.admitted
  {
    ReachableLoopOk(s);
    var paused := Next(s, Pause).value;
    StepKeepsLoopOk(s, Pause);
    PauseStopsAdmission(paused, steps);
  }

  /** A Shutdown call: nothing enters jobs ever again. */
  lemma ShutdownTakesEffect(s: State, steps: seq<Step>)
    requires Reachable(s) && !s.gateHeld
    requires Next(s, CloseAdmission).Some? ==> From(Next(s, CloseAdmission).value, steps).Some?
    ensures Next(s, CloseAdmission).Some?
    ensures From(Next(s, CloseAdmission).value, steps).value.hist.admitted == s.hist.admitted
  {
    ReachableLoopOk(s);
    var closed := Next(s, CloseAdmission).value;
    StepKeepsLoopOk(s, CloseAdmission);
    ShutdownStopsAdmission(closed, steps);
  }

  // ---------------------------------------------------------------- bounded work

  /** No more than `concurrency` handlers run and no more than `prefetch` jobs wait. */
  predicate WorkBounded(s: State) {
    |s.work.handling| + |s.work.settling| <= s.concurrency && |s.work.jobs| <= s.prefetch
  }

  lemma LoopKeepsWork(s: State, l: LoopStep)
    requires WorkBounded(s) && LoopNext(s, l).Some?
    ensures WorkBounded(LoopNext(s, l).value)
  {
    match s.loop {
      case Consuming(_, at) => ConsumingKeepsWork(s, l);
      case Leaving(_, _, _) => case Recovering => case Finishing => case Joining => case Stopped =>
    }
  }

  lemma ConsumingKeepsWork(s: State, l: LoopStep)
    requires WorkBounded(s) && s.loop.Consuming? && LoopNext(s, l).Some?
    ensures WorkBounded(LoopNext(s, l).value)
  {
    match s.loop.at {
      case Selecting(_) => SelectKeepsWork(s, l);
      case Gated(_) => match l { case AdmitOne => case LeaveGate => case _ => }
      case Top => case Received(_) => case Accepting(_) => case Rejecting(_) =>
    }
  }

  lemma SelectKeepsWork(s: State, l: LoopStep)
    requires s.loop.Consuming? && s.loop.at.Selecting? && LoopNext(s, l).Some?
    ensures LoopNext(s, l).value.work == s.work
    ensures LoopNext(s, l).value.prefetch == s.prefetch && LoopNext(s, l).value.concurrency == s.concurrency
  {
    match l {
      case DrainExit => case Receive => case StreamEnd => case Wake => case CancelNotice =>
      case FailureExit => case RecoveryDone => case LifetimeExit => case _ =>
    }
  }

  lemma WorkerKeepsWork(s: State, step: Step)
    requires WorkBounded(s) && WorkNext(s, step).Some?
    ensures WorkBounded(WorkNext(s, step).value)
  {
    match step { case TakeJob => case Delegate(_) => case Settle(_) => case Complete(_) => case _ => }
  }

  lemma StepKeepsWork(s: State, step: Step)
    requires WorkBounded(s) && Next(s, step).Some?
    ensures WorkBounded(Next(s, step).value)
  {
    match step {
      case ByLoop(l) => LoopKeepsWork(s, l);
      case TakeJob => WorkerKeepsWork(s, step);
      case Delegate(_) => WorkerKeepsWork(s, step);
      case Settle(_) => WorkerKeepsWork(s, step);
      case Complete(_) => WorkerKeepsWork(s, step);
      case Pause => case Resume => case CloseAdmission => case Stop => case FailDrain =>
      case Deliver(_, _) => case CloseStream(_) =>
    }
  }

  lemma {:induction false} FromKeepsWork(s: State, steps: seq<Step>)
    requires WorkBounded(s) && From(s, steps).Some?
    ensures WorkBounded(From(s, steps).value)
  {
    if steps != [] {
      var n := |steps| - 1;
      FromKeepsWork(s, steps[..n]);
      StepKeepsWork(From(s, steps[..n]).value, steps[n]);
    }
  }

  /** Over every run at most `concurrency` handlers run at once and at most `prefetch` admitted deliveries wait. */
  lemma ConcurrencyIsBounded(s: State)
    requires Reachable(s)
    ensures |s.work.handling| + |s.work.settling| <= s.concurrency && |s.work.jobs| <= s.prefetch
  {
    var prefetch: nat, concurrency: nat, steps :| From(Init(prefetch, concurrency), steps) == Some(s);
    FromKeepsWork(Init(prefetch, concurrency), steps);
  }

  // ---------------------------------------------------------------- an open gate lets the oldest delivery through

  /** The loop is at the top of its cycle with `head` first in the ring, and nothing was admitted on the way. */
  ghost predicate Ready(s: State, u: State, head: Envelope) {
    && Leads(s, u) && u.loop.Consuming? && u.loop.at.Top? && !u.gateHeld
    && u.loop.run.ring != [] && u.loop.run.ring[0] == head
    && (s.loop.Consuming? && s.loop.run.draining ==> u.loop.run.draining)
    && u.flags == s.flags && u.work == s.work && u.hist.admitted == s.hist.admitted
    && u.prefetch == s.prefetch && u.concurrency == s.concurrency
  }

  lemma AcceptingGetsReady(s: State, mid: State)
    requires Leads(s, mid) && mid.loop.Consuming? && mid.loop.run.ring != [] && !mid.gateHeld && mid.loop.run.gen < |mid.gens|
    requires mid.loop.at.Accepting? || mid.loop.at.Rejecting?
    requires s.loop.Consuming? && s.loop.run == mid.loop.run && mid.flags == s.flags && mid.work == s.work
    requires mid.hist == s.hist && mid.prefetch == s.prefetch && mid.concurrency == s.concurrency
    ensures exists u :: Ready(s, u, mid.loop.run.ring[0])
  {
    var step := if mid.loop.at.Accepting? then ByLoop(Enqueue) else ByLoop(Reject(true));
    var u := Next(mid, step).value;
    LeadsFurther(s, mid, step, u);
    assert Ready(s, u, mid.loop.run.ring[0]);
  }

  /** From wherever it is, the loop can get there. */
  lemma LoopGetsReady(s: State)
    requires s.loop.Consuming? && s.loop.run.ring != [] && !s.gateHeld && !s.loop.at.Gated? && !s.flags.admissionClosed
    requires s.loop.run.gen < |s.gens|
    ensures exists u :: Ready(s, u, s.loop.run.ring[0])
  {
    LeadsNowhere(s);
    match s.loop.at {
      case Top => assert Ready(s, s, s.loop.run.ring[0]);
      case Selecting(_) =>
        var u := Next(s, ByLoop(Wake)).value;
        LeadsFurther(s, s, ByLoop(Wake), u);
        assert Ready(s, u, s.loop.run.ring[0]);
      case Received(_) =>
        var mid := Next(s, ByLoop(Decide)).value;
        LeadsFurther(s, s, ByLoop(Decide), mid);
        AcceptingGetsReady(s, mid);
      case Accepting(_) => AcceptingGetsReady(s, s);
      case Rejecting(_) => AcceptingGetsReady(s, s);
    }
  }

  /** The same with room in the job channel. */
  ghost predicate Roomy(s: State, u: State, head: Envelope) {
    && Leads(s, u) && u.loop.Consuming? && u.loop.at.Top? && !u.gateHeld
    && u.loop.run.ring != [] && u.loop.run.ring[0] == head
    && u.flags == s.flags && (!u.flags.paused || u.loop.run.draining)
    && u.hist.admitted == s.hist.admitted && |u.work.jobs| < u.prefetch
  }

  lemma IdleWorkerTakesJob(s: State, u: State, head: Envelope)
    requires Leads(s, u) && u.loop.Consuming? && u.loop.at.Top? && !u.gateHeld
    requires u.loop.run.ring != [] && u.loop.run.ring[0] == head && u.flags == s.flags
    requires !u.flags.paused || u.loop.run.draining
    requires u.hist.admitted == s.hist.admitted && 0 < |u.work.jobs| <= u.prefetch
    requires |u.work.handling| + |u.work.settling| < u.concurrency
    ensures exists v :: Roomy(s, v, head)
  {
    var v := Next(u, TakeJob).value;
    LeadsFurther(s, u, TakeJob, v);
    assert Roomy(s, v, head);
  }

  /** A full job channel can be relieved: a worker finishes if it must, and takes a job. */
  lemma WorkersMakeRoom(s: State, u: State, head: Envelope)
    requires Ready(s, u, head) && WorkBounded(u) && 1 <= u.prefetch && 1 <= u.concurrency
    requires !u.flags.paused || u.loop.run.draining
    ensures exists v :: Roomy(s, v, head)
  {
    if |u.work.jobs| < u.prefetch {
      assert Roomy(s, u, head);
    } else if |u.work.handling| + |u.work.settling| < u.concurrency {
      IdleWorkerTakesJob(s, u, head);
    } else if u.work.settling != multiset{} {
      var e :| e in u.work.settling;
      var v := Next(u, Complete(e)).value;
      LeadsFurther(s, u, Complete(e), v);
      IdleWorkerTakesJob(s, v, head);
    } else {
      var e :| e in u.work.handling;
      var v := Next(u, Delegate(e)).value;
      LeadsFurther(s, u, Delegate(e), v);
      IdleWorkerTakesJob(s, v, head);
    }
  }

  lemma RoomAdmits(s: State, u: State, head: Envelope)
    requires Roomy(s, u, head) && !u.flags.admissionClosed
    ensures exists t :: Leads(s, t) && t.hist.admitted == s.hist.admitted + [head]
  {
    var gated := Next(u, ByLoop(EnterGate)).value;
    LeadsFurther(s, u, ByLoop(EnterGate), gated);
    var t := Next(gated, ByLoop(AdmitOne)).value;
    LeadsFurther(s, gated, ByLoop(AdmitOne), t);
  }

  /** With the gate open, or while draining whatever the pause gate says, the oldest pending delivery can be admitted. */
  lemma OpenGateAdmits(s: State)
    requires Reachable(s) && s.loop.Consuming? && s.loop.run.ring != [] && !s.gateHeld
    requires !s.flags.admissionClosed && (!s.flags.paused || s.loop.run.draining)
    requires 1 <= s.prefetch && 1 <= s.concurrency
    ensures exists t :: Leads(s, t) && t.hist.admitted == s.hist.admitted + [s.loop.run.ring[0]]
  {
    ReachableLoopOk(s);
    ReachableTagged(s);
    ConcurrencyIsBounded(s);
    LoopGetsReady(s);
    var head := s.loop.run.ring[0];
    var u :| Ready(s, u, head);
    WorkersMakeRoom(s, u, head);
    var v :| Roomy(s, v, head);
    RoomAdmits(s, v, head);
  }

  /** Resume opens the pause gate again: the oldest pending delivery can be admitted. */
  lemma ResumeTakesEffect(s: State)
    requires Reachable(s) && s.loop.Consuming? && s.loop.run.ring != [] && !s.gateHeld
    requires !LifecycleClosed(s) && !s.flags.admissionClosed && 1 <= s.prefetch && 1 <= s.concurrency
    ensures Next(s, Resume).Some?
    ensures exists t :: Leads(Next(s, Resume).value, t) &&
                        t.hist.admitted == s.hist.admitted + [s.loop.run.ring[0]]
  {
    var resumed := Next(s, Resume).value;
    ReachableFurther(s, Resume, resumed);
    OpenGateAdmits(resumed);
  }

  // ---------------------------------------------------------------- no read-ahead

  /** Without a pause, a delivery is read only when none waits for admission. */
  predicate Unpaused(s: State) {
    && !s.flags.paused
    && match s.loop
       case Consuming(run, at) =>
         && |run.ring| <= 1 && (InHand(at) ==> run.ring == [])
         && (at.Gated? || at.Selecting? ==> !at.paused)
       case Leaving(run, _, _) => |run.ring| <= 1
       case _ => true
  }

  lemma LoopKeepsUnpaused(s: State, l: LoopStep)
    requires Unpaused(s) && LoopNext(s, l).Some?
    ensures Unpaused(LoopNext(s, l).value)
  {
    match s.loop {
      case Consuming(_, at) =>
        match at {
          case Selecting(_) => SelectKeepsUnpaused(s, l);
          case Gated(_) => match l { case AdmitOne => case LeaveGate => case _ => }
          case Top => case Received(_) => case Accepting(_) => case Rejecting(_) =>
        }
      case Leaving(_, _, _) => case Recovering => case Finishing => case Joining => case Stopped =>
    }
  }

  lemma SelectKeepsUnpaused(s: State, l: LoopStep)
    requires Unpaused(s) && s.loop.Consuming? && s.loop.at.Selecting? && LoopNext(s, l).Some?
    ensures Unpaused(LoopNext(s, l).value)
  {
    match l {
      case DrainExit => case Receive => case StreamEnd => case Wake => case CancelNotice =>
      case FailureExit => case RecoveryDone => case LifetimeExit => case _ =>
    }
  }

  lemma StepKeepsUnpaused(s: State, step: Step)
    requires Unpaused(s) && step != Pause && Next(s, step).Some?
    ensures Unpaused(Next(s, step).value)
  {
    match step {
      case ByLoop(l) => LoopKeepsUnpaused(s, l);
      case TakeJob => case Delegate(_) => case Settle(_) => case Complete(_) =>
      case Pause => case Resume => case CloseAdmission => case Stop => case FailDrain =>
      case Deliver(_, _) => case CloseStream(_) =>
    }
  }

  /** Over every run without a pause at most one delivery waits in the ring. */
  lemma {:induction false} NoReadAhead(prefetch: nat, concurrency: nat, steps: seq<Step>)
    requires From(Init(prefetch, concurrency), steps).Some? && Pause !in steps
    ensures Unpaused(From(Init(prefetch, concurrency), steps).value)
  {
    if steps != [] {
      var n := |steps| - 1;
      NoReadAhead(prefetch, concurrency, steps[..n]);
      assert steps[n] in steps;
      StepKeepsUnpaused(From(Init(prefetch, concurrency), steps[..n]).value, steps[n]);
    }
  }

  // ---------------------------------------------------------------- how the loop leaves a generation

  /** The steps at which consumption of a generation ends for good, and those after which it is replaced. */
  predicate EndsConsumption(s: State, l: LoopStep) {
    l.LifetimeExit? || l.DrainExit? || (l.RecoveryDone? && !s.flags.stopping)
  }

  predicate LosesGeneration(s: State, l: LoopStep) {
    l.FailureExit? || ((l.StreamEnd? || l.CancelNotice?) && !s.flags.stopping) || (l.Reject? && !l.sent)
  }

  /**
    A consumer recovers exactly when its generation fails, a rejection cannot be sent, or it loses its stream or its
    broker-side consumer while not stopping; one that is stopping drains instead; and consumption ends for good exactly
    at the end of the lifetime, at a recovery stop or at a completed drain.
   */
  lemma LossMeansRecovery(s: State, l: LoopStep)
    requires s.loop.Consuming? && LoopNext(s, l).Some?
    ensures LoopNext(s, l).value.loop.Leaving? && LoopNext(s, l).value.loop.recover <==> LosesGeneration(s, l)
    ensures LoopNext(s, l).value.loop.Leaving? && !LoopNext(s, l).value.loop.recover <==> EndsConsumption(s, l)
    ensures LoopNext(s, l).value.loop.Leaving? || LoopNext(s, l).value.loop.Consuming?
    ensures (l.StreamEnd? || l.CancelNotice? || l.RecoveryDone?) && s.flags.stopping ==>
      LoopNext(s, l).value.loop.Consuming? && LoopNext(s, l).value.loop.run.draining
    ensures l.DrainExit? ==> s.loop.run.draining && s.loop.run.ended && s.loop.run.ring == []
  {
    match s.loop.at {
      case Selecting(_) => SelectingLoses(s, l);
      case Gated(_) => match l { case AdmitOne => case LeaveGate => case _ => }
      case Top => case Received(_) => case Accepting(_) => case Rejecting(_) =>
    }
  }

  lemma SelectingLoses(s: State, l: LoopStep)
    requires s.loop.Consuming? && s.loop.at.Selecting? && LoopNext(s, l).Some?
    ensures LoopNext(s, l).value.loop.Leaving? && LoopNext(s, l).value.loop.recover <==> LosesGeneration(s, l)
    ensures LoopNext(s, l).value.loop.Leaving? && !LoopNext(s, l).value.loop.recover <==> EndsConsumption(s, l)
    ensures LoopNext(s, l).value.loop.Leaving? || LoopNext(s, l).value.loop.Consuming?
    ensures (l.StreamEnd? || l.CancelNotice? || l.RecoveryDone?) && s.flags.stopping ==>
      LoopNext(s, l).value.loop.Consuming? && LoopNext(s, l).value.loop.run.draining
    ensures l.DrainExit? ==> s.loop.run.draining && s.loop.run.ended && s.loop.run.ring == []
  {
    match l {
      case DrainExit => case Receive => case StreamEnd => case Wake => case CancelNotice =>
      case FailureExit => case RecoveryDone => case LifetimeExit => case _ =>
    }
  }

  /** After that, the loop recovers exactly if it has to, and recovery gives up or is stopped rather than lost. */
  lemma LeavingDecides(s: State, l: LoopStep)
    requires LoopNext(s, l).Some?
    ensures s.loop.Leaving? ==>
      if s.loop.recover then LoopNext(s, l).value.loop.Recovering? else LoopNext(s, l).value.loop.Finishing?
    ensures s.loop.Recovering? && l.Install? && !s.flags.stopping ==>
      && LoopNext(s, l).value.loop.Consuming? && LoopNext(s, l).value.loop.run.gen == |s.gens|
      && |LoopNext(s, l).value.gens| == |s.gens| + 1
    ensures s.loop.Recovering? && LoopNext(s, l).value.loop.Finishing? ==>
      s.flags.stopping || LoopNext(s, l).value.flags.terminal
  {
    match s.loop {
      case Consuming(_, _) => case Leaving(_, _, _) => case Recovering => case Finishing => case Joining => case Stopped =>
    }
  }
}
