/**
  What a call does after its send (producer.go:395-449): from the send's own result, over every continuation. A failed
  or timed-out send seals its generation and ends ambiguous, a preflight cancellation ends not sent, and a call whose
  frame was accepted reports the broker's verdict.
 */
module ProducerSends {
  import opened Basics
  import opened TrackerSpec
  import Text
  import opened ProducerProtocol
  import opened ProducerStructure
  import opened ProducerFrames
  import opened ProducerGate
  import opened ProducerOutcomes
  import opened ProducerLate

  // ---------------------------------------------------------------- the way of a call after its send

  predicate Failing(kind: SendKind) {
    kind.SendFailed? || kind.TimedOut?
  }

  predicate StageFits(kind: SendKind, stage: LooseStage) {
    match kind
    case Sent => stage.Waiting? || stage.Cancelling? || stage.GivingUp? || stage.Receiving?
    case Preflight => stage.Dropping?
    case _ => stage.Erring? || stage.Receiving?
  }

  /** Only a preflight cancellation counts as not sent. */
  predicate Reports(kind: SendKind, g: GenId, r: PublishResult, on: Option<GenId>) {
    if kind.Preflight? then on.None? && r == PublishResult(NotSent, None) else on == Some(g)
  }

  /** Where a call can be after its send on `g` ended with `kind`. */
  predicate OnPath(kind: SendKind, g: GenId, phase: Phase) {
    match phase
    case Held(h, stage) =>
      h == g &&
      (match stage
       case Marking(k) => k == kind && Failing(kind)
       case Signalling(k) => k == kind && Failing(kind)
       case Unlocking(k) => k == kind
       case _ => false)
    case Loose(h, stage) => h == g && StageFits(kind, stage)
    case Finished(r, on) => Reports(kind, g, r, on)
    case Released(r, on) => Reports(kind, g, r, on)
    case _ => false
  }

  lemma SendStartsPath(s: State, p: CallId, kind: SendKind)
    requires CallNext(s, p, SendEnds(kind)).Some?
    ensures p in s.calls && s.calls[p].Held? && p in CallNext(s, p, SendEnds(kind)).value.calls
    ensures OnPath(kind, s.calls[p].gen, CallNext(s, p, SendEnds(kind)).value.calls[p])
    ensures Failing(kind) ==> CallNext(s, p, SendEnds(kind)).value.calls[p] == Held(s.calls[p].gen, Marking(kind))
    ensures CallNext(s, p, SendEnds(kind)).value == s.(calls := CallNext(s, p, SendEnds(kind)).value.calls)
  {
    match s.calls[p] { case Held(_, _) => case _ => }
  }

  lemma HeldKeepsPath(s: State, p: CallId, g: GenId, stage: HeldStage, c: CallStep, kind: SendKind)
    requires g < |s.gens| && p in s.gens[g].attempts && HeldNext(s, p, g, stage, c).Some?
    requires OnPath(kind, g, Held(g, stage))
    ensures p in HeldNext(s, p, g, stage, c).value.calls
    ensures OnPath(kind, g, HeldNext(s, p, g, stage, c).value.calls[p])
  {
    match c { case Mark => case Signal => case Unlock => case _ => }
  }

  lemma AbandonedKeepsPath(s: State, p: CallId, g: GenId, kind: SendKind)
    requires g < |s.gens| && p in s.gens[g].attempts && !kind.Preflight?
    ensures p in Abandoned(s, p, g).calls && OnPath(kind, g, Abandoned(s, p, g).calls[p])
  {
    if LiveSequence(s.gens[g], s.gens[g].attempts[p].sequence) { } else { }
  }

  lemma LooseKeepsPath(s: State, p: CallId, g: GenId, stage: LooseStage, c: CallStep, kind: SendKind)
    requires g < |s.gens| && p in s.gens[g].attempts && LooseNext(s, p, g, stage, c).Some? && StageFits(kind, stage)
    ensures p in LooseNext(s, p, g, stage, c).value.calls
    ensures OnPath(kind, g, LooseNext(s, p, g, stage, c).value.calls[p])
  {
    match c {
      case FailAttempt => AbandonedKeepsPath(s, p, g, kind);
      case GiveUp => AbandonedKeepsPath(s, p, g, kind);
      case DropPreflight => case ContextDone => case Recheck => case Receive => case _ =>
    }
  }

  lemma CallKeepsPath(s: State, p: CallId, c: CallStep, kind: SendKind, g: GenId)
    requires p in s.calls && OnPath(kind, g, s.calls[p]) && CallNext(s, p, c).Some?
    ensures p in CallNext(s, p, c).value.calls && OnPath(kind, g, CallNext(s, p, c).value.calls[p])
  {
    match s.calls[p] {
      case Held(h, stage) => HeldKeepsPath(s, p, h, stage, c, kind);
      case Loose(h, stage) => LooseKeepsPath(s, p, h, stage, c, kind);
      case Finished(_, _) => case Released(_, _) =>
    }
  }

  lemma StepKeepsPath(s: State, step: Step, p: CallId, kind: SendKind, g: GenId)
    requires Structure(s) && p in s.calls && OnPath(kind, g, s.calls[p]) && Next(s, step).Some?
    ensures p in Next(s, step).value.calls && OnPath(kind, g, Next(s, step).value.calls[p])
  {
    if step.ByCaller? && step.p == p {
      CallKeepsPath(s, p, step.c, kind, g);
    } else {
      PhaseStays(s, step, p);
    }
  }

  lemma {:induction false} PathForever(s: State, steps: seq<Step>, p: CallId, kind: SendKind, g: GenId)
    requires Structure(s) && p in s.calls && OnPath(kind, g, s.calls[p]) && From(s, steps).Some?
    ensures p in From(s, steps).value.calls && OnPath(kind, g, From(s, steps).value.calls[p])
  {
    if steps != [] {
      var n := |steps| - 1;
      PathForever(s, steps[..n], p, kind, g);
      FromKeepsStructure(s, steps[..n]);
      StepKeepsPath(From(s, steps[..n]).value, steps[n], p, kind, g);
    }
  }

  predicate IsOver(phase: Phase) {
    phase.Finished? || phase.Released?
  }

  /** A call whose send was cancelled before anything was sent reports exactly that, in every continuation. */
  lemma PreflightReportsNotSent(s: State, p: CallId, after: State, later: seq<Step>, end: State)
    requires Reachable(s) && CallNext(s, p, SendEnds(Preflight)) == Some(after) && From(after, later) == Some(end)
    ensures p in end.calls && !(end.calls[p].Held? && (end.calls[p].held.Marking? || end.calls[p].held.Signalling?))
    ensures IsOver(end.calls[p]) ==> end.calls[p].result == PublishResult(NotSent, None) && end.calls[p].sentOn.None?
  {
    ReachableStructure(s);
    CallKeepsStructure(s, p, SendEnds(Preflight));
    SendStartsPath(s, p, Preflight);
    PathForever(after, later, p, Preflight, s.calls[p].gen);
  }

  // ---------------------------------------------------------------- a failed send seals its generation

  /** The failure is still to be marked under the lock, or the generation is broken. */
  ghost predicate Sealing(s: State, p: CallId, kind: SendKind, g: GenId)
    requires p in s.calls
  {
    && g < |s.gens|
    && ((s.calls[p] == Held(g, Marking(kind)) && s.current == g) || s.gens[g].broken)
    && (kind.TimedOut? && s.calls[p] != Held(g, Marking(kind)) && s.calls[p] != Held(g, Signalling(kind)) ==>
          s.gens[g].closers > 0)
  }

  lemma MarkSeals(s: State, p: CallId, kind: SendKind, g: GenId)
    requires p in s.calls && s.calls[p] == Held(g, Marking(kind)) && s.current == g && !s.closed
    requires CallNext(s, p, Mark).Some?
    ensures p in CallNext(s, p, Mark).value.calls && Sealing(CallNext(s, p, Mark).value, p, kind, g)
  {
  }

  lemma SignalSpawns(s: State, p: CallId, kind: SendKind, g: GenId)
    requires p in s.calls && s.calls[p] == Held(g, Signalling(kind)) && CallNext(s, p, Signal).Some?
    ensures |CallNext(s, p, Signal).value.gens| == |s.gens| > g
    ensures CallNext(s, p, Signal).value.gens[g].closers == s.gens[g].closers + if kind.TimedOut? then 1 else 0
    ensures CallNext(s, p, Signal).value.gens[g].broken == s.gens[g].broken
  {
    if kind.TimedOut? { } else { }
  }

  lemma OwnStepSeals(s: State, p: CallId, c: CallStep, kind: SendKind, g: GenId)
    requires Structure(s) && Gate(s) && !s.closed && Failing(kind) && p in s.calls && OnPath(kind, g, s.calls[p])
    requires Sealing(s, p, kind, g) && CallNext(s, p, c).Some?
    ensures p in CallNext(s, p, c).value.calls && Sealing(CallNext(s, p, c).value, p, kind, g)
  {
    CallKeepsPath(s, p, c, kind, g);
    if s.calls[p] == Held(g, Marking(kind)) {
      assert c.Mark?;
      MarkSeals(s, p, kind, g);
    } else {
      StepKeepsSeal(s, ByCaller(p, c), g);
      StepEvolves(s, ByCaller(p, c), g);
      if s.calls[p] == Held(g, Signalling(kind)) {
        assert c.Signal?;
        SignalSpawns(s, p, kind, g);
      }
      NeverBackToMarking(s, p, c, kind, g);
    }
  }

  predicate PastMarking(phase: Phase) {
    !(phase.Held? && (phase.held.Marking? || phase.held.Signalling?))
  }

  lemma NeverBackToMarking(s: State, p: CallId, c: CallStep, kind: SendKind, g: GenId)
    requires p in s.calls && OnPath(kind, g, s.calls[p]) && s.calls[p] != Held(g, Marking(kind)) && CallNext(s, p, c).Some?
    ensures p in CallNext(s, p, c).value.calls && PastMarking(CallNext(s, p, c).value.calls[p])
  {
    match s.calls[p] {
      case Held(h, stage) => HeldNeverBack(s, p, h, stage, c, kind);
      case Loose(h, stage) => LoosePhaseStaysLoose(s, p, h, stage, c);
      case Finished(_, _) => case Released(_, _) =>
    }
  }

  lemma HeldNeverBack(s: State, p: CallId, g: GenId, stage: HeldStage, c: CallStep, kind: SendKind)
    requires g < |s.gens| && p in s.gens[g].attempts && HeldNext(s, p, g, stage, c).Some?
    requires stage == Signalling(kind) || stage == Unlocking(kind)
    ensures p in HeldNext(s, p, g, stage, c).value.calls
    ensures HeldNext(s, p, g, stage, c).value.calls[p] == Held(g, Unlocking(kind)) ||
            HeldNext(s, p, g, stage, c).value.calls[p].Loose?
  {
    match c { case Signal => case Unlock => case _ => }
  }

  lemma LoosePhaseStaysLoose(s: State, p: CallId, g: GenId, stage: LooseStage, c: CallStep)
    requires g < |s.gens| && p in s.gens[g].attempts && LooseNext(s, p, g, stage, c).Some?
    ensures p in LooseNext(s, p, g, stage, c).value.calls && !LooseNext(s, p, g, stage, c).value.calls[p].Held?
  {
    match c {
      case FailAttempt => AbandonedNotHeld(s, p, g);
      case GiveUp => AbandonedNotHeld(s, p, g);
      case DropPreflight => case ContextDone => case Recheck => case Receive => case _ =>
    }
  }

  lemma AbandonedNotHeld(s: State, p: CallId, g: GenId)
    requires g < |s.gens| && p in s.gens[g].attempts
    ensures p in Abandoned(s, p, g).calls && !Abandoned(s, p, g).calls[p].Held?
  {
    if LiveSequence(s.gens[g], s.gens[g].attempts[p].sequence) { } else { }
  }

  /** While the failure is unmarked, its call has the lock: nobody registers and no generation is installed. */
  lemma OtherStepSeals(s: State, step: Step, p: CallId, kind: SendKind, g: GenId)
    requires Structure(s) && Gate(s) && !s.closed && p in s.calls && OnPath(kind, g, s.calls[p])
    requires Sealing(s, p, kind, g) && Next(s, step).Some? && (step.ByCaller? ==> step.p != p)
    ensures p in Next(s, step).value.calls && Sealing(Next(s, step).value, p, kind, g)
  {
    PhaseStays(s, step, p);
    StepEvolves(s, step, g);
    if s.gens[g].broken {
      StepKeepsSeal(s, step, g);
    } else {
      LockKeepsCurrent(s, step, p);
    }
  }

  lemma LockKeepsCurrent(s: State, step: Step, p: CallId)
    requires Structure(s) && p in s.calls && s.calls[p].Held? && Next(s, step).Some?
    ensures Next(s, step).value.current == s.current
  {
    assert CallOk(s, p);
    match step {
      case ByCaller(q, c) => CallKeepsCurrent(s, q, c);
      case ByLoopTask(l) => LockedLoopKeepsCurrent(s, l);
      case ByShutdown => ShutdownFrame(s);
      case _ => BrokerFrame(s, step);
    }
  }

  lemma LockedLoopKeepsCurrent(s: State, l: LoopStep)
    requires Structure(s) && s.lock.ByCall? && LoopNext(s, l).Some?
    ensures LoopNext(s, l).value.current == s.current
  {
    match s.loop {
      case Serving(g, stage) => ServingFrame(s, g, stage, l);
      case Owning(g, stage) => OwningLocked(s, g, stage, l);
      case Recovering(attempt) => RecoveringKeepsCurrent(s, attempt, l);
      case GivenUp => case Exited =>
    }
  }

  lemma OwningLocked(s: State, g: GenId, stage: OwnStage, l: LoopStep)
    requires g < |s.gens| && (stage.InstallLocked? ==> s.lock == ByLoop) && s.lock.ByCall? && OwningNext(s, g, stage, l).Some?
    ensures OwningNext(s, g, stage, l).value.current == s.current
  {
    match l { case SetupFails => case SetupWorks => case LockInstall => case Install => case DiscardClose => case _ => }
  }

  /** Nobody else is at the point of registering while a call holds the lock for its attempt. */
  lemma HolderFreezes(s: State, step: Step, p: CallId, g: GenId)
    requires Structure(s) && p in s.calls && s.calls[p].Held? && g < |s.gens| && Next(s, step).Some?
    ensures GenEvolves(s, Next(s, step).value, g, true)
  {
    StepEvolves(s, step, g);
    if Registers(s, step, g) {
      RegisterCases(s, step.p, step.c);
      NobodyElseAvailable(s, p, step.p);
    }
  }

  lemma StepSeals(s: State, step: Step, p: CallId, kind: SendKind, g: GenId)
    requires Structure(s) && Gate(s) && !s.closed && Failing(kind) && p in s.calls && OnPath(kind, g, s.calls[p])
    requires Sealing(s, p, kind, g) && Next(s, step).Some?
    ensures p in Next(s, step).value.calls && Sealing(Next(s, step).value, p, kind, g)
    ensures GenEvolves(s, Next(s, step).value, g, true)
  {
    if step.ByCaller? && step.p == p {
      OwnStepSeals(s, p, step.c, kind, g);
    } else {
      OtherStepSeals(s, step, p, kind, g);
    }
    if s.gens[g].broken {
      StepKeepsSeal(s, step, g);
      StepEvolves(s, step, g);
    } else {
      HolderFreezes(s, step, p, g);
    }
  }

  lemma {:induction false} SealedFromTheSend(s: State, steps: seq<Step>, p: CallId, kind: SendKind, g: GenId)
    requires Structure(s) && Gate(s) && Failing(kind) && p in s.calls && OnPath(kind, g, s.calls[p]) && Sealing(s, p, kind, g)
    requires From(s, steps).Some? && !From(s, steps).value.closed
    ensures p in From(s, steps).value.calls && Sealing(From(s, steps).value, p, kind, g)
    ensures From(s, steps).value.gens[g].attempts.Keys == s.gens[g].attempts.Keys
    ensures Gate(From(s, steps).value)
  {
    FromKeepsGate(s, steps);
    if steps != [] {
      var n := |steps| - 1;
      var before := From(s, steps[..n]).value;
      FromKeepsStructure(s, steps[..n]);
      FromKeepsGate(s, steps[..n]);
      PathForever(s, steps[..n], p, kind, g);
      if before.closed {
        ClosedStays(before, steps[n]);
      }
      SealedFromTheSend(s, steps[..n], p, kind, g);
      StepSeals(before, steps[n], p, kind, g);
    }
  }

  /**
    From the moment a send fails or times out, and as long as shutdown has not begun, nobody registers on its tracker.
    Once the call is past marking, the generation is broken and the producer is unavailable or has a later generation;
    a timed-out send has also asked for its connection to be closed by the time it lets go of the lock.
   */
  lemma FailedSendSealsAtOnce(s: State, p: CallId, kind: SendKind, after: State, later: seq<Step>, end: State)
    requires Reachable(s) && Failing(kind) && CallNext(s, p, SendEnds(kind)) == Some(after)
    requires From(after, later) == Some(end) && !end.closed
    ensures s.current < |s.gens| && s.current < |end.gens| && p in end.calls
    ensures end.gens[s.current].attempts.Keys == s.gens[s.current].attempts.Keys
    ensures end.calls[p] != Held(s.current, Marking(kind)) ==>
      end.gens[s.current].broken && (end.unavailable || end.current != s.current)
    ensures kind.TimedOut? && !end.calls[p].Held? ==> end.gens[s.current].closers > 0
  {
    ReachableStructure(s);
    ReachableGate(s);
    assert CallOk(s, p);
    SendStartsPath(s, p, kind);
    CallKeepsStructure(s, p, SendEnds(kind));
    CallKeepsGate(s, p, SendEnds(kind));
    SealedFromTheSend(after, later, p, kind, s.current);
  }

  // ---------------------------------------------------------------- what happens to a pending attempt

  /** Events the loop applies to a tracker; failing all attempts also ends the generation. */
  predicate LoopEvent(e: Event, failed: bool) {
    e.ReturnSeen? || e.ConfirmSeen? || (e == FailAll(Ambiguous) && failed)
  }

  /** The record of `p` is untouched or took one event of the loop. */
  ghost predicate RecordMoves(gen: Generation, gen': Generation, p: CallId) {
    && p in gen.attempts && p in gen'.attempts && (gen.failed ==> gen'.failed)
    && (gen'.attempts[p] == gen.attempts[p] ||
        exists e :: LoopEvent(e, gen'.failed) && gen'.attempts[p] == React(gen.attempts[p], e))
  }

  lemma SameRecord(s: State, s': State, g: GenId, p: CallId)
    requires g < |s.gens| && g < |s'.gens| && p in s.gens[g].attempts
    requires s'.gens[g].attempts == s.gens[g].attempts && (s.gens[g].failed ==> s'.gens[g].failed)
    ensures RecordMoves(s.gens[g], s'.gens[g], p)
  {
  }

  lemma NotifiedRecord(gen: Generation, e: Event, gen': Generation, p: CallId)
    requires p in gen.attempts && gen'.attempts == Apply(gen.attempts, e) && (gen.failed ==> gen'.failed)
    requires LoopEvent(e, gen'.failed)
    ensures RecordMoves(gen, gen', p)
  {
    assert gen'.attempts[p] == React(gen.attempts[p], e);
  }

  lemma PoppedRecord(gen: Generation, p: CallId)
    requires gen.returnQueue != [] && p in gen.attempts
    ensures RecordMoves(gen, Popped(gen), p)
  {
    if Correlates(gen) {
      NotifiedRecord(gen, ReturnSeen(gen.returnQueue[0].token.value, gen.returnQueue[0].ret), Popped(gen), p);
    }
  }

  lemma ConfirmedRecord(s: State, h: GenId, confirm: Confirm, loop: Loop, p: CallId)
    requires h < |s.gens| && p in s.gens[h].attempts
    ensures RecordMoves(s.gens[h], LoopNotified(s, h, ConfirmSeen(confirm.sequence, confirm.ack), loop).gens[h], p)
  {
    var e := ConfirmSeen(confirm.sequence, confirm.ack);
    NotifiedRecord(s.gens[h], e, LoopNotified(s, h, e, loop).gens[h], p);
  }

  lemma FailedRecord(s: State, h: GenId, loop: Loop, p: CallId)
    requires h < |s.gens| && p in s.gens[h].attempts
    ensures RecordMoves(s.gens[h], LoopFailedAll(s, h, loop).gens[h], p)
  {
    NotifiedRecord(s.gens[h], FailAll(Ambiguous), LoopFailedAll(s, h, loop).gens[h], p);
  }

  lemma ServingRecord(s: State, h: GenId, stage: ServeStage, l: LoopStep, p: CallId)
    requires h < |s.gens| && ServingNext(s, h, stage, l).Some? && p in s.gens[h].attempts
    ensures |ServingNext(s, h, stage, l).value.gens| == |s.gens|
    ensures RecordMoves(s.gens[h], ServingNext(s, h, stage, l).value.gens[h], p)
  {
    match l {
      case TakeReturn => PoppedRecord(s.gens[h], p);
      case DrainOne => PoppedRecord(s.gens[h], p);
      case ApplyConfirm => ConfirmedRecord(s, h, stage.confirm, Serving(h, Selecting(stage.listening)), p);
      case FailEach => FailedRecord(s, h, Serving(h, ClosingOld), p);
      case StopFailAll => FailedRecord(s, h, Exited, p);
      case _ => QuietServingRecord(s, h, stage, l, p);
    }
  }

  lemma QuietServingRecord(s: State, h: GenId, stage: ServeStage, l: LoopStep, p: CallId)
    requires h < |s.gens| && ServingNext(s, h, stage, l).Some? && p in s.gens[h].attempts
    requires !l.TakeReturn? && !l.DrainOne? && !l.ApplyConfirm? && !l.FailEach? && !l.StopFailAll?
    ensures |ServingNext(s, h, stage, l).value.gens| == |s.gens|
    ensures RecordMoves(s.gens[h], ServingNext(s, h, stage, l).value.gens[h], p)
  {
    match l {
      case TakeConfirm => case ReturnsEnd => case Break => case Cancelled => case DrainDone =>
      case MarkEnd => case CloseOld => case FinishRecovered => case _ =>
    }
  }

  lemma LoopRecord(s: State, l: LoopStep, p: CallId, g: GenId)
    requires Structure(s) && LoopNext(s, l).Some? && g < |s.gens| && p in s.gens[g].attempts
    ensures g < |LoopNext(s, l).value.gens| && RecordMoves(s.gens[g], LoopNext(s, l).value.gens[g], p)
  {
    match s.loop {
      case Serving(h, stage) =>
        ServingFrame(s, h, stage, l);
        if h == g {
          ServingRecord(s, h, stage, l, p);
        }
      case Owning(h, stage) => OwningRecord(s, h, stage, l, p, g);
      case Recovering(attempt) => RecoveringRecord(s, attempt, l, p, g);
      case GivenUp => case Exited =>
    }
  }

  lemma OwningRecord(s: State, h: GenId, stage: OwnStage, l: LoopStep, p: CallId, g: GenId)
    requires h < |s.gens| && OwningNext(s, h, stage, l).Some? && g < |s.gens| && p in s.gens[g].attempts
    ensures g < |OwningNext(s, h, stage, l).value.gens|
    ensures RecordMoves(s.gens[g], OwningNext(s, h, stage, l).value.gens[g], p)
  {
    match l { case SetupFails => case SetupWorks => case LockInstall => case Install => case DiscardClose => case _ => }
  }

  lemma RecoveringRecord(s: State, attempt: nat, l: LoopStep, p: CallId, g: GenId)
    requires RecoveringNext(s, attempt, l).Some? && g < |s.gens| && p in s.gens[g].attempts
    ensures g < |RecoveringNext(s, attempt, l).value.gens|
    ensures RecordMoves(s.gens[g], RecoveringNext(s, attempt, l).value.gens[g], p)
  {
    match l { case Skip => case Dial(_) => case Quit => case _ => }
  }

  lemma OtherCallRecord(s: State, q: CallId, c: CallStep, p: CallId, g: GenId)
    requires Structure(s) && Attributed(s) && CallNext(s, q, c).Some? && q != p && g < |s.gens| && p in s.gens[g].attempts
    ensures g < |CallNext(s, q, c).value.gens| && RecordMoves(s.gens[g], CallNext(s, q, c).value.gens[g], p)
  {
    if c.Admit? || c.Release? {
      BoundaryFrame(s, q, c);
    } else if c.Register? {
      RegisterRecord(s, q, c, p, g);
    } else {
      QuietCallRecord(s, q, c, p, g);
    }
  }

  lemma RegisterRecord(s: State, q: CallId, c: CallStep, p: CallId, g: GenId)
    requires Structure(s) && c.Register? && CallNext(s, q, c).Some? && q != p && g < |s.gens| && p in s.gens[g].attempts
    ensures g < |CallNext(s, q, c).value.gens| && RecordMoves(s.gens[g], CallNext(s, q, c).value.gens[g], p)
  {
    RegisterCases(s, q, c);
    InsertRecord(s, q, NewRecord(c.sequence, Text.Token(s.gens[s.current].session, c.sequence), c.exchange, c.route), p, g);
  }

  lemma InsertRecord(s: State, q: CallId, record: Record, p: CallId, g: GenId)
    requires s.current < |s.gens| && q != p && g < |s.gens| && p in s.gens[g].attempts
    ensures g < |Inserted(s, q, record).gens| && RecordMoves(s.gens[g], Inserted(s, q, record).gens[g], p)
  {
    assert Inserted(s, q, record).gens[g].attempts[p] == s.gens[g].attempts[p];
  }

  lemma QuietCallRecord(s: State, q: CallId, c: CallStep, p: CallId, g: GenId)
    requires Structure(s) && Attributed(s) && CallNext(s, q, c).Some? && !c.Admit? && !c.Release? && !c.Register?
    requires q != p && g < |s.gens| && p in s.gens[g].attempts
    ensures g < |CallNext(s, q, c).value.gens| && RecordMoves(s.gens[g], CallNext(s, q, c).value.gens[g], p)
  {
    var s' := CallNext(s, q, c).value;
    CallStepFrame(s, q, c);
    if g == Concerns(s, q) {
      CallAbandons(s, q, c);
      OtherRecordStays(s, s', q, g, p);
    }
  }

  /** With distinct sequences only the loop touches the attempt of a call that does nothing. */
  lemma RecordStep(s: State, step: Step, p: CallId, g: GenId)
    requires Structure(s) && Attributed(s) && Next(s, step).Some? && (step.ByCaller? ==> step.p != p)
    requires g < |s.gens| && p in s.gens[g].attempts
    ensures g < |Next(s, step).value.gens| && RecordMoves(s.gens[g], Next(s, step).value.gens[g], p)
  {
    match step {
      case ByCaller(q, c) => OtherCallRecord(s, q, c, p, g);
      case ByLoopTask(l) => LoopRecord(s, l, p, g);
      case ByShutdown => ShutdownFrame(s);
      case _ => BrokerRecord(s, step, p, g);
    }
  }

  lemma BrokerRecord(s: State, step: Step, p: CallId, g: GenId)
    requires BrokerStep(step) && BrokerNext(s, step).Some? && g < |s.gens| && p in s.gens[g].attempts
    ensures g < |BrokerNext(s, step).value.gens| && RecordMoves(s.gens[g], BrokerNext(s, step).value.gens[g], p)
  {
    BrokerFrame(s, step);
  }

  // ---------------------------------------------------------------- a sent publication is never reported as not sent

  /** The attempt is not completed as not sent. */
  ghost predicate NotUnsent(s: State, p: CallId, g: GenId) {
    && g < |s.gens| && p in s.gens[g].attempts
    && (s.gens[g].attempts[p].outcome.Some? ==> s.gens[g].attempts[p].outcome.value.state != NotSent)
  }

  lemma MovesKeepSent(gen: Generation, gen': Generation, p: CallId)
    requires RecordMoves(gen, gen', p)
    requires gen.attempts[p].outcome.Some? ==> gen.attempts[p].outcome.value.state != NotSent
    ensures gen'.attempts[p].outcome.Some? ==> gen'.attempts[p].outcome.value.state != NotSent
  {
  }

  lemma AbandonedKeepsSent(s: State, p: CallId, g: GenId)
    requires NotUnsent(s, p, g)
    ensures NotUnsent(Abandoned(s, p, g), p, g)
  {
    if LiveSequence(s.gens[g], s.gens[g].attempts[p].sequence) {
      AbandonedRecord(s, p, g);
    } else {
      assert Abandoned(s, p, g).gens == s.gens;
    }
  }

  lemma AbandonedRecord(s: State, p: CallId, g: GenId)
    requires g < |s.gens| && p in s.gens[g].attempts && LiveSequence(s.gens[g], s.gens[g].attempts[p].sequence)
    ensures |Abandoned(s, p, g).gens| == |s.gens| && p in Abandoned(s, p, g).gens[g].attempts
    ensures Abandoned(s, p, g).gens[g].attempts[p] ==
            React(s.gens[g].attempts[p], Abandon(s.gens[g].attempts[p].sequence, Ambiguous))
  {
  }

  lemma OwnStepKeepsSent(s: State, p: CallId, c: CallStep, kind: SendKind, g: GenId)
    requires Structure(s) && p in s.calls && OnPath(kind, g, s.calls[p]) && !kind.Preflight? && NotUnsent(s, p, g)
    requires CallNext(s, p, c).Some?
    ensures NotUnsent(CallNext(s, p, c).value, p, g)
  {
    match s.calls[p] {
      case Held(_, stage) => HeldKeepsSent(s, p, g, stage, c, kind);
      case Loose(_, stage) => LooseKeepsSent(s, p, g, stage, c, kind);
      case Finished(_, _) => case Released(_, _) =>
    }
  }

  lemma HeldKeepsSent(s: State, p: CallId, g: GenId, stage: HeldStage, c: CallStep, kind: SendKind)
    requires NotUnsent(s, p, g) && HeldNext(s, p, g, stage, c).Some? && OnPath(kind, g, Held(g, stage))
    ensures NotUnsent(HeldNext(s, p, g, stage, c).value, p, g)
  {
    match c {
      case Mark => MarkLeavesTracker(s, p, g, stage);
      case Signal => SignalLeavesTracker(s, p, g, stage);
      case Unlock => case _ =>
    }
  }

  lemma LooseKeepsSent(s: State, p: CallId, g: GenId, stage: LooseStage, c: CallStep, kind: SendKind)
    requires NotUnsent(s, p, g) && LooseNext(s, p, g, stage, c).Some? && StageFits(kind, stage) && !kind.Preflight?
    ensures NotUnsent(LooseNext(s, p, g, stage, c).value, p, g)
  {
    match c {
      case FailAttempt => AbandonedKeepsSent(s, p, g);
      case GiveUp => AbandonedKeepsSent(s, p, g);
      case ContextDone => case Recheck => case Receive => case _ =>
    }
  }

  lemma StepKeepsSent(s: State, step: Step, p: CallId, kind: SendKind, g: GenId)
    requires Structure(s) && Attributed(s) && p in s.calls && OnPath(kind, g, s.calls[p]) && !kind.Preflight?
    requires NotUnsent(s, p, g) && Next(s, step).Some?
    ensures NotUnsent(Next(s, step).value, p, g)
  {
    if step.ByCaller? && step.p == p {
      OwnStepKeepsSent(s, p, step.c, kind, g);
    } else {
      RecordStep(s, step, p, g);
      MovesKeepSent(s.gens[g], Next(s, step).value.gens[g], p);
    }
  }

  lemma {:induction false} SentForever(s: State, steps: seq<Step>, p: CallId, kind: SendKind, g: GenId)
    requires Structure(s) && Attributed(s) && p in s.calls && OnPath(kind, g, s.calls[p]) && !kind.Preflight?
    requires NotUnsent(s, p, g) && From(s, steps).Some? && FreshFrom(s, steps)
    ensures NotUnsent(From(s, steps).value, p, g)
  {
    if steps != [] {
      var n := |steps| - 1;
      SentForever(s, steps[..n], p, kind, g);
      FromKeepsStructure(s, steps[..n]);
      FromKeepsAttribution(s, steps[..n]);
      PathForever(s, steps[..n], p, kind, g);
      StepKeepsSent(From(s, steps[..n]).value, steps[n], p, kind, g);
    }
  }

  /** The attempt has no outcome but what the loop gave it: not unsent, and ambiguous only if its generation ended. */
  ghost predicate LoopOnly(s: State, p: CallId, g: GenId) {
    NotUnsent(s, p, g) && AmbiguousOnlyIfEnded(s, p, g)
  }

  predicate BeforeSendEnds(phase: Phase) {
    phase.Held? && (phase.held.Registered? || phase.held.Sending?)
  }

  /** Until its send has ended, only the loop completes the attempt of a call. */
  ghost predicate SendingOk(s: State) {
    forall p | p in s.calls && BeforeSendEnds(s.calls[p]) :: LoopOnly(s, p, s.calls[p].gen)
  }

  lemma InsertedIsLoopOnly(s: State, q: CallId, record: Record, p: CallId)
    requires SendingOk(s) && s.current < |s.gens| && record.Live() && q !in s.gens[s.current].attempts
    requires p in Inserted(s, q, record).calls && BeforeSendEnds(Inserted(s, q, record).calls[p])
    ensures LoopOnly(Inserted(s, q, record), p, Inserted(s, q, record).calls[p].gen)
  {
    if p != q {
      assert LoopOnly(s, p, s.calls[p].gen);
    }
  }

  lemma InsertKeepsSending(s: State, q: CallId, record: Record)
    requires SendingOk(s) && s.current < |s.gens| && record.Live() && q !in s.gens[s.current].attempts
    ensures SendingOk(Inserted(s, q, record))
  {
    var s' := Inserted(s, q, record);
    forall p | p in s'.calls && BeforeSendEnds(s'.calls[p]) ensures LoopOnly(s', p, s'.calls[p].gen) {
      InsertedIsLoopOnly(s, q, record, p);
    }
  }

  lemma LeaveKeepsSending(s: State, q: CallId)
    requires SendingOk(s)
    ensures SendingOk(Leave(s, q))
  {
    var s' := Leave(s, q);
    forall p | p in s'.calls && BeforeSendEnds(s'.calls[p]) ensures LoopOnly(s', p, s'.calls[p].gen) {
      assert LoopOnly(s, p, s.calls[p].gen);
    }
  }

  lemma RegisterKeepsSending(s: State, q: CallId, c: CallStep)
    requires Structure(s) && SendingOk(s) && c.Register? && CallNext(s, q, c).Some?
    ensures SendingOk(CallNext(s, q, c).value)
  {
    RegisterCases(s, q, c);
    assert q in s.gens[s.current].attempts ==> AttemptOk(s, s.current, q);
    LeaveKeepsSending(s, q);
    InsertKeepsSending(s, q, NewRecord(c.sequence, Text.Token(s.gens[s.current].session, c.sequence), c.exchange, c.route));
  }

  lemma CheckAgainToSending(s: State, p: CallId, g: GenId)
    requires g < |s.gens| && p in s.gens[g].attempts
    requires HeldNext(s, p, g, Registered, CheckClosingAgain).Some?
    ensures var s' := HeldNext(s, p, g, Registered, CheckClosingAgain).value;
      && p in s'.calls
      && (BeforeSendEnds(s'.calls[p]) ==>
            !s.shutdownClosing && s' == WithPhase(s, p, Held(g, Sending)))
  {
    if s.shutdownClosing { } else { }
  }

  lemma HeldToSending(s: State, p: CallId, g: GenId, stage: HeldStage, c: CallStep)
    requires g < |s.gens| && p in s.gens[g].attempts && HeldNext(s, p, g, stage, c).Some?
    ensures p in HeldNext(s, p, g, stage, c).value.calls
    ensures BeforeSendEnds(HeldNext(s, p, g, stage, c).value.calls[p]) ==>
      stage.Registered? && !s.shutdownClosing && HeldNext(s, p, g, stage, c).value == WithPhase(s, p, Held(g, Sending))
  {
    match c {
      case CheckClosingAgain => CheckAgainToSending(s, p, g);
      case Mark => MarkStaysPast(s, p, g, stage);
      case SendEnds(_) => case Signal => case Unlock => case _ =>
    }
  }

  lemma MarkStaysPast(s: State, p: CallId, g: GenId, stage: HeldStage)
    requires g < |s.gens| && p in s.gens[g].attempts && stage.Marking?
    ensures p in HeldNext(s, p, g, stage, Mark).value.calls
    ensures !BeforeSendEnds(HeldNext(s, p, g, stage, Mark).value.calls[p])
  {
    if s.current != g || s.closed { } else { }
  }

  lemma OuterNotSending(s: State, p: CallId, c: CallStep)
    requires p in s.calls && (s.calls[p].Admitted? || s.calls[p].Entered?) && CallNext(s, p, c).Some? && !c.Register?
    ensures p in CallNext(s, p, c).value.calls && !BeforeSendEnds(CallNext(s, p, c).value.calls[p])
  {
    OuterIsNotPending(s, p, c);
  }

  /** A call starts sending only from a fresh registration, and not once shutdown is past draining. */
  lemma OwnStepToSending(s: State, p: CallId, c: CallStep)
    requires p in s.calls && CallNext(s, p, c).Some? && !c.Register?
    ensures p in CallNext(s, p, c).value.calls
    ensures BeforeSendEnds(CallNext(s, p, c).value.calls[p]) ==>
      && s.calls[p].Held? && s.calls[p].held.Registered? && !s.shutdownClosing
      && CallNext(s, p, c).value == WithPhase(s, p, Held(s.calls[p].gen, Sending))
  {
    match s.calls[p] {
      case Held(g, stage) => HeldToSending(s, p, g, stage, c);
      case Loose(g, stage) => LoosePhaseStaysLoose(s, p, g, stage, c);
      case Entered(_) => OuterNotSending(s, p, c);
      case Admitted => OuterNotSending(s, p, c);
      case Finished(_, _) => case Released(_, _) =>
    }
  }

  lemma StepKeepsSending(s: State, step: Step)
    requires Structure(s) && Attributed(s) && SendingOk(s) && Next(s, step).Some?
    ensures SendingOk(Next(s, step).value)
  {
    var s' := Next(s, step).value;
    if step.ByCaller? && step.c.Register? {
      RegisterKeepsSending(s, step.p, step.c);
    } else {
      forall p | p in s'.calls && BeforeSendEnds(s'.calls[p]) ensures LoopOnly(s', p, s'.calls[p].gen) {
        if step.ByCaller? && step.p == p {
          OwnSendingStep(s, step, p);
        } else {
          OtherSendingStep(s, step, p);
        }
      }
    }
  }

  lemma OwnSendingStep(s: State, step: Step, p: CallId)
    requires SendingOk(s) && Next(s, step).Some? && step.ByCaller? && step.p == p && !step.c.Register?
    requires p in Next(s, step).value.calls && BeforeSendEnds(Next(s, step).value.calls[p])
    ensures LoopOnly(Next(s, step).value, p, Next(s, step).value.calls[p].gen)
  {
    if step.c.Admit? {
      AdmitEffect(s, p);
    } else {
      OwnStepToSending(s, p, step.c);
      assert LoopOnly(s, p, s.calls[p].gen);
    }
  }

  /** Admission is granted if and only if the producer is open, available and has a free slot. */
  lemma AdmitEffect(s: State, p: CallId)
    requires CallNext(s, p, Admit).Some?
    ensures p !in s.calls
    ensures p in CallNext(s, p, Admit).value.calls <==> !s.closed && !s.unavailable && s.active < s.maximum
    ensures p in CallNext(s, p, Admit).value.calls ==> CallNext(s, p, Admit).value.calls[p] == Admitted
  {
  }

  lemma OtherSendingStep(s: State, step: Step, p: CallId)
    requires Structure(s) && Attributed(s) && SendingOk(s) && Next(s, step).Some? && (step.ByCaller? ==> step.p != p)
    requires p in Next(s, step).value.calls && BeforeSendEnds(Next(s, step).value.calls[p])
    ensures LoopOnly(Next(s, step).value, p, Next(s, step).value.calls[p].gen)
  {
    NoNewCalls(s, step, p);
    PhaseStays(s, step, p);
    var g := s.calls[p].gen;
    assert LoopOnly(s, p, g);
    RecordStep(s, step, p, g);
    MovesKeepSent(s.gens[g], Next(s, step).value.gens[g], p);
    MovesKeepAmbiguous(s.gens[g], Next(s, step).value.gens[g], p);
  }

  lemma NoNewCalls(s: State, step: Step, p: CallId)
    requires Structure(s) && Next(s, step).Some? && (step.ByCaller? ==> step.p != p) && p in Next(s, step).value.calls
    ensures p in s.calls
  {
    match step {
      case ByCaller(q, c) => CallAddsOnlyItself(s, q, c, p);
      case ByLoopTask(l) => LoopCounters(s, l);
      case ByShutdown => ShutdownFrame(s);
      case _ => BrokerFrame(s, step);
    }
  }

  lemma CallAddsOnlyItself(s: State, q: CallId, c: CallStep, p: CallId)
    requires Structure(s) && CallNext(s, q, c).Some? && p != q && p in CallNext(s, q, c).value.calls
    ensures p in s.calls
  {
    if c.Admit? || c.Release? {
    } else if c.Register? {
      RegisterCases(s, q, c);
    } else {
      CallStepFrame(s, q, c);
    }
  }

  lemma {:induction false} FromKeepsSending(s: State, steps: seq<Step>)
    requires Structure(s) && Attributed(s) && SendingOk(s) && From(s, steps).Some? && FreshFrom(s, steps)
    ensures SendingOk(From(s, steps).value)
  {
    if steps != [] {
      var n := |steps| - 1;
      FromKeepsSending(s, steps[..n]);
      FromKeepsStructure(s, steps[..n]);
      FromKeepsAttribution(s, steps[..n]);
      StepKeepsSending(From(s, steps[..n]).value, steps[n]);
    }
  }

  lemma ReachableSending(s: State)
    requires FreshReachable(s)
    ensures Structure(s) && Attributed(s) && SendingOk(s)
  {
    ReachableAttribution(s);
    var c, steps :| After(c, steps) == Some(s) && FreshFrom(Init(c.maximum, c.maxAttempts, c.session), steps);
    FromKeepsSending(Init(c.maximum, c.maxAttempts, c.session), steps);
  }

  lemma SendKeepsFacts(s: State, p: CallId, kind: SendKind)
    requires Structure(s) && Attributed(s) && SendingOk(s) && CallNext(s, p, SendEnds(kind)).Some?
    ensures p in s.calls && s.calls[p].Held? && LoopOnly(CallNext(s, p, SendEnds(kind)).value, p, s.calls[p].gen)
    ensures Structure(CallNext(s, p, SendEnds(kind)).value) && Attributed(CallNext(s, p, SendEnds(kind)).value)
  {
    SendStartsPath(s, p, kind);
    assert s.calls[p].held.Sending?;
    assert LoopOnly(s, p, s.calls[p].gen);
    CallKeepsStructure(s, p, SendEnds(kind));
    QuietCallKeepsAttribution(s, p, SendEnds(kind));
  }

  /**
    With fresh sequences, a call whose send ended other than by a preflight cancellation reports, when it is over, a
    result of the generation it was sent on, and never that it was not sent.
   */
  lemma SentIsNeverReportedNotSent(s: State, p: CallId, kind: SendKind, after: State, later: seq<Step>, end: State)
    requires FreshReachable(s) && !kind.Preflight? && CallNext(s, p, SendEnds(kind)) == Some(after)
    requires From(after, later) == Some(end) && FreshFrom(after, later)
    ensures p in s.calls && s.calls[p].Held? && p in end.calls
    ensures IsOver(end.calls[p]) ==>
      end.calls[p].sentOn == Some(s.calls[p].gen) && end.calls[p].result.state != NotSent
  {
    ReachableSending(s);
    SendStartsPath(s, p, kind);
    SendKeepsFacts(s, p, kind);
    EndsAsSent(after, later, p, kind, s.calls[p].gen, end);
  }

  lemma EndsAsSent(s: State, later: seq<Step>, p: CallId, kind: SendKind, g: GenId, end: State)
    requires Structure(s) && Attributed(s) && p in s.calls && OnPath(kind, g, s.calls[p]) && !kind.Preflight?
    requires NotUnsent(s, p, g) && From(s, later) == Some(end) && FreshFrom(s, later)
    ensures p in end.calls
    ensures IsOver(end.calls[p]) ==>
      end.calls[p].sentOn == Some(g) && end.calls[p].result.state != NotSent &&
      g < |end.gens| && p in end.gens[g].attempts && end.gens[g].attempts[p].outcome == Some(end.calls[p].result)
  {
    PathForever(s, later, p, kind, g);
    SentForever(s, later, p, kind, g);
    FromKeepsAttribution(s, later);
    assert Truthful(end, p);
  }

  // ---------------------------------------------------------------- a sent publication waits for the broker

  /** The call waits, or is over. */
  predicate JustWaits(g: GenId, phase: Phase) {
    match phase
    case Held(h, stage) => h == g && stage == Unlocking(Sent)
    case Loose(h, stage) => h == g && stage.Waiting?
    case Finished(_, on) => on == Some(g)
    case Released(_, on) => on == Some(g)
    case _ => false
  }

  /** The attempt is ambiguous only if its generation has ended. */
  ghost predicate AmbiguousOnlyIfEnded(s: State, p: CallId, g: GenId) {
    && g < |s.gens| && p in s.gens[g].attempts
    && (s.gens[g].attempts[p].outcome.Some? && s.gens[g].attempts[p].outcome.value.state == Ambiguous ==> s.gens[g].failed)
  }

  lemma WaitingStep(s: State, p: CallId, c: CallStep, g: GenId)
    requires p in s.calls && JustWaits(g, s.calls[p]) && CallNext(s, p, c).Some? && !c.ContextDone?
    ensures p in CallNext(s, p, c).value.calls && JustWaits(g, CallNext(s, p, c).value.calls[p])
    ensures CallNext(s, p, c).value.gens == s.gens
  {
    match s.calls[p] {
      case Held(_, stage) => WaitingUnlocks(s, p, c, g);
      case Loose(_, stage) => WaitingReceives(s, p, c, g);
      case Finished(_, _) => case Released(_, _) =>
    }
  }

  lemma WaitingUnlocks(s: State, p: CallId, c: CallStep, g: GenId)
    requires p in s.calls && s.calls[p] == Held(g, Unlocking(Sent)) && CallNext(s, p, c).Some?
    ensures p in CallNext(s, p, c).value.calls && CallNext(s, p, c).value.calls[p] == Loose(g, Waiting)
    ensures CallNext(s, p, c).value.gens == s.gens
  {
    match c { case Unlock => case _ => }
  }

  lemma WaitingReceives(s: State, p: CallId, c: CallStep, g: GenId)
    requires p in s.calls && s.calls[p] == Loose(g, Waiting) && CallNext(s, p, c).Some? && !c.ContextDone?
    ensures p in CallNext(s, p, c).value.calls && CallNext(s, p, c).value.calls[p].Finished?
    ensures CallNext(s, p, c).value.calls[p].sentOn == Some(g) && CallNext(s, p, c).value.gens == s.gens
  {
    match c { case Receive => case _ => }
  }

  lemma MovesKeepAmbiguous(gen: Generation, gen': Generation, p: CallId)
    requires RecordMoves(gen, gen', p)
    requires gen.attempts[p].outcome.Some? && gen.attempts[p].outcome.value.state == Ambiguous ==> gen.failed
    ensures gen'.attempts[p].outcome.Some? && gen'.attempts[p].outcome.value.state == Ambiguous ==> gen'.failed
  {
  }

  lemma {:induction false} WaitsForever(s: State, steps: seq<Step>, p: CallId, g: GenId)
    requires Structure(s) && Attributed(s) && p in s.calls && JustWaits(g, s.calls[p]) && AmbiguousOnlyIfEnded(s, p, g)
    requires From(s, steps).Some? && FreshFrom(s, steps) && ByCaller(p, ContextDone) !in steps
    ensures p in From(s, steps).value.calls && JustWaits(g, From(s, steps).value.calls[p])
    ensures AmbiguousOnlyIfEnded(From(s, steps).value, p, g)
  {
    if steps != [] {
      var n := |steps| - 1;
      WaitsForever(s, steps[..n], p, g);
      FromKeepsStructure(s, steps[..n]);
      FromKeepsAttribution(s, steps[..n]);
      assert steps[n] in steps;
      WaitingOrOther(From(s, steps[..n]).value, steps[n], p, g);
    }
  }

  lemma WaitingOrOther(s: State, step: Step, p: CallId, g: GenId)
    requires Structure(s) && Attributed(s) && p in s.calls && JustWaits(g, s.calls[p]) && AmbiguousOnlyIfEnded(s, p, g)
    requires Next(s, step).Some? && step != ByCaller(p, ContextDone)
    ensures p in Next(s, step).value.calls && JustWaits(g, Next(s, step).value.calls[p])
    ensures AmbiguousOnlyIfEnded(Next(s, step).value, p, g)
  {
    if step.ByCaller? && step.p == p {
      WaitingStep(s, p, step.c, g);
    } else {
      PhaseStays(s, step, p);
      RecordStep(s, step, p, g);
      MovesKeepAmbiguous(s.gens[g], Next(s, step).value.gens[g], p);
    }
  }

  /**
    With fresh sequences, a call whose frame was accepted and whose context does not end reports Confirmed, Rejected or
    Returned, or Ambiguous because its generation ended.
   */
  lemma SentCallWaitsForTheBroker(s: State, p: CallId, after: State, later: seq<Step>, end: State)
    requires FreshReachable(s) && CallNext(s, p, SendEnds(Sent)) == Some(after)
    requires From(after, later) == Some(end) && FreshFrom(after, later) && ByCaller(p, ContextDone) !in later
    ensures p in s.calls && s.calls[p].Held? && p in end.calls && s.calls[p].gen < |end.gens|
    ensures IsOver(end.calls[p]) ==>
      || end.calls[p].result.state == Confirmed || end.calls[p].result.state == Rejected
      || end.calls[p].result.state == Returned
      || (end.calls[p].result.state == Ambiguous && end.gens[s.calls[p].gen].failed)
  {
    ReachableSending(s);
    SendStartsPath(s, p, Sent);
    SendKeepsFacts(s, p, Sent);
    SendGoesToUnlock(s, p);
    WaitsForever(after, later, p, s.calls[p].gen);
    EndsAsSent(after, later, p, Sent, s.calls[p].gen, end);
  }

  lemma SendGoesToUnlock(s: State, p: CallId)
    requires CallNext(s, p, SendEnds(Sent)).Some?
    ensures p in s.calls && s.calls[p].Held?
    ensures p in CallNext(s, p, SendEnds(Sent)).value.calls
    ensures CallNext(s, p, SendEnds(Sent)).value.calls[p] == Held(s.calls[p].gen, Unlocking(Sent))
  {
    match s.calls[p] { case Held(_, _) => case _ => }
  }

  // ---------------------------------------------------------------- shutdown starts no send

  predicate IsSending(s: State, p: CallId) {
    p in s.calls && s.calls[p].Held? && s.calls[p].held.Sending?
  }

  lemma ClosingStartsNoSend(s: State, step: Step, p: CallId)
    requires Structure(s) && s.shutdownClosing && Next(s, step).Some? && IsSending(Next(s, step).value, p)
    ensures IsSending(s, p)
  {
    if step.ByCaller? && step.p == p {
      OwnClosingStep(s, p, step.c);
    } else {
      NoNewCalls(s, step, p);
      PhaseStays(s, step, p);
    }
  }

  lemma OwnClosingStep(s: State, p: CallId, c: CallStep)
    requires Structure(s) && s.shutdownClosing && CallNext(s, p, c).Some?
    ensures !IsSending(CallNext(s, p, c).value, p)
  {
    if c.Admit? {
      AdmitEffect(s, p);
    } else if c.Register? {
      RegisterCases(s, p, c);
    } else {
      OwnStepToSending(s, p, c);
    }
  }

  lemma ClosingFlagStays(s: State, step: Step)
    requires Structure(s) && s.shutdownClosing && Next(s, step).Some?
    ensures Next(s, step).value.shutdownClosing
  {
    match step {
      case ByCaller(p, c) => CallKeepsClosingFlag(s, p, c);
      case ByLoopTask(l) => LoopKeepsClosingFlag(s, l);
      case ByShutdown => match s.shutdown { case Open => case WaitingDrain => case StoppingEvents => case _ => }
      case _ => BrokerFrame(s, step);
    }
  }

  lemma CallKeepsClosingFlag(s: State, p: CallId, c: CallStep)
    requires Structure(s) && CallNext(s, p, c).Some?
    ensures CallNext(s, p, c).value.shutdownClosing == s.shutdownClosing
  {
    if c.Admit? || c.Release? {
    } else if c.Register? {
      RegisterCases(s, p, c);
    } else {
      CallStepFrame(s, p, c);
    }
  }

  lemma LoopKeepsClosingFlag(s: State, l: LoopStep)
    requires LoopNext(s, l).Some?
    ensures LoopNext(s, l).value.shutdownClosing == s.shutdownClosing
  {
    match s.loop {
      case Serving(h, stage) => ServingFrame(s, h, stage, l);
      case Owning(h, stage) => OwningFrame(s, h, stage, l);
      case Recovering(attempt) => match l { case Skip => case Dial(_) => case Quit => case _ => }
      case GivenUp => case Exited =>
    }
  }

  /** Once shutdown is past draining, no run starts another send. */
  lemma {:induction false} NoSendAfterClosing(s: State, steps: seq<Step>, p: CallId)
    requires Structure(s) && s.shutdownClosing && From(s, steps).Some? && IsSending(From(s, steps).value, p)
    ensures IsSending(s, p)
  {
    if steps != [] {
      var n := |steps| - 1;
      FromKeepsStructure(s, steps[..n]);
      ClosingForever(s, steps[..n]);
      ClosingStartsNoSend(From(s, steps[..n]).value, steps[n], p);
      NoSendAfterClosing(s, steps[..n], p);
    }
  }

  lemma {:induction false} ClosingForever(s: State, steps: seq<Step>)
    requires Structure(s) && s.shutdownClosing && From(s, steps).Some?
    ensures From(s, steps).value.shutdownClosing
  {
    if steps != [] {
      var n := |steps| - 1;
      ClosingForever(s, steps[..n]);
      FromKeepsStructure(s, steps[..n]);
      ClosingFlagStays(From(s, steps[..n]).value, steps[n]);
    }
  }
}
