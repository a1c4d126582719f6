/**
  Where results come from (producer.go:655, 691-740, 797-825): nothing is reported that the broker did not say, a confirm
  that was taken is applied, a return is recorded or ends the generation, and a generation's end makes the rest ambiguous.
 */
module ProducerEvents {
  import opened Basics
  import opened TrackerSpec
  import Text
  import opened ProducerProtocol
  import opened ProducerStructure
  import opened ProducerFrames

  // ---------------------------------------------------------------- causes

  /** A return for the record's token arrived on `g`, and this is it under the registered route. */
  ghost predicate CameBack(steps: seq<Step>, g: GenId, r: Record, back: Return) {
    exists ret: Return ::
      ReturnArrives(g, Notice(Some(r.token), ret)) in steps && back == Return(ret.code, ret.reason, r.exchange, r.route)
  }

  /** What the record says was said by the broker on `g` during the run. */
  ghost predicate RecordCaused(steps: seq<Step>, g: GenId, r: Record) {
    && (r.returned.Some? ==> CameBack(steps, g, r, r.returned.value))
    && (r.outcome.Some? ==>
          match r.outcome.value.state
          case Confirmed => ConfirmArrives(g, Confirm(r.sequence, true)) in steps && r.outcome.value.ret.None?
          case Rejected => ConfirmArrives(g, Confirm(r.sequence, false)) in steps && r.outcome.value.ret.None?
          case Returned =>
            && (ConfirmArrives(g, Confirm(r.sequence, true)) in steps ||
                ConfirmArrives(g, Confirm(r.sequence, false)) in steps)
            && r.outcome.value.ret.Some? && CameBack(steps, g, r, r.outcome.value.ret.value)
          case NotSent => r.outcome.value.ret.None?
          case Ambiguous => r.outcome.value.ret.None?)
  }

  ghost predicate TableCaused(steps: seq<Step>, g: GenId, t: map<CallId, Record>) {
    forall q | q in t :: RecordCaused(steps, g, t[q])
  }

  ghost predicate GenCaused(steps: seq<Step>, g: GenId, gen: Generation) {
    && TableCaused(steps, g, gen.attempts)
    && (forall i | 0 <= i < |gen.confirmQueue| :: ConfirmArrives(g, gen.confirmQueue[i]) in steps)
    && (forall i | 0 <= i < |gen.returnQueue| :: ReturnArrives(g, gen.returnQueue[i]) in steps)
  }

  ghost predicate StageCaused(steps: seq<Step>, g: GenId, stage: ServeStage) {
    match stage
    case Draining(_, confirm) => ConfirmArrives(g, confirm) in steps
    case Confirming(_, confirm) => ConfirmArrives(g, confirm) in steps
    case _ => true
  }

  ghost predicate Caused(steps: seq<Step>, s: State) {
    && (forall g | 0 <= g < |s.gens| :: GenCaused(steps, g, s.gens[g]))
    && (s.loop.Serving? ==> StageCaused(steps, s.loop.gen, s.loop.serve))
  }

  // ---------------------------------------------------------------- a longer run causes as much

  lemma RecordStaysCaused(steps: seq<Step>, more: seq<Step>, g: GenId, r: Record)
    requires RecordCaused(steps, g, r) && forall x | x in steps :: x in more
    ensures RecordCaused(more, g, r)
  {
  }

  lemma StaysCaused(steps: seq<Step>, more: seq<Step>, s: State)
    requires Caused(steps, s) && forall x | x in steps :: x in more
    ensures Caused(more, s)
  {
    forall g | 0 <= g < |s.gens| ensures GenCaused(more, g, s.gens[g]) {
      assert GenCaused(steps, g, s.gens[g]);
      forall q | q in s.gens[g].attempts ensures RecordCaused(more, g, s.gens[g].attempts[q]) {
        RecordStaysCaused(steps, more, g, s.gens[g].attempts[q]);
      }
    }
  }

  // ---------------------------------------------------------------- events

  /** The broker said this on `g`, or it is the producer's own giving up. */
  predicate Heard(steps: seq<Step>, g: GenId, e: Event) {
    match e
    case ReturnSeen(token, ret) => ReturnArrives(g, Notice(Some(token), ret)) in steps
    case ConfirmSeen(sequence, ack) => ConfirmArrives(g, Confirm(sequence, ack)) in steps
    case Abandon(_, state) => Abandonable(state)
    case FailAll(state) => Abandonable(state)
  }

  lemma ReactStaysCaused(steps: seq<Step>, g: GenId, r: Record, e: Event)
    requires RecordCaused(steps, g, r) && Heard(steps, g, e)
    ensures RecordCaused(steps, g, React(r, e))
  {
    match e {
      case ReturnSeen(token, ret) =>
        if r.Live() && r.token == token {
          assert React(r, e).returned == Some(Return(ret.code, ret.reason, r.exchange, r.route));
        }
      case ConfirmSeen(_, _) => case Abandon(_, _) => case FailAll(_) =>
    }
  }

  lemma ApplyStaysCaused(steps: seq<Step>, g: GenId, t: map<CallId, Record>, e: Event)
    requires TableCaused(steps, g, t) && Heard(steps, g, e)
    ensures TableCaused(steps, g, Apply(t, e))
  {
    forall q | q in Apply(t, e) ensures RecordCaused(steps, g, Apply(t, e)[q]) {
      ReactStaysCaused(steps, g, t[q], e);
    }
  }

  /** One generation and possibly the loop change. */
  lemma OneGenStaysCaused(steps: seq<Step>, s: State, s': State, g: GenId)
    requires Caused(steps, s) && g < |s.gens| == |s'.gens| && s'.gens == s.gens[g := s'.gens[g]]
    requires GenCaused(steps, g, s'.gens[g]) && (s'.loop.Serving? ==> StageCaused(steps, s'.loop.gen, s'.loop.serve))
    ensures Caused(steps, s')
  {
  }

  lemma QuietCallStaysCaused(steps: seq<Step>, s: State, p: CallId, c: CallStep)
    requires Structure(s) && Caused(steps, s) && CallNext(s, p, c).Some? && !c.Admit? && !c.Release? && !c.Register?
    ensures Caused(steps, CallNext(s, p, c).value)
  {
    var s' := CallNext(s, p, c).value;
    var g := Concerns(s, p);
    CallStepFrame(s, p, c);
    CallAbandons(s, p, c);
    AbandonStaysCaused(steps, s, s', p, g);
    OneGenStaysCaused(steps, s, s', g);
  }

  lemma AbandonStaysCaused(steps: seq<Step>, s: State, s': State, p: CallId, g: GenId)
    requires OwnAbandon(s, s', p, g) && GenCaused(steps, g, s.gens[g]) && SameStreams(s.gens[g], s'.gens[g])
    ensures GenCaused(steps, g, s'.gens[g])
  {
    var t := s.gens[g].attempts;
    if s'.gens[g].attempts != t {
      var state :| Abandonable(state) && s'.gens[g].attempts == Apply(t, Abandon(t[p].sequence, state));
      ApplyStaysCaused(steps, g, t, Abandon(t[p].sequence, state));
    }
  }

  lemma InsertStaysCaused(steps: seq<Step>, s: State, p: CallId, record: Record)
    requires Caused(steps, s) && s.current < |s.gens| && record.Live() && record.returned.None?
    ensures Caused(steps, Inserted(s, p, record))
  {
    assert GenCaused(steps, s.current, s.gens[s.current]);
    OneGenStaysCaused(steps, s, Inserted(s, p, record), s.current);
  }

  lemma CallStaysCaused(steps: seq<Step>, s: State, p: CallId, c: CallStep)
    requires Structure(s) && Caused(steps, s) && CallNext(s, p, c).Some?
    ensures Caused(steps, CallNext(s, p, c).value)
  {
    if c.Admit? || c.Release? {
      BoundaryFrame(s, p, c);
    } else if c.Register? {
      RegisterCases(s, p, c);
      InsertStaysCaused(steps, s, p,
                        NewRecord(c.sequence, Text.Token(s.gens[s.current].session, c.sequence), c.exchange, c.route));
    } else {
      QuietCallStaysCaused(steps, s, p, c);
    }
  }

  lemma PoppedStaysCaused(steps: seq<Step>, g: GenId, gen: Generation)
    requires GenCaused(steps, g, gen) && gen.returnQueue != []
    ensures GenCaused(steps, g, Popped(gen))
  {
    var rest := gen.returnQueue[1..];
    assert forall i | 0 <= i < |rest| :: rest[i] == gen.returnQueue[i + 1];
    if Correlates(gen) {
      var notice := gen.returnQueue[0];
      assert ReturnArrives(g, gen.returnQueue[0]) in steps;
      assert notice == Notice(Some(notice.token.value), notice.ret);
      ApplyStaysCaused(steps, g, gen.attempts, ReturnSeen(notice.token.value, notice.ret));
    }
  }

  lemma ReturnTakenStaysCaused(steps: seq<Step>, s: State, g: GenId, stay: ServeStage)
    requires Caused(steps, s) && g < |s.gens| && s.gens[g].returnQueue != [] && StageCaused(steps, g, stay)
    ensures Caused(steps, ReturnTaken(s, g, stay))
  {
    PoppedStaysCaused(steps, g, s.gens[g]);
    OneGenStaysCaused(steps, s, ReturnTaken(s, g, stay), g);
  }

  lemma NotifiedStaysCaused(steps: seq<Step>, s: State, g: GenId, e: Event, loop: Loop)
    requires Caused(steps, s) && g < |s.gens| && Heard(steps, g, e)
    requires loop.Serving? ==> StageCaused(steps, loop.gen, loop.serve)
    ensures Caused(steps, LoopNotified(s, g, e, loop))
  {
    assert GenCaused(steps, g, s.gens[g]);
    ApplyStaysCaused(steps, g, s.gens[g].attempts, e);
    OneGenStaysCaused(steps, s, LoopNotified(s, g, e, loop), g);
  }

  lemma FailedAllStaysCaused(steps: seq<Step>, s: State, g: GenId, loop: Loop)
    requires Caused(steps, s) && g < |s.gens| && (loop.Serving? ==> StageCaused(steps, loop.gen, loop.serve))
    ensures Caused(steps, LoopFailedAll(s, g, loop))
  {
    assert GenCaused(steps, g, s.gens[g]);
    ApplyStaysCaused(steps, g, s.gens[g].attempts, FailAll(Ambiguous));
    OneGenStaysCaused(steps, s, LoopFailedAll(s, g, loop), g);
  }

  lemma TakeConfirmStaysCaused(steps: seq<Step>, s: State, g: GenId, stage: ServeStage)
    requires Caused(steps, s) && g < |s.gens| && ServingNext(s, g, stage, TakeConfirm).Some?
    ensures Caused(steps, ServingNext(s, g, stage, TakeConfirm).value)
  {
    var gen := s.gens[g];
    assert GenCaused(steps, g, gen);
    assert ConfirmArrives(g, gen.confirmQueue[0]) in steps;
    var rest := gen.confirmQueue[1..];
    assert forall i | 0 <= i < |rest| :: rest[i] == gen.confirmQueue[i + 1];
    OneGenStaysCaused(steps, s, ServingNext(s, g, stage, TakeConfirm).value, g);
  }

  lemma ServingStaysCaused(steps: seq<Step>, s: State, g: GenId, stage: ServeStage, l: LoopStep)
    requires Caused(steps, s) && g < |s.gens| && s.loop == Serving(g, stage) && ServingNext(s, g, stage, l).Some?
    ensures Caused(steps, ServingNext(s, g, stage, l).value)
  {
    match l {
      case TakeReturn => ReturnTakenStaysCaused(steps, s, g, stage);
      case DrainOne => ReturnTakenStaysCaused(steps, s, g, stage);
      case TakeConfirm => TakeConfirmStaysCaused(steps, s, g, stage);
      case ApplyConfirm =>
        assert stage.confirm == Confirm(stage.confirm.sequence, stage.confirm.ack);
        NotifiedStaysCaused(steps, s, g, ConfirmSeen(stage.confirm.sequence, stage.confirm.ack),
                            Serving(g, Selecting(stage.listening)));
      case FailEach => FailedAllStaysCaused(steps, s, g, Serving(g, ClosingOld));
      case StopFailAll => FailedAllStaysCaused(steps, s, g, Exited);
      case _ => QuietServingStaysCaused(steps, s, g, stage, l);
    }
  }

  lemma QuietServingStaysCaused(steps: seq<Step>, s: State, g: GenId, stage: ServeStage, l: LoopStep)
    requires Caused(steps, s) && g < |s.gens| && s.loop == Serving(g, stage) && ServingNext(s, g, stage, l).Some?
    requires l.ReturnsEnd? || l.Break? || l.Cancelled? || l.DrainDone? || l.MarkEnd? || l.CloseOld? || l.FinishRecovered? ||
             !(l.TakeReturn? || l.DrainOne? || l.TakeConfirm? || l.ApplyConfirm? || l.FailEach? || l.StopFailAll?)
    ensures Caused(steps, ServingNext(s, g, stage, l).value)
  {
    match l {
      case ReturnsEnd => case Break => case Cancelled => case DrainDone => case MarkEnd => case CloseOld =>
      case FinishRecovered => case _ =>
    }
  }

  lemma OwningStaysCaused(steps: seq<Step>, s: State, g: GenId, stage: OwnStage, l: LoopStep)
    requires Caused(steps, s) && g < |s.gens| && OwningNext(s, g, stage, l).Some?
    ensures Caused(steps, OwningNext(s, g, stage, l).value)
  {
    OwningFrame(s, g, stage, l);
    assert GenCaused(steps, g, s.gens[g]);
    var s' := OwningNext(s, g, stage, l).value;
    assert s'.loop.Serving? ==> s'.loop.serve.Rejoined? by {
      match l { case SetupFails => case SetupWorks => case LockInstall => case Install => case DiscardClose => case _ => }
    }
    OneGenStaysCaused(steps, s, s', g);
  }

  lemma RecoveringStaysCaused(steps: seq<Step>, s: State, attempt: nat, l: LoopStep)
    requires Caused(steps, s) && RecoveringNext(s, attempt, l).Some?
    ensures Caused(steps, RecoveringNext(s, attempt, l).value)
  {
    match l { case Skip => case Dial(_) => case Quit => case _ => }
  }

  lemma LoopStaysCaused(steps: seq<Step>, s: State, l: LoopStep)
    requires Caused(steps, s) && LoopNext(s, l).Some?
    ensures Caused(steps, LoopNext(s, l).value)
  {
    match s.loop {
      case Serving(g, stage) => ServingStaysCaused(steps, s, g, stage, l);
      case Owning(g, stage) => OwningStaysCaused(steps, s, g, stage, l);
      case Recovering(attempt) => RecoveringStaysCaused(steps, s, attempt, l);
      case GivenUp => case Exited =>
    }
  }

  /** A broker step is its own cause. */
  lemma BrokerStaysCaused(steps: seq<Step>, s: State, step: Step)
    requires Caused(steps, s) && BrokerStep(step) && BrokerNext(s, step).Some? && step in steps
    ensures Caused(steps, BrokerNext(s, step).value)
  {
    BrokerFrame(s, step);
    var s' := BrokerNext(s, step).value;
    ArrivalIsCaused(steps, s, step);
    OneGenStaysCaused(steps, s, s', step.g);
  }

  lemma ArrivalIsCaused(steps: seq<Step>, s: State, step: Step)
    requires Caused(steps, s) && BrokerStep(step) && BrokerNext(s, step).Some? && step in steps
    ensures step.g < |s.gens| == |BrokerNext(s, step).value.gens|
    ensures GenCaused(steps, step.g, BrokerNext(s, step).value.gens[step.g])
  {
    assert GenCaused(steps, step.g, s.gens[step.g]);
    match step {
      case ReturnArrives(_, _) => case ConfirmArrives(_, _) => case ReturnStreamCloses(_) =>
      case CloseStarts(_) => case CloseEnds(_) =>
    }
  }

  lemma StepStaysCaused(steps: seq<Step>, s: State, step: Step)
    requires Structure(s) && Caused(steps, s) && Next(s, step).Some? && step in steps
    ensures Caused(steps, Next(s, step).value)
  {
    match step {
      case ByCaller(p, c) => CallStaysCaused(steps, s, p, c);
      case ByLoopTask(l) => LoopStaysCaused(steps, s, l);
      case ByShutdown => ShutdownFrame(s);
      case _ => BrokerStaysCaused(steps, s, step);
    }
  }

  lemma {:induction false} RunCauses(c: Config, steps: seq<Step>)
    requires After(c, steps).Some?
    ensures Caused(steps, After(c, steps).value)
  {
    var init := Init(c.maximum, c.maxAttempts, c.session);
    if steps != [] {
      var n := |steps| - 1;
      RunCauses(c, steps[..n]);
      FromKeepsStructure(init, steps[..n]);
      StaysCaused(steps[..n], steps, After(c, steps[..n]).value);
      assert steps[n] in steps;
      StepStaysCaused(steps, After(c, steps[..n]).value, steps[n]);
    }
  }

  /**
    Over every run: an attempt is Confirmed only if a positive confirm of its sequence arrived on its generation,
    Rejected only if a negative one did, and Returned only if a confirm did and a return with its token did, whose code
    and reason are reported under the registered route.
   */
  lemma OutcomeHasACause(c: Config, steps: seq<Step>, s: State, g: GenId, q: CallId)
    requires After(c, steps) == Some(s) && g < |s.gens| && q in s.gens[g].attempts
    ensures RecordCaused(steps, g, s.gens[g].attempts[q])
  {
    RunCauses(c, steps);
    assert GenCaused(steps, g, s.gens[g]);
  }

  // ---------------------------------------------------------------- a taken confirm is applied

  predicate Handles(stage: ServeStage, confirm: Confirm) {
    || (stage.Draining? && stage.confirm == confirm) || (stage.Confirming? && stage.confirm == confirm)
    || stage.Ending? || stage.FailingAll?
  }

  /** As long as the attempt is live, the loop is on its way to apply the confirm or to end the generation. */
  ghost predicate Pending(s: State, g: GenId, q: CallId, confirm: Confirm) {
    && g < |s.gens| && q in s.gens[g].attempts && s.gens[g].attempts[q].sequence == confirm.sequence
    && (s.gens[g].attempts[q].Live() ==> s.loop.Serving? && s.loop.gen == g && Handles(s.loop.serve, confirm))
  }

  lemma ConfirmCompletes(s: State, g: GenId, confirm: Confirm, loop: Loop, q: CallId)
    requires g < |s.gens| && q in s.gens[g].attempts && s.gens[g].attempts[q].sequence == confirm.sequence
    ensures !LoopNotified(s, g, ConfirmSeen(confirm.sequence, confirm.ack), loop).gens[g].attempts[q].Live()
  {
  }

  lemma EndCompletes(s: State, g: GenId, loop: Loop, q: CallId)
    requires g < |s.gens| && q in s.gens[g].attempts
    ensures !LoopFailedAll(s, g, loop).gens[g].attempts[q].Live()
  {
  }

  lemma TakenHandles(s: State, g: GenId, stage: ServeStage, confirm: Confirm)
    requires g < |s.gens| && s.gens[g].returnQueue != [] && Handles(stage, confirm)
    ensures ReturnTaken(s, g, stage).loop.Serving? && ReturnTaken(s, g, stage).loop.gen == g
    ensures Handles(ReturnTaken(s, g, stage).loop.serve, confirm)
  {
  }

  lemma QuietHandles(s: State, g: GenId, stage: ServeStage, l: LoopStep, confirm: Confirm)
    requires g < |s.gens| && Handles(stage, confirm) && (l.DrainDone? || l.MarkEnd?) && ServingNext(s, g, stage, l).Some?
    ensures ServingNext(s, g, stage, l).value.loop.Serving? && ServingNext(s, g, stage, l).value.loop.gen == g
    ensures Handles(ServingNext(s, g, stage, l).value.loop.serve, confirm)
  {
    match l { case DrainDone => case MarkEnd => }
  }

  /** A handled attempt is completed by this step, or stays handled. */
  lemma ServingKeepsPending(s: State, g: GenId, stage: ServeStage, l: LoopStep, q: CallId, confirm: Confirm)
    requires g < |s.gens| && Handles(stage, confirm) && ServingNext(s, g, stage, l).Some?
    requires q in s.gens[g].attempts && s.gens[g].attempts[q].sequence == confirm.sequence
    ensures var t := ServingNext(s, g, stage, l).value;
      && g < |t.gens|
      && ((q in t.gens[g].attempts && !t.gens[g].attempts[q].Live()) ||
          (t.loop.Serving? && t.loop.gen == g && Handles(t.loop.serve, confirm)))
  {
    match l {
      case DrainOne => TakenHandles(s, g, stage, confirm);
      case DrainDone => QuietHandles(s, g, stage, l, confirm);
      case MarkEnd => QuietHandles(s, g, stage, l, confirm);
      case ApplyConfirm => ConfirmCompletes(s, g, confirm, Serving(g, Selecting(stage.listening)), q);
      case FailEach => EndCompletes(s, g, Serving(g, ClosingOld), q);
      case _ =>
    }
  }

  lemma LoopKeepsPending(s: State, l: LoopStep, g: GenId, q: CallId, confirm: Confirm)
    requires Structure(s) && Pending(s, g, q, confirm) && LoopNext(s, l).Some?
    ensures g < |LoopNext(s, l).value.gens| && q in LoopNext(s, l).value.gens[g].attempts
    ensures LoopNext(s, l).value.gens[g].attempts[q].Live() ==>
      LoopNext(s, l).value.loop.Serving? && LoopNext(s, l).value.loop.gen == g &&
      Handles(LoopNext(s, l).value.loop.serve, confirm)
  {
    LoopEvolves(s, l, g);
    if s.gens[g].attempts[q].Live() {
      ServingKeepsPending(s, g, s.loop.serve, l, q, confirm);
    }
  }

  lemma StepKeepsPending(s: State, step: Step, g: GenId, q: CallId, confirm: Confirm)
    requires Structure(s) && Pending(s, g, q, confirm) && Next(s, step).Some?
    ensures Pending(Next(s, step).value, g, q, confirm)
  {
    StepEvolves(s, step, g);
    SequenceStays(s, step, g, q);
    if step.ByLoopTask? {
      LoopKeepsPending(s, step.l, g, q, confirm);
    } else {
      LoopStays(s, step);
    }
  }

  lemma LoopStays(s: State, step: Step)
    requires Structure(s) && Next(s, step).Some? && !step.ByLoopTask?
    ensures Next(s, step).value.loop == s.loop
  {
    match step {
      case ByCaller(p, c) => CallKeepsLoop(s, p, c);
      case ByShutdown => ShutdownFrame(s);
      case _ => BrokerFrame(s, step);
    }
  }

  lemma CallKeepsLoop(s: State, p: CallId, c: CallStep)
    requires Structure(s) && CallNext(s, p, c).Some?
    ensures CallNext(s, p, c).value.loop == s.loop
  {
    if c.Admit? || c.Release? {
      BoundaryFrame(s, p, c);
    } else if c.Register? {
      RegisterCases(s, p, c);
    } else {
      CallStepFrame(s, p, c);
    }
  }

  /** Correlation data of an attempt never changes. */
  lemma SequenceStays(s: State, step: Step, g: GenId, q: CallId)
    requires Structure(s) && Next(s, step).Some? && g < |s.gens| && q in s.gens[g].attempts
    ensures g < |Next(s, step).value.gens| && q in Next(s, step).value.gens[g].attempts
    ensures Next(s, step).value.gens[g].attempts[q].sequence == s.gens[g].attempts[q].sequence
  {
    StepEvolves(s, step, g);
  }

  lemma {:induction false} PendingForever(s: State, steps: seq<Step>, g: GenId, q: CallId, confirm: Confirm)
    requires Structure(s) && Pending(s, g, q, confirm) && From(s, steps).Some?
    ensures Pending(From(s, steps).value, g, q, confirm)
  {
    if steps != [] {
      var n := |steps| - 1;
      PendingForever(s, steps[..n], g, q, confirm);
      FromKeepsStructure(s, steps[..n]);
      StepKeepsPending(From(s, steps[..n]).value, steps[n], g, q, confirm);
    }
  }

  /**
    A confirm the loop has taken is not lost: in every continuation the attempt of its sequence is completed, or the
    loop is still about to apply that confirm, or it is ending the generation, which completes the attempt too.
   */
  lemma TakenConfirmIsApplied(s: State, taken: State, later: seq<Step>, end: State, q: CallId)
    requires Reachable(s) && s.loop.Serving? && LoopNext(s, TakeConfirm) == Some(taken) && From(taken, later) == Some(end)
    requires s.loop.gen < |s.gens| && s.gens[s.loop.gen].confirmQueue != []
    requires q in s.gens[s.loop.gen].attempts
    requires s.gens[s.loop.gen].attempts[q].sequence == s.gens[s.loop.gen].confirmQueue[0].sequence
    ensures Pending(end, s.loop.gen, q, s.gens[s.loop.gen].confirmQueue[0])
  {
    ReachableStructure(s);
    StepKeepsStructure(s, ByLoopTask(TakeConfirm));
    PendingForever(taken, later, s.loop.gen, q, s.gens[s.loop.gen].confirmQueue[0]);
  }

  // ---------------------------------------------------------------- returns and the end of a generation

  predicate TakesReturn(s: State, l: LoopStep) {
    && s.loop.Serving? && s.loop.gen < |s.gens| && s.gens[s.loop.gen].returnQueue != []
    && ((l.TakeReturn? && s.loop.serve.Selecting? && s.loop.serve.listening) ||
        (l.DrainOne? && s.loop.serve.Draining? && s.loop.serve.listening))
  }

  /** What becomes of the generation's first return, seen by the attempt of `q`. */
  ghost predicate Disposed(gen: Generation, gen': Generation, q: CallId, ends: bool)
    requires gen.returnQueue != [] && q in gen.attempts
  {
    var notice := gen.returnQueue[0];
    var r := gen.attempts[q];
    && q in gen'.attempts && gen'.returnQueue == gen.returnQueue[1..]
    && (ends <==> notice.token.None? || !LiveToken(gen, notice.token.value))
    && (ends ==> gen'.attempts == gen.attempts)
    && (notice.token.Some? && r.Live() && r.token == notice.token.value ==>
          gen'.attempts[q].returned == Some(Return(notice.ret.code, notice.ret.reason, r.exchange, r.route)))
  }

  lemma ReturnIsTaken(s: State, l: LoopStep)
    requires TakesReturn(s, l)
    ensures LoopNext(s, l) == Some(ReturnTaken(s, s.loop.gen, s.loop.serve))
  {
    match l { case TakeReturn => case DrainOne => case _ => }
  }

  lemma PoppedDisposes(gen: Generation, q: CallId)
    requires gen.returnQueue != [] && q in gen.attempts
    ensures Disposed(gen, Popped(gen), q, !Correlates(gen))
  {
    if Correlates(gen) {
      RecordedReturn(gen, q);
    }
  }

  /**
    A return that carries the token of a live attempt is recorded on it under the registered route and the loop goes on;
    any other return changes no attempt and ends the generation.
   */
  lemma ReturnIsRecordedOrEnds(s: State, l: LoopStep, q: CallId)
    requires TakesReturn(s, l) && q in s.gens[s.loop.gen].attempts
    ensures LoopNext(s, l).Some? && |LoopNext(s, l).value.gens| == |s.gens|
    ensures LoopNext(s, l).value.loop == s.loop || LoopNext(s, l).value.loop == Serving(s.loop.gen, Ending)
    ensures Disposed(s.gens[s.loop.gen], LoopNext(s, l).value.gens[s.loop.gen], q,
                     LoopNext(s, l).value.loop == Serving(s.loop.gen, Ending))
  {
    ReturnIsTaken(s, l);
    PoppedDisposes(s.gens[s.loop.gen], q);
  }

  lemma RecordedReturn(gen: Generation, q: CallId)
    requires gen.returnQueue != [] && Correlates(gen) && q in gen.attempts
    ensures q in Popped(gen).attempts
    ensures gen.attempts[q].Live() && gen.attempts[q].token == gen.returnQueue[0].token.value ==>
      Popped(gen).attempts[q].returned ==
        Some(Return(gen.returnQueue[0].ret.code, gen.returnQueue[0].ret.reason, gen.attempts[q].exchange, gen.attempts[q].route))
  {
    var e := ReturnSeen(gen.returnQueue[0].token.value, gen.returnQueue[0].ret);
    assert Popped(gen).attempts[q] == React(gen.attempts[q], e);
  }

  lemma EndStep(s: State, l: LoopStep)
    requires s.loop.Serving? && s.loop.gen < |s.gens| && (l.FailEach? || l.StopFailAll?) && LoopNext(s, l).Some?
    ensures LoopNext(s, l).value ==
            LoopFailedAll(s, s.loop.gen, if l.FailEach? then Serving(s.loop.gen, ClosingOld) else Exited)
  {
  }

  /** The end of a generation completes every live attempt as ambiguous, without a return, and no other. */
  lemma EndMakesAmbiguous(s: State, l: LoopStep, q: CallId)
    requires s.loop.Serving? && s.loop.gen < |s.gens| && q in s.gens[s.loop.gen].attempts
    requires (l.FailEach? || l.StopFailAll?) && LoopNext(s, l).Some?
    ensures |LoopNext(s, l).value.gens| == |s.gens| && q in LoopNext(s, l).value.gens[s.loop.gen].attempts
    ensures LoopNext(s, l).value.gens[s.loop.gen].attempts[q].outcome ==
            if s.gens[s.loop.gen].attempts[q].outcome.Some? then s.gens[s.loop.gen].attempts[q].outcome
            else Some(PublishResult(Ambiguous, None))
    ensures l.FailEach? ==> LoopNext(s, l).value.loop == Serving(s.loop.gen, ClosingOld)
    ensures l.StopFailAll? ==> LoopNext(s, l).value.loop.Exited?
  {
    EndStep(s, l);
    EndRecord(s, s.loop.gen, LoopNext(s, l).value.loop, q);
  }

  lemma EndRecord(s: State, g: GenId, loop: Loop, q: CallId)
    requires g < |s.gens| && q in s.gens[g].attempts
    ensures q in LoopFailedAll(s, g, loop).gens[g].attempts
    ensures LoopFailedAll(s, g, loop).gens[g].attempts[q].outcome ==
            if s.gens[g].attempts[q].outcome.Some? then s.gens[g].attempts[q].outcome
            else Some(PublishResult(Ambiguous, None))
  {
    assert LoopFailedAll(s, g, loop).gens[g].attempts[q] == React(s.gens[g].attempts[q], FailAll(Ambiguous));
  }
}
