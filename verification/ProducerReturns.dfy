/**
  A mandatory return enqueued before the confirm decides the outcome (producer.go:700-723, 797-825;
  publish_tracker.go:80-111). Returns and confirms arrive on two separate queues which the event loop reads in any
  order; the proof rests on draining the return queue before every confirm is applied and on ending the
  generation when a return cannot be correlated.
 */
module ProducerReturns {
  import opened Basics
  import opened TrackerSpec
  import Text
  import opened ProducerProtocol
  import opened ProducerStructure
  import opened ProducerFrames

  predicate Definitive(outcome: Option<PublishResult>) {
    outcome.Some? && outcome.value.state in {Confirmed, Rejected}
  }

  /** A return for this record is still queued. */
  ghost predicate Queued(gen: Generation, r: Record) {
    exists i | 0 <= i < |gen.returnQueue| :: gen.returnQueue[i].token == Some(r.token)
  }

  ghost predicate RecordOk(gen: Generation, q: CallId)
    requires q in gen.attempts
  {
    var r := gen.attempts[q];
    && (Definitive(r.outcome) ==> q !in gen.early && r.sequence in gen.confirmSeen)
    && (q in gen.early && r.Live() ==> r.returned.Some? || Queued(gen, r))
  }

  ghost predicate GenOk(gen: Generation) {
    && gen.early <= gen.attempts.Keys
    && (forall q | q in gen.attempts :: RecordOk(gen, q))
    && (forall i | 0 <= i < |gen.confirmQueue| :: gen.confirmQueue[i].sequence in gen.confirmSeen)
  }

  /** Every early attempt of this sequence has its return recorded already. */
  ghost predicate Prepared(gen: Generation, sequence: nat) {
    forall q | q in gen.early && q in gen.attempts && gen.attempts[q].Live() && gen.attempts[q].sequence == sequence ::
      gen.attempts[q].returned.Some?
  }

  ghost predicate StageOk(gen: Generation, stage: ServeStage) {
    match stage
    case Selecting(listening) => listening || (gen.returnQueue == [] && gen.returnsClosed)
    case Draining(listening, confirm) =>
      (listening || (gen.returnQueue == [] && gen.returnsClosed)) && confirm.sequence in gen.confirmSeen
    case Confirming(listening, confirm) =>
      && (listening || (gen.returnQueue == [] && gen.returnsClosed)) && confirm.sequence in gen.confirmSeen
      && Prepared(gen, confirm.sequence)
    case _ => true
  }

  ghost predicate ReturnsOk(s: State) {
    && (forall g | 0 <= g < |s.gens| :: GenOk(s.gens[g]))
    && (s.loop.Serving? && s.loop.gen < |s.gens| ==> StageOk(s.gens[s.loop.gen], s.loop.serve))
  }

  // ---------------------------------------------------------------- one generation

  lemma AbandonKeepsGen(gen: Generation, e: Event, stage: ServeStage)
    requires GenOk(gen) && (e.Abandon? || e.FailAll?) && StageOk(gen, stage)
    ensures GenOk(gen.(attempts := Apply(gen.attempts, e))) && StageOk(gen.(attempts := Apply(gen.attempts, e)), stage)
  {
    var gen' := gen.(attempts := Apply(gen.attempts, e));
    forall q | q in gen'.attempts ensures RecordOk(gen', q) {
      assert RecordOk(gen, q);
    }
  }

  lemma ReturnKeepsGen(gen: Generation, token: Bytes, ret: Return)
    requires GenOk(gen) && gen.returnQueue != [] && gen.returnQueue[0].token == Some(token)
    ensures GenOk(gen.(returnQueue := gen.returnQueue[1..], attempts := Apply(gen.attempts, ReturnSeen(token, ret))))
  {
    var gen' := gen.(returnQueue := gen.returnQueue[1..], attempts := Apply(gen.attempts, ReturnSeen(token, ret)));
    forall q | q in gen'.attempts ensures RecordOk(gen', q) {
      assert RecordOk(gen, q);
      var r := gen.attempts[q];
      if Queued(gen, r) && r.token != token {
        var i :| 0 <= i < |gen.returnQueue| && gen.returnQueue[i].token == Some(r.token);
        assert gen'.returnQueue[i - 1] == gen.returnQueue[i];
      }
    }
  }

  /** Dropping an uncorrelated return loses nothing: no live attempt carries its token. */
  lemma UncorrelatedKeepsGen(gen: Generation)
    requires GenOk(gen) && gen.returnQueue != []
    requires !Correlates(gen)
    ensures GenOk(gen.(returnQueue := gen.returnQueue[1..]))
  {
    var gen' := gen.(returnQueue := gen.returnQueue[1..]);
    forall q | q in gen'.attempts ensures RecordOk(gen', q) {
      assert RecordOk(gen, q);
      var r := gen.attempts[q];
      if r.Live() && Queued(gen, r) {
        var i :| 0 <= i < |gen.returnQueue| && gen.returnQueue[i].token == Some(r.token);
        assert gen'.returnQueue[i - 1] == gen.returnQueue[i];
      }
    }
  }

  lemma ConfirmKeepsGen(gen: Generation, confirm: Confirm)
    requires GenOk(gen) && confirm.sequence in gen.confirmSeen && Prepared(gen, confirm.sequence)
    ensures GenOk(gen.(attempts := Apply(gen.attempts, ConfirmSeen(confirm.sequence, confirm.ack))))
  {
    var gen' := gen.(attempts := Apply(gen.attempts, ConfirmSeen(confirm.sequence, confirm.ack)));
    forall q | q in gen'.attempts ensures RecordOk(gen', q) {
      assert RecordOk(gen, q);
    }
  }

  /** An empty return queue means that every early return has been recorded. */
  lemma DrainedPrepares(gen: Generation, sequence: nat)
    requires GenOk(gen) && gen.returnQueue == []
    ensures Prepared(gen, sequence)
  {
    forall q | q in gen.early && q in gen.attempts ensures RecordOk(gen, q) {
    }
  }

  lemma ArrivalKeepsGen(gen: Generation, notice: Notice, stage: ServeStage)
    requires GenOk(gen) && !gen.returnsClosed && StageOk(gen, stage)
    ensures var gen' := gen.(returnQueue := gen.returnQueue + [notice], early := gen.early + EarlyFor(gen, notice));
            GenOk(gen') && StageOk(gen', stage)
  {
    var gen' := gen.(returnQueue := gen.returnQueue + [notice], early := gen.early + EarlyFor(gen, notice));
    assert gen'.returnQueue[|gen.returnQueue|] == notice;
    forall q | q in gen'.attempts ensures RecordOk(gen', q) {
      assert RecordOk(gen, q);
      if Queued(gen, gen.attempts[q]) {
        var i :| 0 <= i < |gen.returnQueue| && gen.returnQueue[i].token == Some(gen.attempts[q].token);
        assert gen'.returnQueue[i] == gen.returnQueue[i];
      }
    }
  }

  lemma ConfirmArrivalKeepsGen(gen: Generation, confirm: Confirm, stage: ServeStage)
    requires GenOk(gen) && StageOk(gen, stage)
    ensures var gen' := gen.(confirmQueue := gen.confirmQueue + [confirm],
                             confirmSeen := gen.confirmSeen + {confirm.sequence});
            GenOk(gen') && StageOk(gen', stage)
  {
    var gen' := gen.(confirmQueue := gen.confirmQueue + [confirm], confirmSeen := gen.confirmSeen + {confirm.sequence});
    forall q | q in gen'.attempts ensures RecordOk(gen', q) {
      assert RecordOk(gen, q);
      assert Queued(gen, gen.attempts[q]) ==> Queued(gen', gen'.attempts[q]);
    }
  }

  lemma InsertKeepsGen(gen: Generation, p: CallId, r: Record, stage: ServeStage)
    requires GenOk(gen) && p !in gen.attempts && r.outcome.None? && StageOk(gen, stage)
    ensures GenOk(gen.(attempts := gen.attempts[p := r])) && StageOk(gen.(attempts := gen.attempts[p := r]), stage)
  {
    var gen' := gen.(attempts := gen.attempts[p := r]);
    forall q | q in gen'.attempts ensures RecordOk(gen', q) {
      if q != p {
        assert RecordOk(gen, q);
        assert Queued(gen, gen.attempts[q]) ==> Queued(gen', gen'.attempts[q]);
      }
    }
  }

  /** Fields that returns and confirms do not look at. */
  lemma QuietGen(gen: Generation, gen': Generation, stage: ServeStage)
    requires GenOk(gen) && StageOk(gen, stage) && SameStreams(gen, gen') && gen'.attempts == gen.attempts
    ensures GenOk(gen') && StageOk(gen', stage)
  {
    forall q | q in gen'.attempts ensures RecordOk(gen', q) {
      assert RecordOk(gen, q);
      assert Queued(gen, gen.attempts[q]) ==> Queued(gen', gen'.attempts[q]);
    }
  }

  // ---------------------------------------------------------------- steps

  /** The loop's stage at generation `g`, or one that asks for nothing. */
  function StageAt(s: State, g: GenId): ServeStage {
    if s.loop.Serving? && s.loop.gen == g then s.loop.serve else Selecting(true)
  }

  lemma OneGenKeepsReturns(s: State, s': State, g: GenId)
    requires ReturnsOk(s) && g < |s.gens| && |s'.gens| == |s.gens| && s'.gens == s.gens[g := s'.gens[g]]
    requires GenOk(s'.gens[g])
    requires s'.loop.Serving? ==>
               (s'.loop.gen == g && StageOk(s'.gens[g], s'.loop.serve)) || (s'.loop == s.loop && s'.loop.gen != g)
    ensures ReturnsOk(s')
  {
  }

  lemma QuietCallKeepsReturns(s: State, p: CallId, c: CallStep)
    requires Structure(s) && ReturnsOk(s) && CallNext(s, p, c).Some? && !c.Admit? && !c.Release? && !c.Register?
    ensures ReturnsOk(CallNext(s, p, c).value)
  {
    var s' := CallNext(s, p, c).value;
    var g := Concerns(s, p);
    CallStepFrame(s, p, c);
    CallAbandons(s, p, c);
    var gen := s.gens[g];
    if s'.gens[g].attempts == gen.attempts {
      QuietGen(gen, s'.gens[g], StageAt(s, g));
    } else {
      var state :| Abandonable(state) && s'.gens[g].attempts == Apply(gen.attempts, Abandon(gen.attempts[p].sequence, state));
      AbandonKeepsGen(gen, Abandon(gen.attempts[p].sequence, state), StageAt(s, g));
      QuietGen(gen.(attempts := s'.gens[g].attempts), s'.gens[g], StageAt(s, g));
    }
    OneGenKeepsReturns(s, s', g);
  }

  lemma InsertKeepsReturns(s: State, p: CallId, record: Record)
    requires ReturnsOk(s) && s.current < |s.gens| && p !in s.gens[s.current].attempts && record.outcome.None?
    ensures ReturnsOk(Inserted(s, p, record))
  {
    var gen := s.gens[s.current];
    InsertKeepsGen(gen, p, record, StageAt(s, s.current));
    QuietGen(gen.(attempts := gen.attempts[p := record]), Inserted(s, p, record).gens[s.current], StageAt(s, s.current));
    OneGenKeepsReturns(s, Inserted(s, p, record), s.current);
  }

  lemma NotYetRegistered(s: State, p: CallId)
    requires Structure(s) && p in s.calls && s.calls[p].Entered?
    ensures p !in s.gens[s.current].attempts
  {
    assert p in s.gens[s.current].attempts ==> AttemptOk(s, s.current, p);
  }

  lemma RegisterKeepsReturns(s: State, p: CallId, c: CallStep)
    requires Structure(s) && ReturnsOk(s) && CallNext(s, p, c).Some? && c.Register?
    ensures ReturnsOk(CallNext(s, p, c).value)
  {
    RegisterCases(s, p, c);
    NotYetRegistered(s, p);
    InsertKeepsReturns(s, p, NewRecord(c.sequence, Text.Token(s.gens[s.current].session, c.sequence), c.exchange, c.route));
  }

  lemma CallKeepsReturns(s: State, p: CallId, c: CallStep)
    requires Structure(s) && ReturnsOk(s) && CallNext(s, p, c).Some?
    ensures ReturnsOk(CallNext(s, p, c).value)
  {
    if c.Admit? || c.Release? {
      BoundaryFrame(s, p, c);
    } else if c.Register? {
      RegisterKeepsReturns(s, p, c);
    } else {
      QuietCallKeepsReturns(s, p, c);
    }
  }

  lemma CorrelatedKeepsReturns(s: State, g: GenId, stay: ServeStage)
    requires ReturnsOk(s) && g < |s.gens| && s.gens[g].returnQueue != [] && Correlates(s.gens[g])
    requires (stay.Selecting? || stay.Draining?) && stay.listening && StageOk(s.gens[g], stay)
    ensures ReturnsOk(ReturnTaken(s, g, stay))
  {
    ReturnKeepsGen(s.gens[g], s.gens[g].returnQueue[0].token.value, s.gens[g].returnQueue[0].ret);
    OneGenKeepsReturns(s, ReturnTaken(s, g, stay), g);
  }

  lemma ReturnTakenKeepsReturns(s: State, g: GenId, stay: ServeStage)
    requires ReturnsOk(s) && g < |s.gens| && s.gens[g].returnQueue != []
    requires (stay.Selecting? || stay.Draining?) && stay.listening && StageOk(s.gens[g], stay)
    ensures ReturnsOk(ReturnTaken(s, g, stay))
  {
    if Correlates(s.gens[g]) {
      CorrelatedKeepsReturns(s, g, stay);
    } else {
      UncorrelatedKeepsGen(s.gens[g]);
      OneGenKeepsReturns(s, ReturnTaken(s, g, stay), g);
    }
  }

  lemma TakeConfirmKeepsReturns(s: State, g: GenId, stage: ServeStage)
    requires ReturnsOk(s) && g < |s.gens| && stage.Selecting? && StageOk(s.gens[g], stage)
    requires ServingNext(s, g, stage, TakeConfirm).Some?
    ensures ReturnsOk(ServingNext(s, g, stage, TakeConfirm).value)
  {
    var gen := s.gens[g];
    var gen' := gen.(confirmQueue := gen.confirmQueue[1..]);
    forall q | q in gen'.attempts ensures RecordOk(gen', q) {
      assert RecordOk(gen, q);
      assert Queued(gen, gen.attempts[q]) ==> Queued(gen', gen'.attempts[q]);
    }
    OneGenKeepsReturns(s, ServingNext(s, g, stage, TakeConfirm).value, g);
  }

  /** The heart of it: a confirm is applied only when every early return of its sequence has been recorded. */
  lemma ApplyConfirmKeepsReturns(s: State, g: GenId, stage: ServeStage)
    requires ReturnsOk(s) && g < |s.gens| && stage.Confirming? && StageOk(s.gens[g], stage)
    ensures ReturnsOk(ServingNext(s, g, stage, ApplyConfirm).value)
  {
    ConfirmKeepsGen(s.gens[g], stage.confirm);
    OneGenKeepsReturns(s, ServingNext(s, g, stage, ApplyConfirm).value, g);
  }

  lemma FailAllKeepsGen(gen: Generation, stage: ServeStage)
    requires GenOk(gen) && StageOk(gen, stage)
    ensures GenOk(gen.(attempts := Apply(gen.attempts, FailAll(Ambiguous)), failed := true))
  {
    AbandonKeepsGen(gen, FailAll(Ambiguous), stage);
    var completed := gen.(attempts := Apply(gen.attempts, FailAll(Ambiguous)));
    QuietGen(completed, completed.(failed := true), stage);
  }

  lemma FailAllKeepsReturns(s: State, g: GenId, stage: ServeStage, loop: Loop)
    requires ReturnsOk(s) && g < |s.gens| && StageOk(s.gens[g], stage) && (loop == Serving(g, ClosingOld) || loop.Exited?)
    ensures ReturnsOk(LoopFailedAll(s, g, loop))
  {
    FailAllKeepsGen(s.gens[g], stage);
    OneGenKeepsReturns(s, LoopFailedAll(s, g, loop), g);
  }

  lemma ServingKeepsReturns(s: State, g: GenId, stage: ServeStage, l: LoopStep)
    requires ReturnsOk(s) && s.loop == Serving(g, stage) && g < |s.gens| && ServingNext(s, g, stage, l).Some?
    ensures ReturnsOk(ServingNext(s, g, stage, l).value)
  {
    match l {
      case TakeReturn => ReturnTakenKeepsReturns(s, g, stage);
      case DrainOne => ReturnTakenKeepsReturns(s, g, stage);
      case TakeConfirm => TakeConfirmKeepsReturns(s, g, stage);
      case ApplyConfirm => ApplyConfirmKeepsReturns(s, g, stage);
      case DrainDone => DrainedPrepares(s.gens[g], stage.confirm.sequence);
      case FailEach => FailAllKeepsReturns(s, g, stage, Serving(g, ClosingOld));
      case StopFailAll => FailAllKeepsReturns(s, g, stage, Exited);
      case MarkEnd => case ReturnsEnd => case Break => case Cancelled =>
      case CloseOld => case FinishRecovered => case _ =>
    }
  }

  lemma OwningKeepsReturns(s: State, g: GenId, stage: OwnStage, l: LoopStep)
    requires ReturnsOk(s) && s.loop == Owning(g, stage) && g < |s.gens| && OwningNext(s, g, stage, l).Some?
    ensures ReturnsOk(OwningNext(s, g, stage, l).value)
  {
    var s' := OwningNext(s, g, stage, l).value;
    OwningFrame(s, g, stage, l);
    QuietGen(s.gens[g], s'.gens[g], Selecting(true));
    assert s'.loop.Serving? ==> s'.loop == Serving(g, Rejoined) by { match l { case Install => case _ => } }
    OneGenKeepsReturns(s, s', g);
  }

  lemma LoopKeepsReturns(s: State, l: LoopStep)
    requires Structure(s) && ReturnsOk(s) && LoopNext(s, l).Some?
    ensures ReturnsOk(LoopNext(s, l).value)
  {
    match s.loop {
      case Serving(g, stage) => ServingKeepsReturns(s, g, stage, l);
      case Owning(g, stage) => OwningKeepsReturns(s, g, stage, l);
      case Recovering(attempt) =>
        assert LoopNext(s, l) == RecoveringNext(s, attempt, l);
        match l { case Dial(_) => case Skip => case _ => }
      case _ =>
    }
  }

  /** One generation changes under the loop's feet, and its stage still fits. */
  lemma OutsideKeepsReturns(s: State, g: GenId, gen: Generation)
    requires ReturnsOk(s) && g < |s.gens| && GenOk(gen) && StageOk(gen, StageAt(s, g))
    ensures ReturnsOk(WithGen(s, g, gen))
  {
    OneGenKeepsReturns(s, WithGen(s, g, gen), g);
  }

  lemma ReturnArrivalKeepsReturns(s: State, g: GenId, notice: Notice)
    requires ReturnsOk(s) && BrokerNext(s, ReturnArrives(g, notice)).Some?
    ensures ReturnsOk(BrokerNext(s, ReturnArrives(g, notice)).value)
  {
    var gen := s.gens[g];
    ArrivalKeepsGen(gen, notice, StageAt(s, g));
    OutsideKeepsReturns(s, g, gen.(returnQueue := gen.returnQueue + [notice], early := gen.early + EarlyFor(gen, notice)));
  }

  lemma ConfirmArrivalKeepsReturns(s: State, g: GenId, confirm: Confirm)
    requires ReturnsOk(s) && BrokerNext(s, ConfirmArrives(g, confirm)).Some?
    ensures ReturnsOk(BrokerNext(s, ConfirmArrives(g, confirm)).value)
  {
    var gen := s.gens[g];
    ConfirmArrivalKeepsGen(gen, confirm, StageAt(s, g));
    OutsideKeepsReturns(s, g, gen.(confirmQueue := gen.confirmQueue + [confirm],
                                   confirmSeen := gen.confirmSeen + {confirm.sequence}));
  }

  lemma StreamCloseKeepsReturns(s: State, g: GenId)
    requires ReturnsOk(s) && BrokerNext(s, ReturnStreamCloses(g)).Some?
    ensures ReturnsOk(BrokerNext(s, ReturnStreamCloses(g)).value)
  {
    CloseKeepsGen(s.gens[g], StageAt(s, g));
    OutsideKeepsReturns(s, g, s.gens[g].(returnsClosed := true));
  }

  lemma CloseStateKeepsReturns(s: State, g: GenId, close: CloseState, closes: nat)
    requires ReturnsOk(s) && g < |s.gens|
    ensures ReturnsOk(WithGen(s, g, s.gens[g].(close := close, closes := closes)))
  {
    var gen := s.gens[g].(close := close, closes := closes);
    QuietGen(s.gens[g], gen, StageAt(s, g));
    OutsideKeepsReturns(s, g, gen);
  }

  lemma BrokerKeepsReturns(s: State, step: Step)
    requires ReturnsOk(s) && BrokerStep(step) && BrokerNext(s, step).Some?
    ensures ReturnsOk(BrokerNext(s, step).value)
  {
    match step {
      case ReturnArrives(g, notice) => ReturnArrivalKeepsReturns(s, g, notice);
      case ConfirmArrives(g, confirm) => ConfirmArrivalKeepsReturns(s, g, confirm);
      case ReturnStreamCloses(g) => StreamCloseKeepsReturns(s, g);
      case CloseStarts(g) => CloseStateKeepsReturns(s, g, Running, s.gens[g].closes + 1);
      case CloseEnds(g) => CloseStateKeepsReturns(s, g, Closed, s.gens[g].closes);
    }
  }

  lemma CloseKeepsGen(gen: Generation, stage: ServeStage)
    requires GenOk(gen) && StageOk(gen, stage)
    ensures GenOk(gen.(returnsClosed := true)) && StageOk(gen.(returnsClosed := true), stage)
  {
    var gen' := gen.(returnsClosed := true);
    forall q | q in gen'.attempts ensures RecordOk(gen', q) {
      assert RecordOk(gen, q);
      assert Queued(gen, gen.attempts[q]) ==> Queued(gen', gen'.attempts[q]);
    }
  }

  lemma StepKeepsReturns(s: State, step: Step)
    requires Structure(s) && ReturnsOk(s) && Next(s, step).Some?
    ensures ReturnsOk(Next(s, step).value)
  {
    match step {
      case ByCaller(p, c) => CallKeepsReturns(s, p, c);
      case ByLoopTask(l) => LoopKeepsReturns(s, l);
      case ByShutdown => ShutdownFrame(s);
      case _ => BrokerKeepsReturns(s, step);
    }
  }

  lemma {:induction false} FromKeepsReturns(s: State, steps: seq<Step>)
    requires Structure(s) && ReturnsOk(s) && From(s, steps).Some?
    ensures ReturnsOk(From(s, steps).value)
  {
    if steps != [] {
      var n := |steps| - 1;
      FromKeepsReturns(s, steps[..n]);
      FromKeepsStructure(s, steps[..n]);
      StepKeepsReturns(From(s, steps[..n]).value, steps[n]);
    }
  }

  // ---------------------------------------------------------------- the run-level statement

  lemma ReachableReturns(s: State)
    requires Reachable(s)
    ensures Structure(s) && ReturnsOk(s)
  {
    var c, steps :| After(c, steps) == Some(s);
    var init := Init(c.maximum, c.maxAttempts, c.session);
    FromKeepsStructure(init, steps);
    FromKeepsReturns(init, steps);
  }

  /** Whenever a confirm is about to be applied, every return that preceded it in arrival has been recorded. */
  lemma ConfirmFindsReturnsRecorded(s: State, g: GenId, listening: bool, confirm: Confirm, q: CallId)
    requires Reachable(s) && s.loop == Serving(g, Confirming(listening, confirm))
    requires g < |s.gens| && q in s.gens[g].early && q in s.gens[g].attempts
    requires s.gens[g].attempts[q].Live() && s.gens[g].attempts[q].sequence == confirm.sequence
    ensures s.gens[g].attempts[q].returned.Some?
  {
    ReachableReturns(s);
    assert Prepared(s.gens[g], confirm.sequence);
  }

  lemma InsertKeepsStreams(s: State, p: CallId, record: Record, g: GenId)
    requires s.current < |s.gens|
    ensures |Inserted(s, p, record).gens| == |s.gens|
    ensures g < |s.gens| ==> SameStreams(s.gens[g], Inserted(s, p, record).gens[g])
  {
  }

  lemma RegisterKeepsStreams(s: State, p: CallId, c: CallStep, g: GenId)
    requires Structure(s) && CallNext(s, p, c).Some? && c.Register?
    ensures |CallNext(s, p, c).value.gens| == |s.gens|
    ensures g < |s.gens| ==> SameStreams(s.gens[g], CallNext(s, p, c).value.gens[g])
  {
    RegisterCases(s, p, c);
    var token := Text.Token(s.gens[s.current].session, c.sequence);
    InsertKeepsStreams(s, p, NewRecord(c.sequence, token, c.exchange, c.route), g);
  }

  /** Calls leave the streams of every generation alone. */
  lemma CallKeepsStreams(s: State, p: CallId, c: CallStep, g: GenId)
    requires Structure(s) && CallNext(s, p, c).Some?
    ensures |CallNext(s, p, c).value.gens| == |s.gens|
    ensures g < |s.gens| ==> SameStreams(s.gens[g], CallNext(s, p, c).value.gens[g])
  {
    if c.Admit? || c.Release? {
      BoundaryFrame(s, p, c);
    } else if c.Register? {
      RegisterKeepsStreams(s, p, c, g);
    } else {
      FrameKeepsStreams(s, CallNext(s, p, c).value, p, c, g);
    }
  }

  lemma FrameKeepsStreams(s: State, s': State, p: CallId, c: CallStep, g: GenId)
    requires Structure(s) && CallNext(s, p, c) == Some(s') && !c.Admit? && !c.Release? && !c.Register?
    ensures |s'.gens| == |s.gens|
    ensures g < |s.gens| ==> SameStreams(s.gens[g], s'.gens[g])
  {
    CallStepFrame(s, p, c);
  }

  lemma {:induction false} EarlyForever(s: State, steps: seq<Step>, g: GenId)
    requires Structure(s) && g < |s.gens| && From(s, steps).Some?
    ensures g < |From(s, steps).value.gens| && s.gens[g].early <= From(s, steps).value.gens[g].early
  {
    if steps != [] {
      var n := |steps| - 1;
      EarlyForever(s, steps[..n], g);
      FromKeepsStructure(s, steps[..n]);
      StepEvolves(From(s, steps[..n]).value, steps[n], g);
    }
  }

  /** A confirm for this sequence was enqueued on this generation during the run. */
  ghost predicate ConfirmEnqueued(steps: seq<Step>, g: GenId, sequence: nat) {
    exists i | 0 <= i < |steps| :: steps[i].ConfirmArrives? && steps[i].g == g && steps[i].confirm.sequence == sequence
  }

  lemma BrokerConfirms(s: State, step: Step, g: GenId, sequence: nat)
    requires BrokerStep(step) && BrokerNext(s, step).Some? && g < |BrokerNext(s, step).value.gens|
    requires sequence in BrokerNext(s, step).value.gens[g].confirmSeen
    ensures g < |s.gens|
    ensures sequence in s.gens[g].confirmSeen ||
            (step.ConfirmArrives? && step.g == g && step.confirm.sequence == sequence)
  {
    match step {
      case ReturnArrives(_, _) => case ConfirmArrives(_, _) => case ReturnStreamCloses(_) =>
      case CloseStarts(_) => case CloseEnds(_) =>
    }
  }

  lemma StepConfirms(s: State, step: Step, g: GenId, sequence: nat)
    requires Structure(s) && Next(s, step).Some? && g < |Next(s, step).value.gens|
    requires sequence in Next(s, step).value.gens[g].confirmSeen
    ensures (g < |s.gens| && sequence in s.gens[g].confirmSeen) ||
            (step.ConfirmArrives? && step.g == g && step.confirm.sequence == sequence)
  {
    match step {
      case ByCaller(p, c) => CallKeepsStreams(s, p, c, g);
      case ByLoopTask(l) => LoopConfirms(s, l, g, sequence);
      case ByShutdown => ShutdownFrame(s);
      case _ => BrokerConfirms(s, step, g, sequence);
    }
  }

  lemma LoopConfirms(s: State, l: LoopStep, g: GenId, sequence: nat)
    requires LoopNext(s, l).Some? && g < |LoopNext(s, l).value.gens|
    requires sequence in LoopNext(s, l).value.gens[g].confirmSeen
    ensures g < |s.gens| && sequence in s.gens[g].confirmSeen
  {
    match s.loop {
      case Serving(h, stage) => ServingConfirms(s, h, stage, l, g, sequence);
      case Owning(h, stage) => OwningConfirms(s, h, stage, l, g, sequence);
      case Recovering(attempt) => DialConfirms(s, attempt, l, g, sequence);
      case _ =>
    }
  }

  lemma ServingConfirms(s: State, h: GenId, stage: ServeStage, l: LoopStep, g: GenId, sequence: nat)
    requires h < |s.gens| && ServingNext(s, h, stage, l).Some? && g < |ServingNext(s, h, stage, l).value.gens|
    requires sequence in ServingNext(s, h, stage, l).value.gens[g].confirmSeen
    ensures g < |s.gens| && sequence in s.gens[g].confirmSeen
  {
    ServingFrame(s, h, stage, l);
  }

  lemma OwningConfirms(s: State, h: GenId, stage: OwnStage, l: LoopStep, g: GenId, sequence: nat)
    requires h < |s.gens| && OwningNext(s, h, stage, l).Some? && g < |OwningNext(s, h, stage, l).value.gens|
    requires sequence in OwningNext(s, h, stage, l).value.gens[g].confirmSeen
    ensures g < |s.gens| && sequence in s.gens[g].confirmSeen
  {
    OwningFrame(s, h, stage, l);
  }

  lemma DialConfirms(s: State, attempt: nat, l: LoopStep, g: GenId, sequence: nat)
    requires RecoveringNext(s, attempt, l).Some? && g < |RecoveringNext(s, attempt, l).value.gens|
    requires sequence in RecoveringNext(s, attempt, l).value.gens[g].confirmSeen
    ensures g < |s.gens| && sequence in s.gens[g].confirmSeen
  {
    match l { case Skip => case Dial(_) => case Quit => case _ => }
  }

  lemma {:induction false} SeenConfirmsWereEnqueued(s: State, steps: seq<Step>, g: GenId, sequence: nat)
    requires Structure(s) && From(s, steps).Some?
    requires forall h | 0 <= h < |s.gens| :: s.gens[h].confirmSeen == {}
    requires g < |From(s, steps).value.gens| && sequence in From(s, steps).value.gens[g].confirmSeen
    ensures ConfirmEnqueued(steps, g, sequence)
  {
    if steps != [] {
      var n := |steps| - 1;
      var before := From(s, steps[..n]).value;
      FromKeepsStructure(s, steps[..n]);
      StepConfirms(before, steps[n], g, sequence);
      if g < |before.gens| && sequence in before.gens[g].confirmSeen {
        SeenConfirmsWereEnqueued(s, steps[..n], g, sequence);
        var i :| 0 <= i < n && steps[..n][i].ConfirmArrives? && steps[..n][i].g == g
                 && steps[..n][i].confirm.sequence == sequence;
        assert steps[i] == steps[..n][i];
      }
    }
  }

  /**
    In every interleaving in which an attempt's return is enqueued before any confirm of its sequence, the attempt
    never ends confirmed or rejected.
   */
  lemma ReturnBeforeConfirmDecides(c: Config, before: seq<Step>, notice: Notice, later: seq<Step>, g: GenId, p: CallId,
                                   s: State, returned: State, end: State)
    requires After(c, before) == Some(s) && g < |s.gens| && p in s.gens[g].attempts
    requires !ConfirmEnqueued(before, g, s.gens[g].attempts[p].sequence)
    requires notice.token == Some(s.gens[g].attempts[p].token)
    requires BrokerNext(s, ReturnArrives(g, notice)) == Some(returned)
    requires From(returned, later) == Some(end)
    ensures g < |end.gens| && p in end.gens[g].attempts && !Definitive(end.gens[g].attempts[p].outcome)
  {
    var init := Init(c.maximum, c.maxAttempts, c.session);
    FromKeepsStructure(init, before);
    FromKeepsReturns(init, before);
    if s.gens[g].attempts[p].sequence in s.gens[g].confirmSeen {
      SeenConfirmsWereEnqueued(init, before, g, s.gens[g].attempts[p].sequence);
    }
    StepKeepsStructure(s, ReturnArrives(g, notice));
    StepKeepsReturns(s, ReturnArrives(g, notice));
    assert p in returned.gens[g].early;
    EarlyForever(returned, later, g);
    FromKeepsReturns(returned, later);
    assert GenOk(end.gens[g]);
    assert RecordOk(end.gens[g], p);
  }
}
