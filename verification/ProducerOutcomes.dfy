/**
  Attribution of results to publish calls (producer.go:428-473, 583-616; publish_tracker.go:113-153).

  `abandon` is keyed by sequence, and publishMu is released before it runs, so attribution needs the sequences
  registered on one tracker to be pairwise different; `FreshFrom` says so of a run.
 */
module ProducerOutcomes {
  import opened Basics
  import opened TrackerSpec
  import Text
  import opened ProducerProtocol
  import opened ProducerStructure
  import opened ProducerFrames

  /** The channel hands out a sequence that no attempt on the current tracker has used. */
  ghost predicate FreshStep(s: State, step: Step) {
    step.ByCaller? && step.c.Register? && s.current < |s.gens| ==>
      forall q | q in s.gens[s.current].attempts :: s.gens[s.current].attempts[q].sequence != step.c.sequence
  }

  ghost predicate FreshFrom(s: State, steps: seq<Step>)
    requires From(s, steps).Some?
  {
    steps == [] ||
    var n := |steps| - 1;
    FreshFrom(s, steps[..n]) && FreshStep(From(s, steps[..n]).value, steps[n])
  }

  ghost predicate Distinct(t: map<CallId, Record>) {
    forall p, q | p in t && q in t && p != q :: t[p].sequence != t[q].sequence
  }

  ghost predicate Completed(s: State, p: CallId, g: GenId) {
    g < |s.gens| && p in s.gens[g].attempts && s.gens[g].attempts[p].outcome.Some?
  }

  /** What a call has reported, or is about to receive, is what its tracker completed it with. */
  ghost predicate Truthful(s: State, p: CallId)
    requires p in s.calls
  {
    match s.calls[p]
    case Finished(r, Some(g)) => Completed(s, p, g) && s.gens[g].attempts[p].outcome == Some(r)
    case Released(r, Some(g)) => Completed(s, p, g) && s.gens[g].attempts[p].outcome == Some(r)
    case Loose(g, Receiving) => Completed(s, p, g)
    case _ => true
  }

  ghost predicate Attributed(s: State) {
    && (forall g | 0 <= g < |s.gens| :: Distinct(s.gens[g].attempts))
    && (forall p | p in s.calls :: Truthful(s, p))
  }

  lemma DistinctGrows(t: map<CallId, Record>, t': map<CallId, Record>)
    requires Distinct(t) && TableGrows(t, t')
    ensures Distinct(t')
  {
  }

  /** Calls other than `p` stay truthful when one tracker grows. */
  lemma OthersStayTruthful(s: State, s': State, g: GenId, q: CallId)
    requires OneGenMoves(s, s', g) && q in s.calls && q in s'.calls && s'.calls[q] == s.calls[q] && Truthful(s, q)
    ensures Truthful(s', q)
  {
    assert s'.gens[g].attempts.Keys == s.gens[g].attempts.Keys;
    forall h: GenId | Completed(s, q, h)
      ensures Completed(s', q, h) && s'.gens[h].attempts[q] == s.gens[h].attempts[q]
    {
    }
  }

  /** With distinct sequences an abandon can only hit the attempt of the call that asks for it. */
  lemma AbandonIsOwn(s: State, p: CallId, g: GenId)
    requires p in s.calls && g < |s.gens| && p in s.gens[g].attempts && Distinct(s.gens[g].attempts)
    ensures LiveSequence(s.gens[g], s.gens[g].attempts[p].sequence) <==> s.gens[g].attempts[p].Live()
    ensures Truthful(Abandoned(s, p, g), p)
  {
    var t := s.gens[g].attempts;
    if t[p].Live() {
      assert Apply(t, Abandon(t[p].sequence, Ambiguous))[p].outcome == Some(Plain(Ambiguous));
    }
  }

  /** A phase that says nothing about an outcome. */
  predicate Silent(phase: Phase) {
    match phase
    case Finished(_, sentOn) => sentOn.None?
    case Released(_, sentOn) => sentOn.None?
    case Loose(_, stage) => !stage.Receiving?
    case _ => true
  }

  lemma HeldStaysSilent(s: State, p: CallId, g: GenId, stage: HeldStage, c: CallStep)
    requires g < |s.gens| && p in s.gens[g].attempts && HeldNext(s, p, g, stage, c).Some?
    ensures p in HeldNext(s, p, g, stage, c).value.calls && Silent(HeldNext(s, p, g, stage, c).value.calls[p])
  {
    match c { case CheckClosingAgain => case Mark => case Signal => case Unlock => case SendEnds(_) => case _ => }
  }

  lemma OuterStaysSilent(s: State, p: CallId, c: CallStep)
    requires p in s.calls && (s.calls[p].Admitted? || s.calls[p].Entered?) && CallNext(s, p, c).Some? && !c.Register?
    ensures p in CallNext(s, p, c).value.calls && Silent(CallNext(s, p, c).value.calls[p])
  {
    match s.calls[p] {
      case Entered(stage) => match c { case CheckClosing => case CheckAvailable => case _ => }
      case Admitted => match c { case AcquireLock => case Expire => case _ => }
    }
  }

  lemma LooseTruth(s: State, p: CallId, g: GenId, stage: LooseStage, c: CallStep)
    requires p in s.calls && g < |s.gens| && p in s.gens[g].attempts && Distinct(s.gens[g].attempts)
    requires LooseNext(s, p, g, stage, c).Some? && p in LooseNext(s, p, g, stage, c).value.calls
    ensures Truthful(LooseNext(s, p, g, stage, c).value, p)
  {
    match c {
      case FailAttempt => AbandonIsOwn(s, p, g);
      case GiveUp => AbandonIsOwn(s, p, g);
      case DropPreflight => assert LooseNext(s, p, g, stage, c).value.calls[p] == Finished(Plain(NotSent), None);
      case Recheck => case Receive => case ContextDone => case _ =>
    }
  }

  lemma OwnTruth(s: State, p: CallId, c: CallStep)
    requires Attributed(s) && CallNext(s, p, c).Some?
    requires !c.Admit? && !c.Release? && !c.Register?
    requires p in CallNext(s, p, c).value.calls
    ensures Truthful(CallNext(s, p, c).value, p)
  {
    match s.calls[p] {
      case Held(g, stage) => HeldStaysSilent(s, p, g, stage, c);
      case Loose(g, stage) => LooseTruth(s, p, g, stage, c);
      case Entered(_) => OuterStaysSilent(s, p, c);
      case Admitted => OuterStaysSilent(s, p, c);
      case _ =>
    }
  }

  lemma QuietCallKeepsAttribution(s: State, p: CallId, c: CallStep)
    requires Structure(s) && Attributed(s) && CallNext(s, p, c).Some?
    requires !c.Admit? && !c.Release? && !c.Register?
    ensures Attributed(CallNext(s, p, c).value)
  {
    var s' := CallNext(s, p, c).value;
    var g := Concerns(s, p);
    CallStepFrame(s, p, c);
    DistinctGrows(s.gens[g].attempts, s'.gens[g].attempts);
    OwnTruth(s, p, c);
    forall q | q in s'.calls && q != p ensures Truthful(s', q) {
      OthersStayTruthful(s, s', g, q);
    }
  }

  lemma InsertKeepsDistinct(t: map<CallId, Record>, p: CallId, record: Record)
    requires Distinct(t) && forall q | q in t :: t[q].sequence != record.sequence
    ensures Distinct(t[p := record])
  {
  }

  lemma InsertKeepsAttribution(s: State, p: CallId, record: Record)
    requires Attributed(s) && s.current < |s.gens| && p in s.calls && p !in s.gens[s.current].attempts
    requires forall q | q in s.gens[s.current].attempts :: s.gens[s.current].attempts[q].sequence != record.sequence
    ensures Attributed(Inserted(s, p, record))
  {
    var s' := Inserted(s, p, record);
    InsertKeepsDistinct(s.gens[s.current].attempts, p, record);
    forall q | q in s'.calls && q != p ensures Truthful(s', q) {
      assert Truthful(s, q);
    }
  }

  lemma LeaveKeepsAttribution(s: State, p: CallId)
    requires Attributed(s) && p in s.calls
    ensures Attributed(Leave(s, p))
  {
    var s' := Leave(s, p);
    forall q | q in s'.calls && q != p ensures Truthful(s', q) {
      assert Truthful(s, q);
    }
  }

  lemma RegisterKeepsAttribution(s: State, p: CallId, c: CallStep)
    requires Structure(s) && Attributed(s) && c.Register? && CallNext(s, p, c).Some?
    requires FreshStep(s, ByCaller(p, c))
    ensures Attributed(CallNext(s, p, c).value)
  {
    RegisterCases(s, p, c);
    assert p in s.gens[s.current].attempts ==> AttemptOk(s, s.current, p);
    var token := Text.Token(s.gens[s.current].session, c.sequence);
    if Refusal(s.maximum, s.gens[s.current].attempts, c.sequence, token).Some? {
      LeaveKeepsAttribution(s, p);
    } else {
      InsertKeepsAttribution(s, p, NewRecord(c.sequence, token, c.exchange, c.route));
    }
  }

  lemma AdmitKeepsAttribution(s: State, p: CallId)
    requires Attributed(s) && CallNext(s, p, Admit).Some?
    ensures Attributed(CallNext(s, p, Admit).value)
  {
    var s' := CallNext(s, p, Admit).value;
    forall q | q in s'.calls ensures Truthful(s', q) {
      assert q in s.calls ==> Truthful(s, q);
    }
  }

  lemma ReleaseKeepsAttribution(s: State, p: CallId)
    requires Attributed(s) && CallNext(s, p, Release).Some?
    ensures Attributed(CallNext(s, p, Release).value)
  {
    var s' := CallNext(s, p, Release).value;
    forall q | q in s'.calls ensures Truthful(s', q) {
      assert q in s.calls ==> Truthful(s, q);
    }
  }

  lemma BoundaryKeepsAttribution(s: State, p: CallId, c: CallStep)
    requires Attributed(s) && CallNext(s, p, c).Some? && (c.Admit? || c.Release?)
    ensures Attributed(CallNext(s, p, c).value)
  {
    if c.Admit? {
      AdmitKeepsAttribution(s, p);
    } else {
      ReleaseKeepsAttribution(s, p);
    }
  }

  lemma TaskKeepsAttribution(s: State, s': State, g: GenId)
    requires Attributed(s) && s'.calls == s.calls && OneGenMoves(s, s', g)
    ensures Attributed(s')
  {
    DistinctGrows(s.gens[g].attempts, s'.gens[g].attempts);
    forall q | q in s'.calls ensures Truthful(s', q) {
      OthersStayTruthful(s, s', g, q);
    }
  }

  lemma DialKeepsAttribution(s: State, s': State, gen: Generation)
    requires Attributed(s) && s'.calls == s.calls && s'.gens == s.gens + [gen] && gen.attempts == map[]
    ensures Attributed(s')
  {
    forall q | q in s'.calls ensures Truthful(s', q) {
      assert Truthful(s, q);
      assert forall h: GenId | Completed(s, q, h) :: s'.gens[h] == s.gens[h];
    }
  }

  lemma ServingKeepsAttribution(s: State, l: LoopStep)
    requires Attributed(s) && s.loop.Serving? && LoopNext(s, l).Some?
    ensures Attributed(LoopNext(s, l).value)
  {
    ServingFrame(s, s.loop.gen, s.loop.serve, l);
    TaskKeepsAttribution(s, LoopNext(s, l).value, s.loop.gen);
  }

  lemma OwningKeepsAttribution(s: State, l: LoopStep)
    requires Attributed(s) && s.loop.Owning? && LoopNext(s, l).Some?
    ensures Attributed(LoopNext(s, l).value)
  {
    OwningFrame(s, s.loop.gen, s.loop.own, l);
    TaskKeepsAttribution(s, LoopNext(s, l).value, s.loop.gen);
  }

  lemma RecoveringKeepsAttribution(s: State, attempt: nat, l: LoopStep)
    requires Attributed(s) && s.current < |s.gens| && RecoveringNext(s, attempt, l).Some?
    ensures Attributed(RecoveringNext(s, attempt, l).value)
  {
    var s' := RecoveringNext(s, attempt, l).value;
    match l {
      case Dial(session) => DialKeepsAttribution(s, s', NewGeneration(session));
      case Skip => TaskKeepsAttribution(s, s', s.current);
      case Quit => TaskKeepsAttribution(s, s', s.current);
      case _ =>
    }
  }

  lemma LoopKeepsAttribution(s: State, l: LoopStep)
    requires Structure(s) && Attributed(s) && LoopNext(s, l).Some?
    ensures Attributed(LoopNext(s, l).value)
  {
    match s.loop {
      case Serving(_, _) => ServingKeepsAttribution(s, l);
      case Owning(_, _) => OwningKeepsAttribution(s, l);
      case Recovering(attempt) => RecoveringKeepsAttribution(s, attempt, l);
      case GivenUp => TaskKeepsAttribution(s, LoopNext(s, l).value, s.current);
      case Exited =>
    }
  }

  lemma ShutdownKeepsAttribution(s: State)
    requires Attributed(s) && s.current < |s.gens| && ShutdownNext(s).Some?
    ensures Attributed(ShutdownNext(s).value)
  {
    ShutdownFrame(s);
    TaskKeepsAttribution(s, ShutdownNext(s).value, s.current);
  }

  lemma BrokerKeepsAttribution(s: State, step: Step)
    requires Attributed(s) && BrokerStep(step) && BrokerNext(s, step).Some?
    ensures Attributed(BrokerNext(s, step).value)
  {
    BrokerFrame(s, step);
    TaskKeepsAttribution(s, BrokerNext(s, step).value, step.g);
  }

  lemma CallKeepsAttribution(s: State, p: CallId, c: CallStep)
    requires Structure(s) && Attributed(s) && CallNext(s, p, c).Some? && FreshStep(s, ByCaller(p, c))
    ensures Attributed(CallNext(s, p, c).value)
  {
    if c.Admit? || c.Release? {
      BoundaryKeepsAttribution(s, p, c);
    } else if c.Register? {
      RegisterKeepsAttribution(s, p, c);
    } else {
      QuietCallKeepsAttribution(s, p, c);
    }
  }

  lemma StepKeepsAttribution(s: State, step: Step)
    requires Structure(s) && Attributed(s) && Next(s, step).Some? && FreshStep(s, step)
    ensures Attributed(Next(s, step).value)
  {
    match step {
      case ByCaller(p, c) => CallKeepsAttribution(s, p, c);
      case ByLoopTask(l) => LoopKeepsAttribution(s, l);
      case ByShutdown => ShutdownKeepsAttribution(s);
      case _ => BrokerKeepsAttribution(s, step);
    }
  }

  lemma {:induction false} FromKeepsAttribution(s: State, steps: seq<Step>)
    requires Structure(s) && Attributed(s) && From(s, steps).Some? && FreshFrom(s, steps)
    ensures Attributed(From(s, steps).value)
  {
    if steps != [] {
      var n := |steps| - 1;
      FromKeepsAttribution(s, steps[..n]);
      FromKeepsStructure(s, steps[..n]);
      StepKeepsAttribution(From(s, steps[..n]).value, steps[n]);
    }
  }

  ghost predicate FreshReachable(s: State) {
    exists c, steps :: After(c, steps) == Some(s) && FreshFrom(Init(c.maximum, c.maxAttempts, c.session), steps)
  }

  lemma ReachableAttribution(s: State)
    requires FreshReachable(s)
    ensures Structure(s) && Attributed(s)
  {
    var c, steps :| After(c, steps) == Some(s) && FreshFrom(Init(c.maximum, c.maxAttempts, c.session), steps);
    FromKeepsStructure(Init(c.maximum, c.maxAttempts, c.session), steps);
    FromKeepsAttribution(Init(c.maximum, c.maxAttempts, c.session), steps);
  }

  /** The result a call reports after its send started is exactly the one its tracker completed it with. */
  lemma ReportedResultIsTheTrackers(s: State, p: CallId, g: GenId)
    requires FreshReachable(s) && p in s.calls
    requires (s.calls[p].Finished? || s.calls[p].Released?) && s.calls[p].sentOn == Some(g)
    ensures g < |s.gens| && p in s.gens[g].attempts && s.gens[g].attempts[p].outcome == Some(s.calls[p].result)
  {
    ReachableAttribution(s);
    assert Truthful(s, p);
  }

  /** After a failed abandon the outcome is already there: the last receive never blocks. */
  lemma FinalReceiveNeverBlocks(s: State, p: CallId, g: GenId)
    requires FreshReachable(s) && p in s.calls && s.calls[p] == Loose(g, Receiving)
    ensures CallNext(s, p, Receive).Some?
  {
    ReachableAttribution(s);
    assert Truthful(s, p);
  }

  /** A completed attempt keeps its outcome for ever. */
  lemma {:induction false} OutcomeIsPermanent(s: State, steps: seq<Step>, p: CallId, g: GenId)
    requires Structure(s) && From(s, steps).Some? && Completed(s, p, g)
    ensures Completed(From(s, steps).value, p, g)
    ensures From(s, steps).value.gens[g].attempts[p].outcome == s.gens[g].attempts[p].outcome
  {
    if steps != [] {
      var n := |steps| - 1;
      OutcomeIsPermanent(s, steps[..n], p, g);
      FromKeepsStructure(s, steps[..n]);
      StepKeepsOutcome(From(s, steps[..n]).value, steps[n], p, g);
    }
  }

  lemma StepKeepsOutcome(s: State, step: Step, p: CallId, g: GenId)
    requires Structure(s) && Next(s, step).Some? && Completed(s, p, g)
    ensures Completed(Next(s, step).value, p, g)
    ensures Next(s, step).value.gens[g].attempts[p].outcome == s.gens[g].attempts[p].outcome
  {
    StepEvolves(s, step, g);
  }

  /**
    A result the tracker has fixed wins over every later cancellation or error: whatever the call does next,
    if it reports a sent result at all, it reports that one.
   */
  lemma CompletedResultWins(s: State, steps: seq<Step>, p: CallId, g: GenId)
    requires FreshReachable(s) && From(s, steps).Some? && FreshFrom(s, steps) && Completed(s, p, g)
    requires var s' := From(s, steps).value;
             p in s'.calls && (s'.calls[p].Finished? || s'.calls[p].Released?) && s'.calls[p].sentOn == Some(g)
    ensures Some(From(s, steps).value.calls[p].result) == s.gens[g].attempts[p].outcome
  {
    ReachableAttribution(s);
    FromKeepsAttribution(s, steps);
    OutcomeIsPermanent(s, steps, p, g);
    assert Truthful(From(s, steps).value, p);
  }

  /**
    Without fresh sequences attribution can fail, exactly here: the caller's attempt is already completed with
    another result, and a live attempt of another call carries the same sequence. The caller then abandons that
    other attempt and reports `Ambiguous`.
   */
  lemma MisattributionIffSequenceReused(s: State, p: CallId, g: GenId)
    requires p in s.calls && g < |s.gens| && p in s.gens[g].attempts
    ensures !Truthful(Abandoned(s, p, g), p) <==>
              && s.gens[g].attempts[p].outcome.Some? && s.gens[g].attempts[p].outcome.value != Plain(Ambiguous)
              && exists q | q in s.gens[g].attempts ::
                   q != p && s.gens[g].attempts[q].Live() &&
                   s.gens[g].attempts[q].sequence == s.gens[g].attempts[p].sequence
  {
    if LiveSequence(s.gens[g], s.gens[g].attempts[p].sequence) {
      AbandonReports(s, p, g);
    } else {
      assert Abandoned(s, p, g).calls[p] == Loose(g, Receiving);
    }
  }

  /** A call whose abandon works reports Ambiguous, truthfully only if its own attempt has no other outcome. */
  lemma AbandonReports(s: State, p: CallId, g: GenId)
    requires p in s.calls && g < |s.gens| && p in s.gens[g].attempts
    requires LiveSequence(s.gens[g], s.gens[g].attempts[p].sequence)
    ensures p in Abandoned(s, p, g).calls
    ensures Truthful(Abandoned(s, p, g), p) <==>
            s.gens[g].attempts[p].Live() || s.gens[g].attempts[p].outcome == Some(Plain(Ambiguous))
  {
    var t := s.gens[g].attempts;
    assert Abandoned(s, p, g).gens[g].attempts[p] == React(t[p], Abandon(t[p].sequence, Ambiguous));
  }
}
