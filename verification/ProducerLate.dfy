/**
  What shutdown leaves behind (producer.go:349-449, 633-676, 691-740): which attempts can still be live once the event
  loop has exited. A generation's end completes every attempt registered until then; only an attempt registered
  afterwards, by a call that is still pursuing it, can be live.
 */
module ProducerLate {
  import opened Basics
  import opened TrackerSpec
  import Text
  import opened ProducerProtocol
  import opened ProducerStructure
  import opened ProducerFrames
  import opened ProducerGate
  import opened ProducerOutcomes
  import opened ProducerClosing

  /** Late attempts exist only on a generation the loop has left, and there only they can be live. */
  ghost predicate GenLate(gen: Generation) {
    && gen.late <= gen.attempts.Keys && (!gen.failed ==> gen.late == {})
    && (gen.failed ==> forall q | q in gen.attempts && gen.attempts[q].Live() :: q in gen.late)
  }

  /** The loop has left every generation that ever had attempts, except the one it serves. */
  predicate StageLate(s: State)
    requires s.current < |s.gens|
  {
    && (s.eventsCancelled ==> s.closed)
    && (s.gens[s.current].failed ==> s.closed || s.unavailable)
    && match s.loop
       case Serving(g, stage) =>
         && (s.gens[s.current].failed <==> stage.ClosingOld?)
         && (stage.FailingAll? || stage.Stopping? ==> s.closed || s.unavailable)
       case Owning(g, _) => s.gens[s.current].failed && (g < |s.gens| ==> !s.gens[g].failed)
       case _ => s.gens[s.current].failed
  }

  ghost predicate LateOk(s: State) {
    && s.current < |s.gens| && StageLate(s)
    && (forall g | 0 <= g < |s.gens| :: GenLate(s.gens[g]))
    && (forall g | 0 <= g < |s.gens| && g != s.current :: s.gens[g].failed || s.gens[g].attempts == map[])
  }

  // ---------------------------------------------------------------- one generation

  lemma GrowKeepsGenLate(gen: Generation, gen': Generation)
    requires GenLate(gen) && TableGrows(gen.attempts, gen'.attempts)
    requires gen'.failed == gen.failed && gen'.late == gen.late
    ensures GenLate(gen') && (gen.attempts == map[] ==> gen'.attempts == map[])
  {
    assert gen'.attempts.Keys == gen.attempts.Keys;
    assert gen.attempts == map[] ==> gen'.attempts.Keys == {};
  }

  lemma FailAllKeepsGenLate(gen: Generation)
    requires GenLate(gen) && !gen.failed
    ensures GenLate(gen.(attempts := Apply(gen.attempts, FailAll(Ambiguous)), failed := true))
  {
  }

  lemma InsertKeepsGenLate(gen: Generation, p: CallId, record: Record)
    requires GenLate(gen)
    ensures GenLate(gen.(attempts := gen.attempts[p := record], late := if gen.failed then gen.late + {p} else gen.late))
  {
  }

  // ---------------------------------------------------------------- steps

  /** One tracker grows, and the loop keeps its place. */
  lemma GrowthKeepsLate(s: State, s': State, g: GenId)
    requires LateOk(s) && g < |s.gens| == |s'.gens| && s'.gens == s.gens[g := s'.gens[g]] && s'.current == s.current
    requires TableGrows(s.gens[g].attempts, s'.gens[g].attempts)
    requires s'.gens[g].failed == s.gens[g].failed && s'.gens[g].late == s.gens[g].late
    requires StageLate(s')
    ensures LateOk(s')
  {
    GrowKeepsGenLate(s.gens[g], s'.gens[g]);
  }

  lemma QuietCallKeepsLate(s: State, p: CallId, c: CallStep)
    requires Structure(s) && LateOk(s) && CallNext(s, p, c).Some? && !c.Admit? && !c.Release? && !c.Register?
    ensures LateOk(CallNext(s, p, c).value)
  {
    var s' := CallNext(s, p, c).value;
    CallStepFrame(s, p, c);
    assert s.unavailable ==> s'.unavailable by {
      if c.Mark? && s.unavailable {
        MarkNeverHeals(s, p);
      }
    }
    GrowthKeepsLate(s, s', Concerns(s, p));
  }

  lemma MarkNeverHeals(s: State, p: CallId)
    requires CallNext(s, p, Mark).Some? && s.unavailable
    ensures CallNext(s, p, Mark).value.unavailable
  {
    match s.calls[p] { case Held(_, _) => case _ => }
  }

  lemma InsertKeepsLate(s: State, p: CallId, record: Record)
    requires LateOk(s)
    ensures LateOk(Inserted(s, p, record))
  {
    InsertKeepsGenLate(s.gens[s.current], p, record);
  }

  lemma CallKeepsLate(s: State, p: CallId, c: CallStep)
    requires Structure(s) && LateOk(s) && CallNext(s, p, c).Some?
    ensures LateOk(CallNext(s, p, c).value)
  {
    if c.Admit? || c.Release? {
      BoundaryFrame(s, p, c);
      BoundaryKeepsCancelled(s, p, c);
    } else if c.Register? {
      RegisterCases(s, p, c);
      var token := Text.Token(s.gens[s.current].session, c.sequence);
      InsertKeepsLate(s, p, NewRecord(c.sequence, token, c.exchange, c.route));
    } else {
      QuietCallKeepsLate(s, p, c);
    }
  }

  lemma BoundaryKeepsCancelled(s: State, p: CallId, c: CallStep)
    requires CallNext(s, p, c).Some? && (c.Admit? || c.Release?)
    ensures CallNext(s, p, c).value.eventsCancelled == s.eventsCancelled
  {
  }

  lemma FailedAllKeepsLate(s: State, loop: Loop)
    requires LateOk(s) && s.loop.Serving? && (s.loop.serve.FailingAll? || s.loop.serve.Stopping?)
    requires loop == Serving(s.current, ClosingOld) || loop.Exited?
    ensures LateOk(LoopFailedAll(s, s.current, loop))
  {
    FailAllKeepsGenLate(s.gens[s.current]);
  }

  lemma PoppedKeepsHistory(gen: Generation)
    requires gen.returnQueue != []
    ensures Popped(gen).failed == gen.failed
  {
  }

  /** Serving steps other than the final one leave the history alone and lead to a stage that fits. */
  lemma ServingStage(s: State, l: LoopStep)
    requires Structure(s) && Gate(s) && LateOk(s) && s.loop.Serving? && LoopNext(s, l).Some?
    requires !l.FailEach? && !l.StopFailAll?
    ensures LoopNext(s, l).value.current == s.current
    ensures |LoopNext(s, l).value.gens| == |s.gens|
    ensures LoopNext(s, l).value.gens[s.current].failed == s.gens[s.current].failed
    ensures StageLate(LoopNext(s, l).value)
  {
    match l {
      case TakeReturn => PoppedKeepsHistory(s.gens[s.current]);
      case DrainOne => PoppedKeepsHistory(s.gens[s.current]);
      case TakeConfirm => case ApplyConfirm =>
      case ReturnsEnd => case Break => case Cancelled => case DrainDone => case MarkEnd =>
      case CloseOld => case FinishRecovered => case _ =>
    }
  }

  lemma ServingKeepsLate(s: State, l: LoopStep)
    requires Structure(s) && Gate(s) && LateOk(s) && s.loop.Serving? && LoopNext(s, l).Some?
    ensures LateOk(LoopNext(s, l).value)
  {
    if l.FailEach? {
      FailedAllKeepsLate(s, Serving(s.current, ClosingOld));
    } else if l.StopFailAll? {
      FailedAllKeepsLate(s, Exited);
    } else {
      ServingStage(s, l);
      ServingFrame(s, s.loop.gen, s.loop.serve, l);
      GrowthKeepsLate(s, LoopNext(s, l).value, s.current);
    }
  }

  lemma InstallKeepsLate(s: State)
    requires Structure(s) && LateOk(s) && s.loop.Owning? && LoopNext(s, Install).Some?
    ensures LateOk(LoopNext(s, Install).value)
  {
  }

  lemma OwningKeepsLate(s: State, l: LoopStep)
    requires Structure(s) && LateOk(s) && s.loop.Owning? && !l.Install? && LoopNext(s, l).Some?
    ensures LateOk(LoopNext(s, l).value)
  {
    OwningFrame(s, s.loop.gen, s.loop.own, l);
    var s' := LoopNext(s, l).value;
    assert StageLate(s') && s'.gens[s.loop.gen].failed == s.gens[s.loop.gen].failed by {
      match l { case SetupFails => case SetupWorks => case LockInstall => case DiscardClose => case _ => }
    }
    GrowthKeepsLate(s, s', s.loop.gen);
  }

  lemma RecoveringKeepsLate(s: State, l: LoopStep)
    requires LateOk(s) && !s.loop.Owning? && !s.loop.Serving? && LoopNext(s, l).Some?
    ensures LateOk(LoopNext(s, l).value)
  {
    match s.loop {
      case Recovering(attempt) => match l { case Dial(_) => case Skip => case Quit => case _ => }
      case GivenUp =>
      case Exited =>
    }
  }

  lemma LoopKeepsLate(s: State, l: LoopStep)
    requires Structure(s) && Gate(s) && LateOk(s) && LoopNext(s, l).Some?
    ensures LateOk(LoopNext(s, l).value)
  {
    if s.loop.Serving? {
      ServingKeepsLate(s, l);
    } else if !s.loop.Owning? {
      RecoveringKeepsLate(s, l);
    } else if l.Install? {
      InstallKeepsLate(s);
    } else {
      OwningKeepsLate(s, l);
    }
  }

  lemma ShutdownKeepsLate(s: State)
    requires Structure(s) && LateOk(s) && ShutdownNext(s).Some?
    ensures LateOk(ShutdownNext(s).value)
  {
    ShutdownFrame(s);
    var s' := ShutdownNext(s).value;
    assert StageLate(s') by {
      match s.shutdown { case Open => case WaitingDrain => case StoppingEvents => case _ => }
    }
  }

  lemma BrokerKeepsLate(s: State, step: Step)
    requires LateOk(s) && BrokerStep(step) && BrokerNext(s, step).Some?
    ensures LateOk(BrokerNext(s, step).value)
  {
    BrokerFrame(s, step);
    GrowthKeepsLate(s, BrokerNext(s, step).value, step.g);
  }

  lemma StepKeepsLate(s: State, step: Step)
    requires Structure(s) && Gate(s) && LateOk(s) && Next(s, step).Some?
    ensures LateOk(Next(s, step).value)
  {
    match step {
      case ByCaller(p, c) => CallKeepsLate(s, p, c);
      case ByLoopTask(l) => LoopKeepsLate(s, l);
      case ByShutdown => ShutdownKeepsLate(s);
      case _ => BrokerKeepsLate(s, step);
    }
  }

  lemma {:induction false} FromKeepsLate(s: State, steps: seq<Step>)
    requires Structure(s) && Gate(s) && LateOk(s) && From(s, steps).Some?
    ensures LateOk(From(s, steps).value)
  {
    if steps != [] {
      var n := |steps| - 1;
      FromKeepsLate(s, steps[..n]);
      FromKeepsStructure(s, steps[..n]);
      FromKeepsGate(s, steps[..n]);
      StepKeepsLate(From(s, steps[..n]).value, steps[n]);
    }
  }

  lemma ReachableLate(s: State)
    requires Reachable(s)
    ensures LateOk(s)
  {
    var c, steps :| After(c, steps) == Some(s);
    FromKeepsLate(Init(c.maximum, c.maxAttempts, c.session), steps);
  }

  /** Once the loop has exited, a live attempt was registered after its generation ended and its call still pursues it. */
  lemma LiveAfterExitIsLate(s: State, g: GenId, q: CallId)
    requires Reachable(s) && s.loop.Exited? && g < |s.gens| && q in s.gens[g].attempts && s.gens[g].attempts[q].Live()
    ensures q in s.gens[g].late && q in s.calls && s.calls[q].Pending() && s.calls[q].gen == g
  {
    ReachableLate(s);
    ReachableStructure(s);
    assert GenLate(s.gens[g]);
    assert AttemptOk(s, g, q);
  }

  /** A call registers on a generation the loop has left only after shutdown began or past an outdated check. */
  lemma LateRegistrationNeeds(s: State, p: CallId, c: CallStep)
    requires Reachable(s) && c.Register? && CallNext(s, p, c).Some? && s.current < |s.gens| && s.gens[s.current].failed
    ensures s.closed || s.unavailable
  {
    ReachableLate(s);
  }

  // ---------------------------------------------------------------- the other half, with fresh sequences

  ghost predicate StillLive(s: State, g: GenId, q: CallId)
    requires g < |s.gens|
  {
    q in s.gens[g].late && q in s.gens[g].attempts && q in s.calls && s.calls[q].Pending() && s.calls[q].gen == g ==>
      s.gens[g].attempts[q].Live()
  }

  /** Nobody but its own call completes a late attempt. */
  ghost predicate LateLive(s: State) {
    forall g, q | 0 <= g < |s.gens| :: StillLive(s, g, q)
  }

  /** An abandon of another sequence leaves the attempt alone. */
  lemma OthersStayLive(t: map<CallId, Record>, p: CallId, q: CallId, state: PublishState)
    requires Distinct(t) && p in t && q in t && p != q
    ensures Apply(t, Abandon(t[p].sequence, state))[q] == t[q]
  {
  }

  lemma OtherRecordStays(s: State, s': State, p: CallId, h: GenId, q: CallId)
    requires OwnAbandon(s, s', p, h) && Distinct(s.gens[h].attempts) && q in s.gens[h].attempts && q != p
    ensures q in s'.gens[h].attempts && s'.gens[h].attempts[q] == s.gens[h].attempts[q]
  {
    var t := s.gens[h].attempts;
    if s'.gens[h].attempts != t {
      var state :| Abandonable(state) && s'.gens[h].attempts == Apply(t, Abandon(t[p].sequence, state));
      OthersStayLive(t, p, q, state);
    }
  }

  /** Another call's step that moves one tracker by its own abandon. */
  lemma FrameKeepsOther(s: State, s': State, p: CallId, h: GenId, c: CallStep, g: GenId, q: CallId)
    requires CallFrame(s, s', p, h, c) && g < |s.gens| && StillLive(s, g, q) && q != p
    requires q in s.gens[h].attempts ==> q in s'.gens[h].attempts && s'.gens[h].attempts[q] == s.gens[h].attempts[q]
    ensures StillLive(s', g, q)
  {
  }

  lemma OtherCallStaysLive(s: State, p: CallId, c: CallStep, g: GenId, q: CallId)
    requires Structure(s) && Attributed(s) && CallNext(s, p, c).Some? && !c.Admit? && !c.Release? && !c.Register?
    requires g < |s.gens| && StillLive(s, g, q) && q != p
    ensures g < |CallNext(s, p, c).value.gens| && StillLive(CallNext(s, p, c).value, g, q)
  {
    var s' := CallNext(s, p, c).value;
    var h := Concerns(s, p);
    CallStepFrame(s, p, c);
    if q in s.gens[h].attempts {
      CallAbandons(s, p, c);
      OtherRecordStays(s, s', p, h, q);
    }
    FrameKeepsOther(s, s', p, h, c, g, q);
  }

  /** The call still pursues its attempt on `g`, and has not touched the tracker. */
  ghost predicate Pursues(s: State, s': State, p: CallId, g: GenId) {
    && p in s'.calls && s'.calls[p].Pending() && s'.calls[p].gen == g
    && g < |s.gens| == |s'.gens| && s'.gens[g].attempts == s.gens[g].attempts
  }

  predicate Done(s': State, p: CallId) {
    p in s'.calls && !s'.calls[p].Pending()
  }

  lemma CheckAgainPursues(s: State, p: CallId, g: GenId)
    requires g < |s.gens| && p in s.gens[g].attempts
    ensures var s' := HeldNext(s, p, g, Registered, CheckClosingAgain).value; Pursues(s, s', p, g) || Done(s', p)
  {
    if s.shutdownClosing { } else { }
  }

  /** As long as a call pursues its attempt, it has not completed it itself. */
  lemma HeldPursues(s: State, p: CallId, g: GenId, stage: HeldStage, c: CallStep)
    requires g < |s.gens| && p in s.gens[g].attempts && HeldNext(s, p, g, stage, c).Some?
    ensures var s' := HeldNext(s, p, g, stage, c).value; Pursues(s, s', p, g) || Done(s', p)
  {
    match c {
      case CheckClosingAgain => CheckAgainPursues(s, p, g);
      case Mark => case Signal => case Unlock => case SendEnds(_) => case _ =>
    }
  }

  lemma AbandonedPursues(s: State, p: CallId, g: GenId)
    requires g < |s.gens| && p in s.gens[g].attempts
    ensures var s' := Abandoned(s, p, g); Pursues(s, s', p, g) || Done(s', p)
  {
    if LiveSequence(s.gens[g], s.gens[g].attempts[p].sequence) { } else { }
  }

  lemma LoosePursues(s: State, p: CallId, g: GenId, stage: LooseStage, c: CallStep)
    requires g < |s.gens| && p in s.gens[g].attempts && LooseNext(s, p, g, stage, c).Some?
    ensures var s' := LooseNext(s, p, g, stage, c).value; Pursues(s, s', p, g) || Done(s', p)
  {
    match c {
      case FailAttempt => AbandonedPursues(s, p, g);
      case GiveUp => AbandonedPursues(s, p, g);
      case DropPreflight => assert Done(LooseNext(s, p, g, stage, c).value, p);
      case Recheck => case ContextDone => case Receive => case _ =>
    }
  }

  lemma OuterIsNotPending(s: State, p: CallId, c: CallStep)
    requires p in s.calls && (s.calls[p].Admitted? || s.calls[p].Entered?) && CallNext(s, p, c).Some? && !c.Register?
    ensures Done(CallNext(s, p, c).value, p)
  {
    match s.calls[p] {
      case Entered(stage) => match c { case CheckClosing => case CheckAvailable => case _ => }
      case Admitted => match c { case AcquireLock => case Expire => case _ => }
    }
  }

  lemma OwnStaysLive(s: State, p: CallId, c: CallStep, g: GenId)
    requires Structure(s) && CallNext(s, p, c).Some? && !c.Admit? && !c.Release? && !c.Register?
    requires g < |s.gens| && StillLive(s, g, p)
    ensures g < |CallNext(s, p, c).value.gens| && StillLive(CallNext(s, p, c).value, g, p)
  {
    CallStepFrame(s, p, c);
    match s.calls[p] {
      case Held(h, stage) => HeldPursues(s, p, h, stage, c);
      case Loose(h, stage) => LoosePursues(s, p, h, stage, c);
      case Entered(_) => OuterIsNotPending(s, p, c);
      case Admitted => OuterIsNotPending(s, p, c);
      case _ =>
    }
  }

  lemma QuietCallKeepsLateLive(s: State, p: CallId, c: CallStep)
    requires Structure(s) && Attributed(s) && LateLive(s)
    requires CallNext(s, p, c).Some? && !c.Admit? && !c.Release? && !c.Register?
    ensures LateLive(CallNext(s, p, c).value)
  {
    CallStepFrame(s, p, c);
    forall g, q | 0 <= g < |CallNext(s, p, c).value.gens| ensures StillLive(CallNext(s, p, c).value, g, q) {
      assert StillLive(s, g, q);
      if q == p {
        OwnStaysLive(s, p, c, g);
      } else {
        OtherCallStaysLive(s, p, c, g, q);
      }
    }
  }

  lemma InsertKeepsLateLive(s: State, p: CallId, record: Record)
    requires LateLive(s) && s.current < |s.gens| && record.Live()
    requires forall g | 0 <= g < |s.gens| :: p !in s.gens[g].attempts
    ensures LateLive(Inserted(s, p, record))
  {
    var s' := Inserted(s, p, record);
    forall g, q | 0 <= g < |s'.gens| ensures StillLive(s', g, q) {
      assert StillLive(s, g, q);
    }
  }

  lemma LeaveKeepsLateLive(s: State, p: CallId)
    requires LateLive(s)
    ensures LateLive(Leave(s, p))
  {
    var s' := Leave(s, p);
    forall g, q | 0 <= g < |s'.gens| ensures StillLive(s', g, q) {
      assert StillLive(s, g, q);
    }
  }

  lemma RegisterKeepsLateLive(s: State, p: CallId, c: CallStep)
    requires Structure(s) && LateLive(s) && c.Register? && CallNext(s, p, c).Some?
    ensures LateLive(CallNext(s, p, c).value)
  {
    RegisterCases(s, p, c);
    forall g | 0 <= g < |s.gens| ensures p !in s.gens[g].attempts {
      assert p in s.gens[g].attempts ==> AttemptOk(s, g, p);
    }
    LeaveKeepsLateLive(s, p);
    InsertKeepsLateLive(s, p, NewRecord(c.sequence, Text.Token(s.gens[s.current].session, c.sequence), c.exchange, c.route));
  }

  /** The calls move outside any attempt and no generation changes. */
  lemma BoundaryKeepsLateLive(s: State, p: CallId, c: CallStep)
    requires LateLive(s) && CallNext(s, p, c).Some? && (c.Admit? || c.Release?)
    ensures LateLive(CallNext(s, p, c).value)
  {
    BoundaryFrame(s, p, c);
    var s' := CallNext(s, p, c).value;
    forall g, q | 0 <= g < |s'.gens| ensures StillLive(s', g, q) {
      assert StillLive(s, g, q);
    }
  }

  /** A task changes only the tracker of a generation without late attempts, or none. */
  lemma TaskKeepsLateLive(s: State, s': State, g: GenId)
    requires LateLive(s) && TaskFrame(s, s', g) && (s.gens[g].late == {} || s'.gens[g].attempts == s.gens[g].attempts)
    ensures LateLive(s')
  {
    forall h, q | 0 <= h < |s'.gens| ensures StillLive(s', h, q) {
      assert StillLive(s, h, q);
    }
  }

  lemma DialKeepsLateLive(s: State, session: Bytes)
    requires LateLive(s) && s.loop.Recovering? && LoopNext(s, Dial(session)).Some?
    ensures LateLive(LoopNext(s, Dial(session)).value)
  {
    var s' := LoopNext(s, Dial(session)).value;
    forall h, q | 0 <= h < |s'.gens| ensures StillLive(s', h, q) {
      if h < |s.gens| {
        assert StillLive(s, h, q);
      }
    }
  }

  lemma ServingKeepsLateLive(s: State, l: LoopStep)
    requires Structure(s) && LateOk(s) && LateLive(s) && s.loop.Serving? && LoopNext(s, l).Some?
    ensures LateLive(LoopNext(s, l).value)
  {
    ServingFrame(s, s.loop.gen, s.loop.serve, l);
    assert GenLate(s.gens[s.current]);
    if s.loop.serve.ClosingOld? {
      assert l.CloseOld?;
    }
    TaskKeepsLateLive(s, LoopNext(s, l).value, s.current);
  }

  lemma LoopKeepsLateLive(s: State, l: LoopStep)
    requires Structure(s) && LateOk(s) && LateLive(s) && LoopNext(s, l).Some?
    ensures LateLive(LoopNext(s, l).value)
  {
    match s.loop {
      case Serving(_, _) => ServingKeepsLateLive(s, l);
      case Owning(g, stage) =>
        OwningFrame(s, g, stage, l);
        TaskKeepsLateLive(s, LoopNext(s, l).value, g);
      case Recovering(_) => RecoveringKeepsLateLive(s, l);
      case GivenUp => RecoveringKeepsLateLive(s, l);
      case Exited =>
    }
  }

  lemma RecoveringKeepsLateLive(s: State, l: LoopStep)
    requires LateLive(s) && (s.loop.Recovering? || s.loop.GivenUp?) && LoopNext(s, l).Some?
    ensures LateLive(LoopNext(s, l).value)
  {
    if s.loop.Recovering? && l.Dial? {
      DialKeepsLateLive(s, l.session);
    } else {
      var s' := LoopNext(s, l).value;
      forall h, q | 0 <= h < |s'.gens| ensures StillLive(s', h, q) {
        assert StillLive(s, h, q);
      }
    }
  }

  lemma ShutdownKeepsLateLive(s: State)
    requires LateLive(s) && ShutdownNext(s).Some?
    ensures LateLive(ShutdownNext(s).value)
  {
    ShutdownFrame(s);
    var s' := ShutdownNext(s).value;
    forall h, q | 0 <= h < |s'.gens| ensures StillLive(s', h, q) {
      assert StillLive(s, h, q);
    }
  }

  lemma StepKeepsLateLive(s: State, step: Step)
    requires Structure(s) && LateOk(s) && Attributed(s) && LateLive(s) && Next(s, step).Some?
    ensures LateLive(Next(s, step).value)
  {
    match step {
      case ByCaller(p, c) =>
        if c.Admit? || c.Release? {
          BoundaryKeepsLateLive(s, p, c);
        } else if c.Register? {
          RegisterKeepsLateLive(s, p, c);
        } else {
          QuietCallKeepsLateLive(s, p, c);
        }
      case ByLoopTask(l) => LoopKeepsLateLive(s, l);
      case ByShutdown => ShutdownKeepsLateLive(s);
      case _ =>
        BrokerFrame(s, step);
        TaskKeepsLateLive(s, BrokerNext(s, step).value, step.g);
    }
  }

  lemma {:induction false} FromKeepsLateLive(s: State, steps: seq<Step>)
    requires Structure(s) && Gate(s) && LateOk(s) && Attributed(s) && LateLive(s)
    requires From(s, steps).Some? && FreshFrom(s, steps)
    ensures LateLive(From(s, steps).value)
  {
    if steps != [] {
      var n := |steps| - 1;
      FromKeepsLateLive(s, steps[..n]);
      FromKeepsStructure(s, steps[..n]);
      FromKeepsLate(s, steps[..n]);
      FromKeepsAttribution(s, steps[..n]);
      StepKeepsLateLive(From(s, steps[..n]).value, steps[n]);
    }
  }

  lemma ReachableLateLive(s: State)
    requires FreshReachable(s)
    ensures LateLive(s) && Reachable(s)
  {
    var c, steps :| After(c, steps) == Some(s) && FreshFrom(Init(c.maximum, c.maxAttempts, c.session), steps);
    FromKeepsLateLive(Init(c.maximum, c.maxAttempts, c.session), steps);
  }

  /**
    When shutdown is done, an attempt is live if and only if it was registered after its generation ended and its call
    still pursues it. Every other attempt of every generation has its outcome.
   */
  lemma LiveAtDoneIff(s: State, g: GenId, q: CallId)
    requires FreshReachable(s) && (s.loop.Exited? || s.shutdown.Done?) && g < |s.gens| && q in s.gens[g].attempts
    ensures q in s.calls
    ensures s.gens[g].attempts[q].Live() <==> q in s.gens[g].late && s.calls[q].Pending()
  {
    ReachableLateLive(s);
    ReachableStructure(s);
    ShutdownClosesEveryGenerationOnce(s, g);
    assert AttemptOk(s, g, q);
    assert StillLive(s, g, q);
    if s.gens[g].attempts[q].Live() {
      LiveAfterExitIsLate(s, g, q);
    }
  }
}
