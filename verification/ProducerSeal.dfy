/**
  Exactly when a failed send seals its tracker (producer.go:360-427, 500-543). While the producer is not closed it
  always does. Once `closed` is set the failure marks nothing, and whether the tracker stays open depends on what a
  waiting call would still find.
 */
module ProducerSeal {
  import opened Basics
  import opened TrackerSpec
  import Text
  import opened ProducerProtocol
  import opened ProducerStructure
  import opened ProducerFrames
  import opened ProducerWindow
  import opened ProducerGate

  // ---------------------------------------------------------------- a closed producer that nobody can register on

  predicate Nobody(s: State, phase: Phase) {
    forall p | p in s.calls :: s.calls[p] != phase
  }

  predicate NobodyBefore(s: State) {
    forall p | p in s.calls :: !s.calls[p].Admitted? && !s.calls[p].Entered?
  }

  /** Every call still on its way to registration will be turned away. */
  predicate Barred(s: State) {
    && s.closed && Nobody(s, Entered(Available))
    && (|| s.unavailable
        || (s.shutdownClosing && Nobody(s, Entered(NotClosing)))
        || NobodyBefore(s))
  }

  /** Where a step can bring a call of a closed producer on its way to registration. */
  predicate Flows(s: State, before: Phase, after: Phase) {
    && !after.Admitted?
    && (after.Entered? ==> before.Admitted? || before.Entered?)
    && (after == Entered(NotClosing) ==> !s.shutdownClosing)
    && (after == Entered(Available) ==> !s.unavailable && before == Entered(NotClosing))
  }

  lemma HeldFlow(s: State, p: CallId, g: GenId, stage: HeldStage, c: CallStep)
    requires g < |s.gens| && p in s.gens[g].attempts && HeldNext(s, p, g, stage, c).Some?
    ensures p in HeldNext(s, p, g, stage, c).value.calls
    ensures !HeldNext(s, p, g, stage, c).value.calls[p].Admitted? && !HeldNext(s, p, g, stage, c).value.calls[p].Entered?
  {
    match c {
      case CheckClosingAgain => CheckAgainFlow(s, p, g);
      case Mark => MarkFlow(s, p, g, stage);
      case Signal => case SendEnds(_) => case Unlock => case _ =>
    }
  }

  lemma CheckAgainFlow(s: State, p: CallId, g: GenId)
    requires g < |s.gens| && p in s.gens[g].attempts
    ensures var s' := HeldNext(s, p, g, Registered, CheckClosingAgain).value;
            p in s'.calls && !s'.calls[p].Admitted? && !s'.calls[p].Entered?
  {
    if s.shutdownClosing { } else { }
  }

  lemma MarkFlow(s: State, p: CallId, g: GenId, stage: HeldStage)
    requires g < |s.gens| && p in s.gens[g].attempts && stage.Marking?
    ensures var s' := HeldNext(s, p, g, stage, Mark).value;
            p in s'.calls && !s'.calls[p].Admitted? && !s'.calls[p].Entered?
  {
    if s.current != g || s.closed { } else { }
  }

  lemma AbandonedFlow(s: State, p: CallId, g: GenId)
    requires g < |s.gens| && p in s.gens[g].attempts
    ensures p in Abandoned(s, p, g).calls
    ensures !Abandoned(s, p, g).calls[p].Admitted? && !Abandoned(s, p, g).calls[p].Entered?
  {
    if LiveSequence(s.gens[g], s.gens[g].attempts[p].sequence) { } else { }
  }

  lemma LooseFlow(s: State, p: CallId, g: GenId, stage: LooseStage, c: CallStep)
    requires g < |s.gens| && p in s.gens[g].attempts && LooseNext(s, p, g, stage, c).Some?
    ensures p in LooseNext(s, p, g, stage, c).value.calls
    ensures !LooseNext(s, p, g, stage, c).value.calls[p].Admitted? && !LooseNext(s, p, g, stage, c).value.calls[p].Entered?
  {
    match c {
      case FailAttempt => AbandonedFlow(s, p, g);
      case GiveUp => AbandonedFlow(s, p, g);
      case Recheck => case DropPreflight => case ContextDone => case Receive => case _ =>
    }
  }

  /** How a call gets nearer to registration. */
  lemma PhaseFlow(s: State, p: CallId, c: CallStep)
    requires p in s.calls && CallNext(s, p, c).Some?
    ensures p in CallNext(s, p, c).value.calls && Flows(s, s.calls[p], CallNext(s, p, c).value.calls[p])
  {
    match s.calls[p] {
      case Held(g, stage) => HeldFlow(s, p, g, stage, c);
      case Loose(g, stage) => LooseFlow(s, p, g, stage, c);
      case Entered(stage) => EnteredFlow(s, p, stage, c);
      case Admitted => AdmittedPhase(s, p, c);
      case Finished(_, _) => assert c.Release?;
      case Released(_, _) =>
    }
  }

  lemma EnteredFlow(s: State, p: CallId, stage: EntryStage, c: CallStep)
    requires p in s.calls && s.calls[p] == Entered(stage) && EnteredNext(s, p, stage, c).Some?
    ensures p in EnteredNext(s, p, stage, c).value.calls
    ensures var phase := EnteredNext(s, p, stage, c).value.calls[p];
      && !phase.Admitted?
      && (phase == Entered(NotClosing) ==> !s.shutdownClosing)
      && (phase == Entered(Available) ==> !s.unavailable && stage.NotClosing?)
  {
    match c { case CheckClosing => case CheckAvailable => case Register(_, _, _) => case _ => }
  }

  /** What a step of a closed producer keeps of the flags that bar registration. */
  predicate KeepsFlags(s: State, s': State) {
    s'.closed && (s.unavailable ==> s'.unavailable) && (s.shutdownClosing ==> s'.shutdownClosing)
  }

  ghost predicate OnlyMoves(s: State, s': State, p: CallId) {
    forall q | q != p && q in s'.calls :: q in s.calls && s'.calls[q] == s.calls[q]
  }

  lemma RegisterKeepsFlags(s: State, p: CallId, c: CallStep)
    requires Structure(s) && s.closed && c.Register? && CallNext(s, p, c).Some?
    ensures KeepsFlags(s, CallNext(s, p, c).value) && OnlyMoves(s, CallNext(s, p, c).value, p)
  {
    RegisterCases(s, p, c);
  }

  lemma ReleaseKeepsFlags(s: State, p: CallId)
    requires s.closed && CallNext(s, p, Release).Some?
    ensures KeepsFlags(s, CallNext(s, p, Release).value) && OnlyMoves(s, CallNext(s, p, Release).value, p)
  {
  }

  lemma QuietCallKeepsFlags(s: State, p: CallId, c: CallStep)
    requires Structure(s) && s.closed && CallNext(s, p, c).Some? && !c.Admit? && !c.Release? && !c.Register? && !c.Mark?
    ensures KeepsFlags(s, CallNext(s, p, c).value) && OnlyMoves(s, CallNext(s, p, c).value, p)
  {
    CallStepFrame(s, p, c);
  }

  lemma CallKeepsFlags(s: State, p: CallId, c: CallStep)
    requires Structure(s) && s.closed && CallNext(s, p, c).Some?
    ensures KeepsFlags(s, CallNext(s, p, c).value) && OnlyMoves(s, CallNext(s, p, c).value, p)
  {
    if c.Admit? {
      assert CallNext(s, p, c) == Some(s);
    } else if c.Release? {
      ReleaseKeepsFlags(s, p);
    } else if c.Register? {
      RegisterKeepsFlags(s, p, c);
    } else if c.Mark? {
      MarkWhenClosed(s, p);
    } else {
      QuietCallKeepsFlags(s, p, c);
    }
  }

  lemma MarkWhenClosed(s: State, p: CallId)
    requires s.closed && CallNext(s, p, Mark).Some?
    ensures p in s.calls && s.calls[p].Held? && s.calls[p].held.Marking?
    ensures CallNext(s, p, Mark) ==
            Some(WithPhase(s, p, Held(s.calls[p].gen, Signalling(s.calls[p].held.kind))))
  {
    match s.calls[p] { case Held(_, stage) => case _ => }
  }

  lemma CallKeepsBarred(s: State, p: CallId, c: CallStep)
    requires Structure(s) && Barred(s) && CallNext(s, p, c).Some?
    ensures Barred(CallNext(s, p, c).value)
  {
    if c.Admit? {
      assert CallNext(s, p, c) == Some(s);
    } else {
      PhaseFlow(s, p, c);
      CallKeepsFlags(s, p, c);
    }
  }

  lemma ServingKeepsFlags(s: State, g: GenId, stage: ServeStage, l: LoopStep)
    requires s.closed && g < |s.gens| && ServingNext(s, g, stage, l).Some?
    ensures KeepsFlags(s, ServingNext(s, g, stage, l).value) && ServingNext(s, g, stage, l).value.calls == s.calls
  {
    ServingFrame(s, g, stage, l);
    match l { case MarkEnd => case FinishRecovered => case _ => }
  }

  lemma OwningKeepsFlags(s: State, g: GenId, stage: OwnStage, l: LoopStep)
    requires s.closed && g < |s.gens| && OwningNext(s, g, stage, l).Some?
    ensures KeepsFlags(s, OwningNext(s, g, stage, l).value) && OwningNext(s, g, stage, l).value.calls == s.calls
  {
    match l { case SetupFails => case SetupWorks => case LockInstall => case Install => case DiscardClose => case _ => }
  }

  lemma RecoveringKeepsFlags(s: State, attempt: nat, l: LoopStep)
    requires s.closed && RecoveringNext(s, attempt, l).Some?
    ensures KeepsFlags(s, RecoveringNext(s, attempt, l).value) && RecoveringNext(s, attempt, l).value.calls == s.calls
  {
    match l { case Skip => case Dial(_) => case Quit => case _ => }
  }

  lemma LoopKeepsFlags(s: State, l: LoopStep)
    requires s.closed && LoopNext(s, l).Some?
    ensures KeepsFlags(s, LoopNext(s, l).value) && LoopNext(s, l).value.calls == s.calls
  {
    match s.loop {
      case Serving(g, stage) => ServingKeepsFlags(s, g, stage, l);
      case Owning(g, stage) => OwningKeepsFlags(s, g, stage, l);
      case Recovering(attempt) => RecoveringKeepsFlags(s, attempt, l);
      case GivenUp => case Exited =>
    }
  }

  lemma StepKeepsBarred(s: State, step: Step)
    requires Structure(s) && Barred(s) && Next(s, step).Some?
    ensures Barred(Next(s, step).value)
  {
    match step {
      case ByCaller(p, c) => CallKeepsBarred(s, p, c);
      case ByLoopTask(l) => LoopKeepsFlags(s, l);
      case ByShutdown => ShutdownFrame(s);
      case _ => BrokerFrame(s, step);
    }
  }

  // ---------------------------------------------------------------- no new attempts

  /** No attempt was added to generation `g`. */
  ghost predicate Frozen(s: State, s': State, g: GenId) {
    g < |s.gens| && g < |s'.gens| && s'.gens[g].attempts.Keys == s.gens[g].attempts.Keys
  }

  lemma StepFreezes(s: State, step: Step, g: GenId)
    requires Structure(s) && g < |s.gens| && Nobody(s, Entered(Available)) && Next(s, step).Some?
    ensures Frozen(s, Next(s, step).value, g)
  {
    StepEvolves(s, step, g);
    assert !Registers(s, step, g) by {
      if Registers(s, step, g) {
        RegisterCases(s, step.p, step.c);
      }
    }
  }

  lemma {:induction false} BarredFreezes(s: State, steps: seq<Step>, g: GenId)
    requires Structure(s) && Barred(s) && g < |s.gens| && From(s, steps).Some?
    ensures Barred(From(s, steps).value) && Frozen(s, From(s, steps).value, g)
  {
    if steps != [] {
      var n := |steps| - 1;
      BarredFreezes(s, steps[..n], g);
      FromKeepsStructure(s, steps[..n]);
      var before := From(s, steps[..n]).value;
      StepKeepsBarred(before, steps[n]);
      StepFreezes(before, steps[n], g);
    }
  }

  // ---------------------------------------------------------------- a waiting call that gets through

  /** The number a token of this session stands for. */
  ghost function Decoded(session: Bytes, token: Bytes): nat {
    if exists n: nat :: token == Text.Token(session, n) then
      var n: nat :| token == Text.Token(session, n);
      n
    else 0
  }

  lemma DecodedToken(session: Bytes, n: nat)
    ensures Decoded(session, Text.Token(session, n)) == n
  {
    var token := Text.Token(session, n);
    var m: nat :| token == Text.Token(session, m) && Decoded(session, token) == m;
    Text.TokenInjective(session, m, n);
  }

  lemma {:induction false} Beyond(used: set<nat>) returns (n: nat)
    ensures forall m | m in used :: m < n
    ensures n > 0
    decreases |used|
  {
    n := 1;
    if used != {} {
      var m :| m in used;
      n := Beyond(used - {m});
      assert forall k | k in used :: k == m || k in used - {m};
      if n <= m {
        n := m + 1;
      }
    }
  }

  /** Some sequence clashes with no attempt of a tracker. */
  lemma FreshSequence(t: map<CallId, Record>, session: Bytes) returns (sequence: nat)
    ensures sequence > 0 && !Clashes(t, sequence, Text.Token(session, sequence))
  {
    var sequences := set q | q in t :: t[q].sequence;
    var tokens := set q | q in t :: Decoded(session, t[q].token);
    sequence := Beyond(sequences + tokens);
    forall q | q in t ensures t[q].sequence != sequence && t[q].token != Text.Token(session, sequence) {
      assert t[q].sequence in sequences + tokens;
      assert Decoded(session, t[q].token) in sequences + tokens;
      DecodedToken(session, sequence);
    }
  }

  /** Like `s`, except for what call `p` and a spawned closer changed. */
  predicate Unlocked(s: State, u: State, p: CallId) {
    && u.lock.Free? && u.current == s.current < |u.gens| && u.closed == s.closed
    && u.unavailable == s.unavailable && u.shutdownClosing == s.shutdownClosing
    && (forall q | q in s.calls && q != p :: q in u.calls && u.calls[q] == s.calls[q])
  }

  lemma SignalEffect(s: State, p: CallId, g: GenId, kind: SendKind)
    requires g < |s.gens| && p in s.gens[g].attempts
    requires p in s.calls && s.calls[p] == Held(g, Signalling(kind))
    ensures CallNext(s, p, Signal).Some?
    ensures var t := CallNext(s, p, Signal).value;
      && t == s.(calls := s.calls[p := Held(g, Unlocking(kind))], gens := t.gens)
      && |t.gens| == |s.gens| && forall h | 0 <= h < |s.gens| :: t.gens[h].attempts == s.gens[h].attempts
  {
    if kind.TimedOut? { } else { }
  }

  /** After marking, the failed call signals and releases the lock. */
  lemma FailedCallUnlocks(s: State, p: CallId, g: GenId, kind: SendKind) returns (u: State)
    requires g < |s.gens| && p in s.gens[g].attempts && s.current < |s.gens|
    requires p in s.calls && s.calls[p] == Held(g, Signalling(kind))
    ensures Leads(s, u) && Unlocked(s, u, p) && u.gens[s.current].attempts == s.gens[s.current].attempts
  {
    LeadsNowhere(s);
    SignalEffect(s, p, g, kind);
    var signalled := CallNext(s, p, Signal).value;
    LeadsFurther(s, s, ByCaller(p, Signal), signalled);
    u := Moved(signalled, p, Loose(g, AfterSend(kind)), Free);
    LeadsFurther(s, signalled, ByCaller(p, Unlock), u);
  }

  /** A waiting call takes the free lock and passes both checks. */
  lemma WaitingCallEnters(s: State, u: State, q: CallId) returns (a: State)
    requires Leads(s, u) && u.lock.Free? && !u.shutdownClosing && !u.unavailable && q in u.calls && u.calls[q].Admitted?
    ensures a == Moved(u, q, Entered(Available), ByCall(q)) && Leads(s, a)
  {
    var locked := Moved(u, q, Entered(Locked), ByCall(q));
    var checked := Moved(u, q, Entered(NotClosing), ByCall(q));
    a := Moved(u, q, Entered(Available), ByCall(q));
    assert locked.calls[q := Entered(NotClosing)] == checked.calls;
    assert checked.calls[q := Entered(Available)] == a.calls;
    LeadsFurther(s, u, ByCaller(q, AcquireLock), locked);
    assert CallNext(locked, q, CheckClosing) == Some(checked);
    LeadsFurther(s, locked, ByCaller(q, CheckClosing), checked);
    assert CallNext(checked, q, CheckAvailable) == Some(a);
    LeadsFurther(s, checked, ByCaller(q, CheckAvailable), a);
  }

  /** It then registers, since the window has room and some sequence is fresh. */
  lemma AvailableCallRegisters(s: State, a: State, q: CallId) returns (t: State)
    requires Leads(s, a) && Reachable(a) && q in a.calls && a.calls[q] == Entered(Available) && a.current < |a.gens|
    ensures Leads(s, t) && a.current < |t.gens| && q in t.gens[a.current].attempts
  {
    var gen := a.gens[a.current];
    var sequence := FreshSequence(gen.attempts, gen.session);
    var token := Text.Token(gen.session, sequence);
    RegistrationNeverFull(a, q, sequence, token);
    assert Refusal(a.maximum, gen.attempts, sequence, token).None?;
    t := Inserted(a, q, NewRecord(sequence, token, [], []));
    LeadsFurther(s, a, ByCaller(q, Register(sequence, [], [])), t);
  }

  // ---------------------------------------------------------------- the exact condition

  /** Some run from `s` adds an attempt to generation `g`. */
  ghost predicate CanRegister(s: State, g: GenId) {
    exists t, q :: Leads(s, t) && g < |s.gens| && g < |t.gens| && q in t.gens[g].attempts && q !in s.gens[g].attempts
  }

  ghost predicate SomebodyWaits(s: State) {
    exists q | q in s.calls :: s.calls[q].Admitted?
  }

  lemma FrozenCannotRegister(s: State, g: GenId)
    requires forall t | Leads(s, t) :: Frozen(s, t, g)
    ensures !CanRegister(s, g)
  {
  }

  /** Before shutdown the failure seals the tracker. */
  lemma OpenFailureSeals(s: State, p: CallId, marked: State)
    requires Structure(s) && Gate(s) && !s.closed && CallNext(s, p, Mark) == Some(marked)
    ensures !CanRegister(marked, s.current)
  {
    MarkBreaks(s, p);
    forall t | Leads(marked, t) ensures Frozen(marked, t, s.current) {
      var later :| From(marked, later) == Some(t);
      FailedSendSeals(s, p, marked, later, t);
    }
    FrozenCannotRegister(marked, s.current);
  }

  /** After it, it does so if nothing can get past the checks any more. */
  lemma BarredFailureSeals(s: State, p: CallId, marked: State)
    requires Structure(s) && s.closed && CallNext(s, p, Mark) == Some(marked)
    requires s.unavailable || s.shutdownClosing || !SomebodyWaits(s)
    ensures !CanRegister(marked, s.current)
  {
    MarkWhenClosed(s, p);
    CallKeepsStructure(s, p, Mark);
    forall q | q in marked.calls ensures !marked.calls[q].Entered? {
      if q != p {
        LockKeepsOthersOut(s, p, q);
      }
    }
    assert Barred(marked);
    forall t | Leads(marked, t) ensures Frozen(marked, t, s.current) {
      var later :| From(marked, later) == Some(t);
      BarredFreezes(marked, later, s.current);
    }
    FrozenCannotRegister(marked, s.current);
  }

  lemma LockKeepsOthersOut(s: State, p: CallId, q: CallId)
    requires Structure(s) && p in s.calls && s.calls[p].Held? && q in s.calls && q != p
    ensures !s.calls[q].Entered?
  {
    assert CallOk(s, p);
    assert CallOk(s, q);
  }

  lemma ReachableLeads(s: State, t: State)
    requires Reachable(s) && Leads(s, t)
    ensures Reachable(t)
  {
    var steps :| From(s, steps) == Some(t);
    ReachableFrom(s, steps);
  }

  lemma WaitingCallGetsThrough(s: State, p: CallId, marked: State, q: CallId)
    requires Reachable(s) && Structure(s) && s.closed && !s.unavailable && !s.shutdownClosing
    requires CallNext(s, p, Mark) == Some(marked) && q in s.calls && s.calls[q].Admitted?
    ensures CanRegister(marked, s.current)
  {
    MarkWhenClosed(s, p);
    assert CallOk(s, p);
    assert q in s.gens[s.current].attempts ==> AttemptOk(s, s.current, q);
    ReachableFurther(s, ByCaller(p, Mark), marked);
    var u := FailedCallUnlocks(marked, p, s.calls[p].gen, s.calls[p].held.kind);
    var a := WaitingCallEnters(marked, u, q);
    ReachableLeads(marked, a);
    var t := AvailableCallRegisters(marked, a, q);
    assert Leads(marked, t) && q in t.gens[s.current].attempts && q !in marked.gens[s.current].attempts;
  }

  /**
    For every reachable state in which a failed or timed-out send is being marked: some continuation registers on the
    same tracker if and only if the producer is closed, available, not past draining, and a call waits for the lock.
   */
  lemma FailedSendLeavesTrackerOpenIff(s: State, p: CallId, marked: State)
    requires Reachable(s) && CallNext(s, p, Mark) == Some(marked)
    ensures CanRegister(marked, s.current) <==>
            s.closed && !s.unavailable && !s.shutdownClosing && SomebodyWaits(s)
  {
    ReachableStructure(s);
    ReachableGate(s);
    if !s.closed {
      OpenFailureSeals(s, p, marked);
    } else if s.unavailable || s.shutdownClosing || !SomebodyWaits(s) {
      BarredFailureSeals(s, p, marked);
    } else {
      var q :| q in s.calls && s.calls[q].Admitted?;
      WaitingCallGetsThrough(s, p, marked, q);
    }
  }
}
