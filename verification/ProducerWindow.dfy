/** The admission window: active calls, tracker capacity and the drain signal (producer.go:475-490, 566-577, 861-873). */
module ProducerWindow {
  import opened Basics
  import opened TrackerSpec
  import Text
  import opened ProducerProtocol
  import opened ProducerStructure
  import opened ProducerFrames

  /** Calls that were admitted and have not released their slot. */
  ghost function OpenCalls(s: State): set<CallId> {
    set p | p in s.calls && !s.calls[p].Released?
  }

  ghost predicate Window(s: State) {
    && s.active == |OpenCalls(s)| <= s.maximum
    && s.drainSignals == if s.closed && s.active == 0 then 1 else 0
  }

  lemma AdmitKeepsWindow(s: State, p: CallId)
    requires Window(s) && CallNext(s, p, Admit).Some?
    ensures Window(CallNext(s, p, Admit).value)
  {
    var s' := CallNext(s, p, Admit).value;
    if s' != s {
      assert OpenCalls(s') == OpenCalls(s) + {p};
    }
  }

  lemma ReleaseKeepsWindow(s: State, p: CallId)
    requires Window(s) && CallNext(s, p, Release).Some?
    ensures Window(CallNext(s, p, Release).value)
  {
    var s' := CallNext(s, p, Release).value;
    match s.calls[p] {
      case Finished(_, _) => assert OpenCalls(s) == OpenCalls(s') + {p};
      case _ =>
    }
  }

  /** Neither the counters nor the set of open calls change. */
  lemma QuietKeepsWindow(s: State, s': State)
    requires Window(s) && SameCounters(s, s')
    requires forall p :: p in OpenCalls(s') <==> p in OpenCalls(s)
    ensures Window(s')
  {
    assert OpenCalls(s') == OpenCalls(s);
  }

  lemma InsertKeepsWindow(s: State, p: CallId, record: Record)
    requires Window(s) && s.current < |s.gens| && p in s.calls && !s.calls[p].Released?
    ensures Window(Inserted(s, p, record))
  {
    QuietKeepsWindow(s, Inserted(s, p, record));
  }

  lemma LeaveKeepsWindow(s: State, p: CallId)
    requires Window(s) && p in s.calls && !s.calls[p].Released?
    ensures Window(Leave(s, p))
  {
    QuietKeepsWindow(s, Leave(s, p));
  }

  lemma RegisterKeepsWindow(s: State, p: CallId, c: CallStep)
    requires Structure(s) && Window(s) && c.Register? && CallNext(s, p, c).Some?
    ensures Window(CallNext(s, p, c).value)
  {
    RegisterCases(s, p, c);
    LeaveKeepsWindow(s, p);
    InsertKeepsWindow(s, p, NewRecord(c.sequence, Text.Token(s.gens[s.current].session, c.sequence), c.exchange, c.route));
  }

  lemma CallKeepsWindow(s: State, p: CallId, c: CallStep)
    requires Structure(s) && Window(s) && CallNext(s, p, c).Some?
    ensures Window(CallNext(s, p, c).value)
  {
    if c.Admit? {
      AdmitKeepsWindow(s, p);
    } else if c.Release? {
      ReleaseKeepsWindow(s, p);
    } else if c.Register? {
      RegisterKeepsWindow(s, p, c);
    } else {
      QuietCallKeepsWindow(s, p, c);
    }
  }

  lemma QuietCallKeepsWindow(s: State, p: CallId, c: CallStep)
    requires Structure(s) && Window(s) && CallNext(s, p, c).Some? && !c.Admit? && !c.Release? && !c.Register?
    ensures Window(CallNext(s, p, c).value)
  {
    CallStepFrame(s, p, c);
    QuietKeepsWindow(s, CallNext(s, p, c).value);
  }

  lemma ShutdownKeepsWindow(s: State)
    requires Structure(s) && Window(s) && ShutdownNext(s).Some?
    ensures Window(ShutdownNext(s).value)
  {
    ShutdownFrame(s);
    assert OpenCalls(ShutdownNext(s).value) == OpenCalls(s);
    match s.shutdown { case Open => case _ => }
  }

  lemma LoopKeepsWindow(s: State, l: LoopStep)
    requires Window(s) && LoopNext(s, l).Some?
    ensures Window(LoopNext(s, l).value)
  {
    LoopCounters(s, l);
    QuietKeepsWindow(s, LoopNext(s, l).value);
  }

  lemma BrokerKeepsWindow(s: State, step: Step)
    requires Window(s) && BrokerStep(step) && BrokerNext(s, step).Some?
    ensures Window(BrokerNext(s, step).value)
  {
    BrokerFrame(s, step);
    QuietKeepsWindow(s, BrokerNext(s, step).value);
  }

  lemma StepKeepsWindow(s: State, step: Step)
    requires Structure(s) && Window(s) && Next(s, step).Some?
    ensures Window(Next(s, step).value)
  {
    match step {
      case ByCaller(p, c) => CallKeepsWindow(s, p, c);
      case ByLoopTask(l) => LoopKeepsWindow(s, l);
      case ByShutdown => ShutdownKeepsWindow(s);
      case _ => BrokerKeepsWindow(s, step);
    }
  }

  lemma {:induction false} FromKeepsWindow(s: State, steps: seq<Step>)
    requires Structure(s) && Window(s) && From(s, steps).Some?
    ensures Window(From(s, steps).value)
  {
    if steps != [] {
      var n := |steps| - 1;
      FromKeepsWindow(s, steps[..n]);
      FromKeepsStructure(s, steps[..n]);
      StepKeepsWindow(From(s, steps[..n]).value, steps[n]);
    }
  }

  /** Always, the active count is the number of open calls and never exceeds the window. */
  lemma WindowHolds(s: State)
    requires Reachable(s)
    ensures Window(s)
  {
    var c, steps :| After(c, steps) == Some(s);
    var init := Init(c.maximum, c.maxAttempts, c.session);
    assert OpenCalls(init) == {};
    FromKeepsWindow(init, steps);
  }

  /** Live entries of any tracker belong to distinct open calls, all different from one that is about to register. */
  lemma LiveEntriesAreOpenCalls(s: State, g: GenId, p: CallId)
    requires Structure(s) && g < |s.gens| && p in s.calls && s.calls[p] == Entered(Available)
    ensures LiveKeys(s.gens[g].attempts) <= OpenCalls(s) - {p}
  {
    forall q | q in LiveKeys(s.gens[g].attempts) ensures q in OpenCalls(s) - {p} {
      assert AttemptOk(s, g, q);
    }
  }

  /** A call that reaches registration is never refused for want of a slot, whatever sequence it draws. */
  lemma RegistrationNeverFull(s: State, p: CallId, sequence: nat, token: Bytes)
    requires Reachable(s) && p in s.calls && s.calls[p] == Entered(Available)
    ensures s.current < |s.gens|
    ensures Refusal(s.maximum, s.gens[s.current].attempts, sequence, token) in {None, Some(InvalidCorrelation)}
  {
    ReachableStructure(s);
    WindowHolds(s);
    var live := LiveKeys(s.gens[s.current].attempts);
    LiveEntriesAreOpenCalls(s, s.current, p);
    SubsetSize(live + {p}, OpenCalls(s));
    assert |live + {p}| == |live| + 1;
  }

  ghost predicate Drained(s: State) {
    s.closed && s.active == 0
  }

  lemma CallKeepsDrained(s: State, p: CallId, c: CallStep)
    requires Structure(s) && Window(s) && Drained(s) && CallNext(s, p, c).Some?
    ensures Drained(CallNext(s, p, c).value)
  {
    if c.Register? {
      RegisterCases(s, p, c);
    } else if !c.Admit? && !c.Release? {
      CallStepFrame(s, p, c);
    }
  }

  lemma DrainedIsStable(s: State, step: Step)
    requires Structure(s) && Window(s) && Drained(s) && Next(s, step).Some?
    ensures Drained(Next(s, step).value)
  {
    match step {
      case ByCaller(p, c) => CallKeepsDrained(s, p, c);
      case ByLoopTask(l) => LoopCounters(s, l);
      case ByShutdown => match s.shutdown { case Open => case _ => }
      case _ => BrokerFrame(s, step);
    }
  }

  lemma {:induction false} DrainedForever(s: State, steps: seq<Step>)
    requires Structure(s) && Window(s) && Drained(s) && From(s, steps).Some?
    ensures Drained(From(s, steps).value)
  {
    if steps != [] {
      var n := |steps| - 1;
      DrainedForever(s, steps[..n]);
      FromKeepsWindow(s, steps[..n]);
      FromKeepsStructure(s, steps[..n]);
      DrainedIsStable(From(s, steps[..n]).value, steps[n]);
    }
  }

  /** The drain condition is found true at most once in a run, and from then on no call is ever active again. */
  lemma DrainsExactlyOnce(s: State, steps: seq<Step>)
    requires Reachable(s) && From(s, steps).Some?
    ensures s.drainSignals <= 1
    ensures s.drainSignals == 1 ==>
              From(s, steps).value.closed && From(s, steps).value.active == 0 && From(s, steps).value.drainSignals == 1
  {
    ReachableStructure(s);
    WindowHolds(s);
    FromKeepsWindow(s, steps);
    if Drained(s) {
      DrainedForever(s, steps);
    }
  }
}
