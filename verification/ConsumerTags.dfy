/**
  Delivery tags (consumer.go:422-458, 537-623): what becomes of everything a stream delivered, on which channel a
  tag is settled and how often, and what a completed drain says about the whole stream.
 */
module ConsumerTags {
  import opened Basics
  import opened ConsumerProtocol
  import opened ConsumerSafety

  /** The delivery the loop holds between receiving it and deciding about it. */
  function Hand(s: State, g: GenId, i: Incoming): nat {
    if s.loop.Consuming? && s.loop.run.gen == g && InHand(s.loop.at) && s.loop.at.incoming == i then 1 else 0
  }

  /** Every copy of an entry the broker delivered is in the stream, in hand, or decided about by its validity. */
  predicate EntryAt(s: State, g: GenId, i: Incoming)
    requires g < |s.gens|
  {
    var gen := s.gens[g];
    && gen.delivered[i] ==
         multiset(gen.stream)[i] + Hand(s, g, i) + gen.accepted[i] + gen.rejected[i] + gen.skipped[i]
    && (if i.valid then gen.rejected[i] == 0 else gen.accepted[i] == 0)
  }

  /** As many envelopes were read as entries were accepted; settlement calls are the loop's and the workers'. */
  predicate ReadAt(s: State, e: Envelope) {
    if e.gen < |s.gens| then
      && s.hist.read[e] == s.gens[e.gen].accepted[Incoming(e.tag, true)]
      && s.gens[e.gen].settled[e.tag] == s.gens[e.gen].rejected[Incoming(e.tag, false)] + s.hist.settled[e]
    else s.hist.read[e] == 0 && s.hist.settled[e] == 0
  }

  predicate HandOk(s: State) {
    s.loop.Consuming? ==>
      && (s.loop.at.Accepting? ==> s.loop.at.incoming.valid) && (s.loop.at.Rejecting? ==> !s.loop.at.incoming.valid)
  }

  predicate HasRun(loop: Loop) {
    loop.Consuming? || loop.Leaving?
  }

  /** What the loop knows about the stream it reads. */
  ghost predicate RunTagged(s: State) {
    HasRun(s.loop) ==>
      var run := s.loop.run;
      && run.gen < |s.gens|
      && (run.ended ==> s.gens[run.gen].stream == [] && s.gens[run.gen].streamClosed)
      && forall t: nat :: s.gens[run.gen].accepted[Incoming(t, true)] == multiset(run.arrived)[Envelope(run.gen, t)]
  }

  /** A delivery left behind by shutdown is always reported. */
  predicate SkipsReported(s: State) {
    !s.flags.drainErr ==> forall g | 0 <= g < |s.gens| :: s.gens[g].skipped == multiset{}
  }

  ghost predicate Tagged(s: State) {
    && HandOk(s) && RunTagged(s) && SkipsReported(s)
    && (forall g, i | 0 <= g < |s.gens| :: EntryAt(s, g, i))
    && (forall e :: ReadAt(s, e))
  }

  // ---------------------------------------------------------------- steps that leave the generations alone

  predicate SameRun(s: State, s': State) {
    HasRun(s'.loop) ==>
      HasRun(s.loop) && s'.loop.run.gen == s.loop.run.gen && s'.loop.run.arrived == s.loop.run.arrived &&
      (s'.loop.run.ended ==> s.loop.run.ended)
  }

  predicate SameHand(s: State, s': State) {
    if s.loop.Consuming? && InHand(s.loop.at) then
      s'.loop.Consuming? && InHand(s'.loop.at) && s'.loop.at.incoming == s.loop.at.incoming
    else !(s'.loop.Consuming? && InHand(s'.loop.at))
  }

  predicate SameTags(s: State, s': State) {
    && s'.gens == s.gens && s'.hist.read == s.hist.read && s'.hist.settled == s.hist.settled
    && (s.flags.drainErr ==> s'.flags.drainErr)
    && SameRun(s, s') && SameHand(s, s') && HandOk(s')
  }

  lemma SameTagsKeeps(s: State, s': State)
    requires Tagged(s) && SameTags(s, s')
    ensures Tagged(s')
  {
    forall g, i | 0 <= g < |s'.gens| ensures EntryAt(s', g, i) {
      assert EntryAt(s, g, i);
    }
    forall e ensures ReadAt(s', e) {
      assert ReadAt(s, e);
    }
  }

  lemma GateKeepsTags(s: State, l: LoopStep)
    requires Tagged(s) && s.loop.Consuming? && (s.loop.at.Top? || s.loop.at.Gated?) && LoopNext(s, l).Some?
    ensures Tagged(LoopNext(s, l).value)
  {
    var s' := LoopNext(s, l).value;
    assert SameTags(s, s') by {
      match l { case EnterGate => case AdmitOne => case LeaveGate => case _ => }
    }
    SameTagsKeeps(s, s');
  }

  lemma QuietSelectKeepsTags(s: State, l: LoopStep)
    requires Tagged(s) && s.loop.Consuming? && s.loop.at.Selecting? && LoopNext(s, l).Some?
    requires !l.Receive? && !l.StreamEnd?
    ensures Tagged(LoopNext(s, l).value)
  {
    var s' := LoopNext(s, l).value;
    assert SameTags(s, s') by {
      match l {
        case DrainExit => case Wake => case CancelNotice =>
        case FailureExit => case RecoveryDone => case LifetimeExit => case _ =>
      }
    }
    SameTagsKeeps(s, s');
  }

  lemma StreamEndKeepsTags(s: State)
    requires Tagged(s) && s.loop.Consuming? && s.loop.at.Selecting? && LoopNext(s, StreamEnd).Some?
    ensures Tagged(LoopNext(s, StreamEnd).value)
  {
    var s' := LoopNext(s, StreamEnd).value;
    forall g, i | 0 <= g < |s'.gens| ensures EntryAt(s', g, i) {
      assert EntryAt(s, g, i);
    }
    forall e ensures ReadAt(s', e) {
      assert ReadAt(s, e);
    }
  }

  // ---------------------------------------------------------------- steps that change one generation

  /** Generation `g0` changes, and what its entry counters say stays balanced. */
  lemma OneGenKeepsTags(s: State, s': State, g0: GenId)
    requires Tagged(s) && g0 < |s.gens| == |s'.gens| && s'.gens == s.gens[g0 := s'.gens[g0]]
    requires forall g, i | 0 <= g < |s.gens| && g != g0 :: Hand(s', g, i) == Hand(s, g, i)
    requires forall i :: EntryAt(s', g0, i)
    requires forall e :: ReadAt(s', e)
    requires HandOk(s') && RunTagged(s') && (s.flags.drainErr ==> s'.flags.drainErr)
    requires s'.flags.drainErr || s'.gens[g0].skipped == s.gens[g0].skipped
    ensures Tagged(s')
  {
    forall g, i | 0 <= g < |s'.gens| ensures EntryAt(s', g, i) {
      assert EntryAt(s, g, i);
    }
  }

  lemma ReceiveKeepsTags(s: State)
    requires Tagged(s) && s.loop.Consuming? && s.loop.at.Selecting? && LoopNext(s, Receive).Some?
    ensures Tagged(LoopNext(s, Receive).value)
  {
    var s' := LoopNext(s, Receive).value;
    var g0 := s.loop.run.gen;
    forall i ensures EntryAt(s', g0, i) {
      assert EntryAt(s, g0, i);
      HeadAndTail(s.gens[g0].stream, i);
    }
    forall e ensures ReadAt(s', e) {
      assert ReadAt(s, e);
    }
    OneGenKeepsTags(s, s', g0);
  }

  lemma SkipKeepsTags(s: State)
    requires Tagged(s) && s.loop.Consuming? && s.loop.at.Received? && s.flags.admissionClosed
    requires LoopNext(s, Decide).Some?
    ensures Tagged(LoopNext(s, Decide).value)
  {
    var s' := LoopNext(s, Decide).value;
    var g0 := s.loop.run.gen;
    forall i ensures EntryAt(s', g0, i) {
      assert EntryAt(s, g0, i);
    }
    forall e ensures ReadAt(s', e) {
      assert ReadAt(s, e);
    }
    OneGenKeepsTags(s, s', g0);
  }

  lemma DecideKeepsTags(s: State, l: LoopStep)
    requires Tagged(s) && s.loop.Consuming? && s.loop.at.Received? && LoopNext(s, l).Some?
    ensures Tagged(LoopNext(s, l).value)
  {
    if s.flags.admissionClosed {
      SkipKeepsTags(s);
    } else {
      SameTagsKeeps(s, LoopNext(s, l).value);
    }
  }

  lemma EnqueueKeepsEntry(s: State, i: Incoming)
    requires Tagged(s) && s.loop.Consuming? && s.loop.at.Accepting? && LoopNext(s, Enqueue).Some?
    ensures EntryAt(LoopNext(s, Enqueue).value, s.loop.run.gen, i)
  {
    assert EntryAt(s, s.loop.run.gen, i);
  }

  lemma EnqueueKeepsRead(s: State, e: Envelope)
    requires Tagged(s) && s.loop.Consuming? && s.loop.at.Accepting? && LoopNext(s, Enqueue).Some?
    ensures ReadAt(LoopNext(s, Enqueue).value, e)
  {
    assert ReadAt(s, e);
  }

  lemma EnqueueKeepsRun(s: State)
    requires Tagged(s) && s.loop.Consuming? && s.loop.at.Accepting? && LoopNext(s, Enqueue).Some?
    ensures RunTagged(LoopNext(s, Enqueue).value)
  {
    var run := s.loop.run;
    forall t: nat {
      Appended(run.arrived, Envelope(run.gen, s.loop.at.incoming.tag), Envelope(run.gen, t));
    }
  }

  lemma EnqueueKeepsTags(s: State)
    requires Tagged(s) && s.loop.Consuming? && s.loop.at.Accepting? && LoopNext(s, Enqueue).Some?
    ensures Tagged(LoopNext(s, Enqueue).value)
  {
    var s' := LoopNext(s, Enqueue).value;
    forall i ensures EntryAt(s', s.loop.run.gen, i) {
      EnqueueKeepsEntry(s, i);
    }
    forall e ensures ReadAt(s', e) {
      EnqueueKeepsRead(s, e);
    }
    EnqueueKeepsRun(s);
    OneGenKeepsTags(s, s', s.loop.run.gen);
  }

  lemma RejectKeepsEntry(s: State, l: LoopStep, i: Incoming)
    requires Tagged(s) && s.loop.Consuming? && s.loop.at.Rejecting? && LoopNext(s, l).Some?
    ensures EntryAt(LoopNext(s, l).value, s.loop.run.gen, i)
  {
    assert EntryAt(s, s.loop.run.gen, i);
  }

  lemma RejectKeepsRead(s: State, l: LoopStep, e: Envelope)
    requires Tagged(s) && s.loop.Consuming? && s.loop.at.Rejecting? && LoopNext(s, l).Some?
    ensures ReadAt(LoopNext(s, l).value, e)
  {
    assert ReadAt(s, e);
  }

  lemma RejectKeepsTags(s: State, l: LoopStep)
    requires Tagged(s) && s.loop.Consuming? && s.loop.at.Rejecting? && LoopNext(s, l).Some?
    ensures Tagged(LoopNext(s, l).value)
  {
    var s' := LoopNext(s, l).value;
    forall i ensures EntryAt(s', s.loop.run.gen, i) {
      RejectKeepsEntry(s, l, i);
    }
    forall e ensures ReadAt(s', e) {
      RejectKeepsRead(s, l, e);
    }
    OneGenKeepsTags(s, s', s.loop.run.gen);
  }

  lemma SettleKeepsRead(s: State, x: Envelope, e: Envelope)
    requires Tagged(s) && WorkNext(s, Settle(x)).Some?
    ensures ReadAt(WorkNext(s, Settle(x)).value, e)
  {
    assert ReadAt(s, e);
  }

  lemma SettleKeepsTags(s: State, x: Envelope)
    requires Tagged(s) && WorkNext(s, Settle(x)).Some?
    ensures Tagged(WorkNext(s, Settle(x)).value)
  {
    var s' := WorkNext(s, Settle(x)).value;
    forall i ensures EntryAt(s', x.gen, i) {
      assert EntryAt(s, x.gen, i);
    }
    forall e ensures ReadAt(s', e) {
      SettleKeepsRead(s, x, e);
    }
    OneGenKeepsTags(s, s', x.gen);
  }

  lemma DeliverKeepsTags(s: State, g0: GenId, incoming: Incoming)
    requires Tagged(s) && BrokerNext(s, Deliver(g0, incoming)).Some?
    ensures Tagged(BrokerNext(s, Deliver(g0, incoming)).value)
  {
    var s' := BrokerNext(s, Deliver(g0, incoming)).value;
    forall i ensures EntryAt(s', g0, i) {
      assert EntryAt(s, g0, i);
      Appended(s.gens[g0].stream, incoming, i);
    }
    forall e ensures ReadAt(s', e) {
      assert ReadAt(s, e);
    }
    OneGenKeepsTags(s, s', g0);
  }

  lemma CloseStreamKeepsTags(s: State, g0: GenId)
    requires Tagged(s) && BrokerNext(s, CloseStream(g0)).Some?
    ensures Tagged(BrokerNext(s, CloseStream(g0)).value)
  {
    var s' := BrokerNext(s, CloseStream(g0)).value;
    forall i ensures EntryAt(s', g0, i) {
      assert EntryAt(s, g0, i);
    }
    forall e ensures ReadAt(s', e) {
      assert ReadAt(s, e);
    }
    OneGenKeepsTags(s, s', g0);
  }

  lemma InstallKeepsTags(s: State)
    requires Tagged(s) && s.loop.Recovering? && !s.flags.stopping && LoopNext(s, Install).Some?
    ensures Tagged(LoopNext(s, Install).value)
  {
    var s' := LoopNext(s, Install).value;
    forall g, i | 0 <= g < |s'.gens| ensures EntryAt(s', g, i) {
      if g < |s.gens| {
        assert EntryAt(s, g, i);
      }
    }
    forall e ensures ReadAt(s', e) {
      assert ReadAt(s, e);
    }
  }

  // ---------------------------------------------------------------- every step

  lemma LoopKeepsTags(s: State, l: LoopStep)
    requires Tagged(s) && LoopNext(s, l).Some?
    ensures Tagged(LoopNext(s, l).value)
  {
    match s.loop {
      case Consuming(_, at) => ConsumingKeepsTags(s, l);
      case Recovering =>
        if l.Install? && !s.flags.stopping {
          InstallKeepsTags(s);
        } else {
          SameTagsKeeps(s, LoopNext(s, l).value);
        }
      case Leaving(_, _, _) => SameTagsKeeps(s, LoopNext(s, l).value);
      case Finishing => SameTagsKeeps(s, LoopNext(s, l).value);
      case Joining => SameTagsKeeps(s, LoopNext(s, l).value);
      case Stopped =>
    }
  }

  lemma ConsumingKeepsTags(s: State, l: LoopStep)
    requires Tagged(s) && s.loop.Consuming? && LoopNext(s, l).Some?
    ensures Tagged(LoopNext(s, l).value)
  {
    match s.loop.at {
      case Top => GateKeepsTags(s, l);
      case Gated(_) => GateKeepsTags(s, l);
      case Selecting(_) =>
        match l {
          case Receive => ReceiveKeepsTags(s);
          case StreamEnd => StreamEndKeepsTags(s);
          case _ => QuietSelectKeepsTags(s, l);
        }
      case Received(_) => DecideKeepsTags(s, l);
      case Accepting(_) => EnqueueKeepsTags(s);
      case Rejecting(_) => RejectKeepsTags(s, l);
    }
  }

  lemma StepKeepsTags(s: State, step: Step)
    requires Tagged(s) && Next(s, step).Some?
    ensures Tagged(Next(s, step).value)
  {
    match step {
      case ByLoop(l) => LoopKeepsTags(s, l);
      case Deliver(g, incoming) => DeliverKeepsTags(s, g, incoming);
      case CloseStream(g) => CloseStreamKeepsTags(s, g);
      case Settle(e) => SettleKeepsTags(s, e);
      case TakeJob => SameTagsKeeps(s, Next(s, step).value);
      case Delegate(_) => SameTagsKeeps(s, Next(s, step).value);
      case Complete(_) => SameTagsKeeps(s, Next(s, step).value);
      case _ => SameTagsKeeps(s, Next(s, step).value);
    }
  }

  lemma {:induction false} FromKeepsTags(s: State, steps: seq<Step>)
    requires Tagged(s) && From(s, steps).Some?
    ensures Tagged(From(s, steps).value)
  {
    if steps != [] {
      var n := |steps| - 1;
      FromKeepsTags(s, steps[..n]);
      StepKeepsTags(From(s, steps[..n]).value, steps[n]);
    }
  }

  lemma ReachableTagged(s: State)
    requires Reachable(s)
    ensures Tagged(s)
  {
    var prefetch: nat, concurrency: nat, steps :| From(Init(prefetch, concurrency), steps) == Some(s);
    FromKeepsTags(Init(prefetch, concurrency), steps);
  }

  // ---------------------------------------------------------------- what the channels see

  /** How often generation `g`'s stream delivered tag `t`. */
  function TimesDelivered(s: State, g: GenId, t: nat): nat
    requires g < |s.gens|
  {
    s.gens[g].delivered[Incoming(t, true)] + s.gens[g].delivered[Incoming(t, false)]
  }

  /**
    A channel sees no more settlements of a tag than its own stream delivered, whatever the run and however many
    generations it went through: none for a tag of another generation, and at most one if tags are unique.
   */
  lemma SettledAtMostOnce(s: State, g: GenId, t: nat)
    requires Reachable(s) && g < |s.gens|
    ensures s.gens[g].settled[t] <= TimesDelivered(s, g, t)
  {
    ReachableTagged(s);
    ReachableConserves(s);
    assert ConservedAt(s, Envelope(g, t)) && ReadAt(s, Envelope(g, t));
    assert EntryAt(s, g, Incoming(t, true)) && EntryAt(s, g, Incoming(t, false));
  }

  /** With a unique tag, a valid delivery that was read is in exactly one place, and was rejected or skipped nowhere. */
  lemma InExactlyOnePlace(s: State, e: Envelope)
    requires Reachable(s) && e in s.hist.read
    requires e.gen < |s.gens| ==> TimesDelivered(s, e.gen, e.tag) <= 1
    ensures e.gen < |s.gens| && Places(s, e) == 1
    ensures forall valid :: s.gens[e.gen].rejected[Incoming(e.tag, valid)] == 0
    ensures forall valid :: s.gens[e.gen].skipped[Incoming(e.tag, valid)] == 0
  {
    ReachableTagged(s);
    ReachableConserves(s);
    assert ConservedAt(s, e) && ReadAt(s, e);
    assert EntryAt(s, e.gen, Incoming(e.tag, true)) && EntryAt(s, e.gen, Incoming(e.tag, false));
  }

  // ---------------------------------------------------------------- drain

  /**
    If consumeGeneration leaves by its drain-complete exit and no drain error is recorded, then of everything the
    broker ever delivered on that stream each valid delivery entered jobs, as often and in the order it arrived, each
    invalid one was rejected, and none was left behind.
   */
  lemma DrainCompleteMeansAllAdmitted(s: State, t: nat)
    requires Reachable(s) && s.loop.Leaving? && s.loop.drained && !s.flags.drainErr
    ensures s.loop.run.gen < |s.gens| && s.loop.run.admitted == s.loop.run.arrived
    ensures var gen := s.gens[s.loop.run.gen];
            && gen.stream == [] && gen.streamClosed && gen.skipped == multiset{}
            && gen.delivered[Incoming(t, true)] == multiset(s.loop.run.admitted)[Envelope(s.loop.run.gen, t)]
            && gen.delivered[Incoming(t, false)] == gen.rejected[Incoming(t, false)]
  {
    ReachableLoopOk(s);
    ReachableTagged(s);
    DrainedRingIsAdmitted(s);
    var g := s.loop.run.gen;
    assert EntryAt(s, g, Incoming(t, true)) && EntryAt(s, g, Incoming(t, false));
  }
}
