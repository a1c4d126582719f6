/**
  consumer.go and consumer_open.go: delivery intake, the admission gates, handler workers, drain, shutdown and
  generation replacement, as one transition system. The consume loop, any number of workers up to the configured
  concurrency, callers of Pause, Resume, Drain and Shutdown, and an unconstrained broker interleave.
 */
module ConsumerProtocol {
  import opened Basics

  type GenId = nat

  /** One entry of a generation's delivery stream; `valid` says whether conversion will accept it. */
  datatype Incoming = Incoming(tag: nat, valid: bool)

  /** A delivery on its way to a handler, with the generation on whose channel it will be settled. */
  datatype Envelope = Envelope(gen: GenId, tag: nat)

  datatype Generation = Generation(
    stream: seq<Incoming>,
    streamClosed: bool,
    // history of this generation
    delivered: multiset<Incoming>,
    accepted: multiset<Incoming>,    // converted and put in the ring
    rejected: multiset<Incoming>,    // refused by conversion: the loop settled them
    skipped: multiset<Incoming>,     // received after shutdown closed admission: left unsettled
    settled: multiset<nat>)          // delivery tags of the settlement calls on this generation's channel

  function NewGeneration(): Generation {
    Generation([], false, multiset{}, multiset{}, multiset{}, multiset{}, multiset{})
  }

  /** Locals of one consumeGeneration call; the circular buffer appears as the queue it holds. */
  datatype Run = Run(
    gen: GenId,
    ring: seq<Envelope>,
    draining: bool,
    ended: bool,                 // deliveriesClosed
    // history of this call
    arrived: seq<Envelope>,
    admitted: seq<Envelope>,
    discarded: seq<Envelope>)

  datatype Point =
    | Top
    | Gated(paused: bool)        // admissionMu held, gates evaluated
    | Selecting(paused: bool)
    | Received(incoming: Incoming)
    | Accepting(incoming: Incoming)
    | Rejecting(incoming: Incoming)

  datatype Loop =
    | Consuming(run: Run, at: Point)
    | Leaving(run: Run, recover: bool, drained: bool)
    | Recovering
    | Finishing
    | Joining                    // jobs closed, waiting for the workers
    | Stopped                    // Done closed

  datatype Flags = Flags(paused: bool, admissionClosed: bool, stopping: bool, terminal: bool, drainErr: bool)

  /** Envelopes after admission: in a handler, with the settlement call issued, or done with. */
  datatype Work = Work(
    jobs: seq<Envelope>,
    jobsClosed: bool,
    handling: multiset<Envelope>,
    settling: multiset<Envelope>,
    finished: multiset<Envelope>)

  datatype History = History(
    read: multiset<Envelope>,        // every valid delivery read
    dropped: multiset<Envelope>,     // left unsettled for redelivery
    admitted: seq<Envelope>,         // every envelope ever put in jobs, in order
    settled: multiset<Envelope>,     // settlement calls issued by workers
    delegated: multiset<Envelope>,
    completed: multiset<Envelope>)   // settlement results completed

  datatype State = State(
    prefetch: nat,
    concurrency: nat,
    flags: Flags,
    gateHeld: bool,                  // admissionMu is held by the loop
    gens: seq<Generation>,
    loop: Loop,
    work: Work,
    hist: History)

  datatype LoopStep =
    | EnterGate | AdmitOne | LeaveGate | DrainExit
    | Receive | StreamEnd | Wake | CancelNotice | FailureExit | RecoveryDone | LifetimeExit
    | Decide | Enqueue | Reject(sent: bool)
    | Drop | Install | GiveUp | CloseJobs | WorkersDone

  datatype Step =
    | ByLoop(l: LoopStep)
    | TakeJob
    | Delegate(e: Envelope)
    | Settle(e: Envelope)
    | Complete(e: Envelope)
    | Pause | Resume | CloseAdmission | Stop | FailDrain
    | Deliver(g: GenId, incoming: Incoming)
    | CloseStream(g: GenId)

  function Init(prefetch: nat, concurrency: nat): State {
    State(prefetch, concurrency, Flags(false, false, false, false, false), false, [NewGeneration()],
          Consuming(Run(0, [], false, false, [], [], []), Top),
          Work([], false, multiset{}, multiset{}, multiset{}),
          History(multiset{}, multiset{}, [], multiset{}, multiset{}, multiset{}))
  }

  // ---------------------------------------------------------------- the consume loop

  function Capacity(s: State): nat {
    s.prefetch + 1
  }

  /** No delivery is taken while one waits for admission, while the ring is full, or after the stream ended. */
  predicate Suspended(s: State, run: Run, paused: bool) {
    run.ended || (!paused && run.ring != []) || |run.ring| == Capacity(s)
  }

  function MoveTo(s: State, run: Run, at: Point): State {
    s.(loop := Consuming(run, at))
  }

  function Leave(s: State, run: Run, recover: bool, drained: bool): State {
    s.(loop := Leaving(run, recover, drained))
  }

  function LoopNext(s: State, l: LoopStep): Option<State> {
    match s.loop
    case Consuming(run, at) =>
      (match at
       case Top => if l.EnterGate? && !s.gateHeld then Some(GateEntered(s, run)) else None
       case Gated(paused) => GatedNext(s, run, paused, l)
       case Selecting(paused) => SelectNext(s, run, paused, l)
       case Received(incoming) => if l.Decide? then Decided(s, run, incoming) else None
       case Accepting(incoming) => if l.Enqueue? then Enqueued(s, run, incoming) else None
       case Rejecting(incoming) => if l.Reject? then Rejected(s, run, incoming, l.sent) else None)
    case Leaving(run, recover, _) =>
      if l.Drop? then
        Some(s.(loop := if recover then Recovering else Finishing,
                hist := s.hist.(dropped := s.hist.dropped + multiset(run.ring))))
      else None
    case Recovering =>
      if l.GiveUp? then Some(s.(loop := Finishing, flags := s.flags.(terminal := s.flags.terminal || !s.flags.stopping)))
      else if l.Install? && s.flags.stopping then Some(s.(loop := Finishing))
      else if l.Install? then
        Some(s.(gens := s.gens + [NewGeneration()],
                loop := Consuming(Run(|s.gens|, [], false, false, [], [], []), Top)))
      else None
    case Finishing =>
      if l.CloseJobs? then Some(s.(loop := Joining, work := s.work.(jobsClosed := true))) else None
    case Joining =>
      if l.WorkersDone? && s.work.jobs == [] && s.work.handling == multiset{} && s.work.settling == multiset{} then
        Some(s.(loop := Stopped))
      else None
    case Stopped => None
  }

  /** Under admissionMu: shutdown discards the ring, then the pause gate is read. */
  function GateEntered(s: State, run: Run): State {
    if s.flags.admissionClosed then
      MoveTo(s, run.(ring := [], draining := true, discarded := run.discarded + run.ring), Gated(false)).(
        gateHeld := true,
        flags := s.flags.(drainErr := s.flags.drainErr || run.ring != []),
        hist := s.hist.(dropped := s.hist.dropped + multiset(run.ring)))
    else MoveTo(s, run, Gated(s.flags.paused && !run.draining)).(gateHeld := true)
  }

  function GatedNext(s: State, run: Run, paused: bool, l: LoopStep): Option<State> {
    match l
    case AdmitOne =>
      if run.ring != [] && !paused && |s.work.jobs| < s.prefetch then
        Some(MoveTo(s, run.(ring := run.ring[1..], admitted := run.admitted + [run.ring[0]]), Top).(
          gateHeld := false,
          work := s.work.(jobs := s.work.jobs + [run.ring[0]]),
          hist := s.hist.(admitted := s.hist.admitted + [run.ring[0]])))
      else None
    case LeaveGate =>
      if run.ring == [] || paused || |s.work.jobs| >= s.prefetch then
        Some(MoveTo(s, run, Selecting(paused)).(gateHeld := false))
      else None
    case _ => None
  }

  function SelectNext(s: State, run: Run, paused: bool, l: LoopStep): Option<State> {
    match l
    case DrainExit =>
      if run.draining && run.ended && run.ring == [] then Some(Leave(s, run, false, true)) else None
    case Receive =>
      if run.gen < |s.gens| && s.gens[run.gen].stream != [] && !Suspended(s, run, paused) then
        var gen := s.gens[run.gen];
        Some(MoveTo(s, run, Received(gen.stream[0])).(gens := s.gens[run.gen := gen.(stream := gen.stream[1..])]))
      else None
    case StreamEnd =>
      if run.gen < |s.gens| && s.gens[run.gen].stream == [] && s.gens[run.gen].streamClosed &&
         !Suspended(s, run, paused) then
        Some(if s.flags.stopping then MoveTo(s, run.(ended := true, draining := true), Top)
             else Leave(s, run.(ended := true), true, false))
      else None
    case Wake => Some(MoveTo(s, run, Top))
    case CancelNotice =>
      Some(if s.flags.stopping then MoveTo(s, run.(draining := true), Top) else Leave(s, run, true, false))
    case FailureExit => Some(Leave(s, run, true, false))
    case RecoveryDone =>
      Some(if s.flags.stopping then MoveTo(s, run.(draining := true), Top) else Leave(s, run, false, false))
    case LifetimeExit => Some(Leave(s, run, false, false))
    case _ => None
  }

  function Decided(s: State, run: Run, incoming: Incoming): Option<State> {
    if run.gen >= |s.gens| then None
    else if s.flags.admissionClosed then
      var gen := s.gens[run.gen];
      Some(MoveTo(s, run.(draining := true), Top).(
        flags := s.flags.(drainErr := true),
        gens := s.gens[run.gen := gen.(skipped := gen.skipped + multiset{incoming})]))
    else Some(MoveTo(s, run, if incoming.valid then Accepting(incoming) else Rejecting(incoming)))
  }

  function Enqueued(s: State, run: Run, incoming: Incoming): Option<State> {
    if run.gen >= |s.gens| then None
    else
      var e := Envelope(run.gen, incoming.tag);
      var gen := s.gens[run.gen];
      Some(MoveTo(s, run.(ring := run.ring + [e], arrived := run.arrived + [e]), Top).(
        gens := s.gens[run.gen := gen.(accepted := gen.accepted + multiset{incoming})],
        hist := s.hist.(read := s.hist.read + multiset{e})))
  }

  function Rejected(s: State, run: Run, incoming: Incoming, sent: bool): Option<State> {
    if run.gen >= |s.gens| then None
    else
      var gen := s.gens[run.gen];
      var s' := s.(gens := s.gens[run.gen := gen.(rejected := gen.rejected + multiset{incoming},
                                                  settled := gen.settled + multiset{incoming.tag})]);
      Some(if sent then MoveTo(s', run, Top) else Leave(s', run, true, false))
  }

  // ---------------------------------------------------------------- workers, callers, broker

  function WorkNext(s: State, step: Step): Option<State> {
    var w := s.work;
    match step
    case TakeJob =>
      if w.jobs != [] && |w.handling| + |w.settling| < s.concurrency then
        Some(s.(work := w.(jobs := w.jobs[1..], handling := w.handling + multiset{w.jobs[0]})))
      else None
    case Delegate(e) =>
      if e in w.handling then
        Some(s.(work := w.(handling := w.handling - multiset{e}, finished := w.finished + multiset{e}),
                hist := s.hist.(delegated := s.hist.delegated + multiset{e},
                                completed := s.hist.completed + multiset{e})))
      else None
    case Settle(e) =>
      // applySettlement on the channel of the envelope's own generation
      if e in w.handling && e.gen < |s.gens| then
        var gen := s.gens[e.gen];
        Some(s.(work := w.(handling := w.handling - multiset{e}, settling := w.settling + multiset{e}),
                gens := s.gens[e.gen := gen.(settled := gen.settled + multiset{e.tag})],
                hist := s.hist.(settled := s.hist.settled + multiset{e})))
      else None
    case Complete(e) =>
      if e in w.settling then
        Some(s.(work := w.(settling := w.settling - multiset{e}, finished := w.finished + multiset{e}),
                hist := s.hist.(completed := s.hist.completed + multiset{e})))
      else None
    case _ => None
  }

  predicate LifecycleClosed(s: State) {
    s.flags.stopping || s.flags.terminal || s.loop.Stopped?
  }

  function CallerNext(s: State, step: Step): Option<State> {
    match step
    case Pause =>
      if s.gateHeld then None
      else Some(if LifecycleClosed(s) then s else s.(flags := s.flags.(paused := true)))
    case Resume =>
      if s.gateHeld then None
      else Some(if LifecycleClosed(s) then s else s.(flags := s.flags.(paused := false)))
    case CloseAdmission => if s.gateHeld then None else Some(s.(flags := s.flags.(admissionClosed := true)))
    case Stop => Some(s.(flags := s.flags.(stopping := true)))
    case FailDrain => Some(s.(flags := s.flags.(drainErr := true)))  // failGeneration while stopping
    case _ => None
  }

  function BrokerNext(s: State, step: Step): Option<State> {
    match step
    case Deliver(g, incoming) =>
      if g < |s.gens| && !s.gens[g].streamClosed then
        Some(s.(gens := s.gens[g := s.gens[g].(stream := s.gens[g].stream + [incoming],
                                              delivered := s.gens[g].delivered + multiset{incoming})]))
      else None
    case CloseStream(g) =>
      if g < |s.gens| then Some(s.(gens := s.gens[g := s.gens[g].(streamClosed := true)])) else None
    case _ => None
  }

  predicate IsWork(step: Step) { step.TakeJob? || step.Delegate? || step.Settle? || step.Complete? }
  predicate IsCaller(step: Step) {
    step.Pause? || step.Resume? || step.CloseAdmission? || step.Stop? || step.FailDrain?
  }

  function Next(s: State, step: Step): Option<State> {
    if step.ByLoop? then LoopNext(s, step.l)
    else if IsWork(step) then WorkNext(s, step)
    else if IsCaller(step) then CallerNext(s, step)
    else BrokerNext(s, step)
  }

  function From(s: State, steps: seq<Step>): Option<State> {
    if steps == [] then Some(s)
    else
      var before := From(s, steps[..|steps| - 1]);
      if before.None? then None else Next(before.value, steps[|steps| - 1])
  }

  ghost predicate Reachable(s: State) {
    exists prefetch: nat, concurrency: nat, steps :: From(Init(prefetch, concurrency), steps) == Some(s)
  }

  /** Some run goes from `s` to `t`. */
  ghost predicate Leads(s: State, t: State) {
    exists steps :: From(s, steps) == Some(t)
  }

  lemma LeadsNowhere(s: State)
    ensures Leads(s, s)
  {
    assert From(s, []) == Some(s);
  }

  lemma LeadsFurther(s: State, mid: State, step: Step, t: State)
    requires Leads(s, mid) && Next(mid, step) == Some(t)
    ensures Leads(s, t)
  {
    var steps :| From(s, steps) == Some(mid);
    var more := steps + [step];
    assert more[..|more| - 1] == steps;
    assert From(s, more) == Some(t);
  }

  lemma ReachableFurther(s: State, step: Step, t: State)
    requires Reachable(s) && Next(s, step) == Some(t)
    ensures Reachable(t)
  {
    var prefetch: nat, concurrency: nat, steps :| From(Init(prefetch, concurrency), steps) == Some(s);
    var more := steps + [step];
    assert more[..|more| - 1] == steps;
    assert From(Init(prefetch, concurrency), more) == Some(t);
  }
}
