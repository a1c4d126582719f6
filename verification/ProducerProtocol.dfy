/**
  producer.go and producer_open.go: the publish path, the event loop, generation recovery and shutdown,
  as one transition system. Any number of publish calls, one event loop, one shutdown task and an
  unconstrained broker interleave; a step is what a goroutine does under one mutex acquisition or one
  channel operation. Timeouts, cancellations, connection loss and send results are free choices.
 */
module ProducerProtocol {
  import opened Basics
  import opened TrackerSpec
  import Text

  type CallId = nat
  type GenId = nat

  datatype SendKind =
    | Sent          // the client accepted the frame
    | Preflight     // the client reported the context's own error
    | SendFailed    // any other client error
    | TimedOut      // the context expired while the send was still running

  /** Where one publish call is. It has `publishMu` while `Entered` or `Held`. */
  datatype Phase =
    | Admitted
    | Entered(entry: EntryStage)
    | Held(gen: GenId, held: HeldStage)      // with an attempt registered on `gen`
    | Loose(gen: GenId, loose: LooseStage)   // the same after the lock was released
    | Finished(result: PublishResult, sentOn: Option<GenId>)
    | Released(result: PublishResult, sentOn: Option<GenId>)
  {
    predicate HoldsLock() { Entered? || Held? }

    /** The call has an attempt it has not given up and whose outcome it has not taken. */
    predicate Pending() { Held? || Loose? }
  }

  datatype EntryStage = Locked | NotClosing | Available

  datatype HeldStage =
    | Registered
    | Sending
    | Marking(kind: SendKind)
    | Signalling(kind: SendKind)
    | Unlocking(kind: SendKind)

  datatype LooseStage =
    | Dropping     // preflight cancellation, before abandon(NotSent)
    | Erring       // completePublishError, before abandon(Ambiguous)
    | Waiting
    | Cancelling   // context done, before the outcome is looked at once more
    | GivingUp     // before abandon(Ambiguous)
    | Receiving    // the abandon failed: blocking receive on the outcome

  datatype Notice = Notice(token: Option<Bytes>, ret: Return)
  datatype Confirm = Confirm(sequence: nat, ack: bool)

  datatype CloseState = NotStarted | Running | Closed

  /** One dialled connection with its confirm channel and tracker. */
  datatype Generation = Generation(
    session: Bytes,
    attempts: map<CallId, Record>,
    returnQueue: seq<Notice>,
    returnsClosed: bool,
    confirmQueue: seq<Confirm>,
    close: CloseState,
    closes: nat,                 // how often the connection's Close was called
    closers: nat,                // close tasks spawned by timed-out sends
    // history
    confirmSeen: set<nat>,       // sequences whose confirm was ever enqueued
    early: set<CallId>,          // attempts whose return was enqueued before any confirm of their sequence
    broken: bool,                // a send failed here while the producer was not closed
    failed: bool,                // the loop has completed every attempt and left this generation
    late: set<CallId>)           // attempts registered after that

  function NewGeneration(session: Bytes): Generation {
    Generation(session, map[], [], false, [], NotStarted, 0, 0, {}, {}, false, false, {})
  }

  datatype Loop =
    | Serving(gen: GenId, serve: ServeStage)   // an installed generation
    | Recovering(attempt: nat)
    | Owning(gen: GenId, own: OwnStage)        // a dialled generation that is not installed
    | GivenUp
    | Exited

  datatype ServeStage =
    | Selecting(listening: bool)               // not listening once the return stream is closed
    | Draining(listening: bool, confirm: Confirm)
    | Confirming(listening: bool, confirm: Confirm)
    | Ending
    | FailingAll
    | ClosingOld
    | Rejoined
    | Stopping

  datatype OwnStage =
    | Dialled(attempt: nat)
    | Installing
    | InstallLocked
    | Discarding(next: Option<nat>)

  datatype Shutdown =
    | Open
    | WaitingDrain
    | StoppingEvents
    | ReadingCurrent
    | ClosingCurrent(gen: GenId)
    | WaitingLoop
    | Done

  datatype Holder = Free | ByCall(call: CallId) | ByLoop

  datatype State = State(
    maximum: nat,                // MaxOutstanding
    maxAttempts: nat,            // recovery attempts; 0 when no recovery is configured
    closed: bool,
    unavailable: bool,
    recovering: bool,
    terminal: bool,
    shutdownClosing: bool,
    eventsCancelled: bool,
    active: nat,
    drainSignals: nat,           // how often the drain condition was found true
    current: GenId,
    lock: Holder,                // publishMu
    gens: seq<Generation>,
    calls: map<CallId, Phase>,
    loop: Loop,
    shutdown: Shutdown)

  function Init(maximum: nat, maxAttempts: nat, session: Bytes): State {
    State(maximum, maxAttempts, false, false, false, false, false, false, 0, 0, 0, Free,
          [NewGeneration(session)], map[], Serving(0, Selecting(true)), Open)
  }

  datatype CallStep =
    | Admit | AcquireLock | Expire | CheckClosing | CheckAvailable
    | Register(sequence: nat, exchange: Bytes, route: Bytes)
    | CheckClosingAgain | SendEnds(kind: SendKind) | Mark | Signal | Unlock
    | DropPreflight | FailAttempt | Receive | ContextDone | Recheck | GiveUp | Release

  datatype LoopStep =
    | TakeReturn | ReturnsEnd | TakeConfirm | Break | Cancelled
    | DrainOne | DrainDone | ApplyConfirm
    | MarkEnd | FailEach | CloseOld
    | Skip | Dial(session: Bytes) | Quit | SetupFails | SetupWorks
    | LockInstall | Install | DiscardClose | FinishRecovered | FinishFailed | StopFailAll

  datatype Step =
    | ByCaller(p: CallId, c: CallStep)
    | ByLoopTask(l: LoopStep)
    | ByShutdown
    | ReturnArrives(g: GenId, notice: Notice)
    | ConfirmArrives(g: GenId, confirm: Confirm)
    | ReturnStreamCloses(g: GenId)
    | CloseStarts(g: GenId)
    | CloseEnds(g: GenId)

  // ---------------------------------------------------------------- state updates

  function WithPhase(s: State, p: CallId, phase: Phase): State {
    s.(calls := s.calls[p := phase])
  }

  /** The call moves on and the lock changes hands. */
  function Moved(s: State, p: CallId, phase: Phase, lock: Holder): State {
    s.(calls := s.calls[p := phase], lock := lock)
  }

  /** Ends the publish path early: the lock is released and nothing was sent. */
  function Leave(s: State, p: CallId): State {
    Moved(s, p, Finished(Plain(NotSent), None), Free)
  }

  function WithGen(s: State, g: GenId, gen: Generation): State
    requires g < |s.gens|
  {
    s.(gens := s.gens[g := gen])
  }

  /** The call moves on and the tracker of `g` becomes `t`. */
  function MovedTracker(s: State, p: CallId, phase: Phase, lock: Holder, g: GenId, t: map<CallId, Record>): State
    requires g < |s.gens|
  {
    s.(calls := s.calls[p := phase], lock := lock, gens := s.gens[g := s.gens[g].(attempts := t)])
  }

  /** The loop goes to `loop` and generation `g` becomes `gen`. */
  function LoopWithGen(s: State, g: GenId, gen: Generation, loop: Loop): State
    requires g < |s.gens|
  {
    s.(gens := s.gens[g := gen], loop := loop)
  }

  ghost function LoopNotified(s: State, g: GenId, e: Event, loop: Loop): State
    requires g < |s.gens|
  {
    LoopWithGen(s, g, s.gens[g].(attempts := Apply(s.gens[g].attempts, e)), loop)
  }

  /** failAll(Ambiguous): every attempt is completed and the loop leaves the generation. */
  ghost function LoopFailedAll(s: State, g: GenId, loop: Loop): State
    requires g < |s.gens|
  {
    LoopWithGen(s, g, s.gens[g].(attempts := Apply(s.gens[g].attempts, FailAll(Ambiguous)), failed := true), loop)
  }

  ghost predicate LiveSequence(gen: Generation, sequence: nat) {
    exists q | q in gen.attempts :: gen.attempts[q].Live() && gen.attempts[q].sequence == sequence
  }

  ghost predicate LiveToken(gen: Generation, token: Bytes) {
    exists q | q in gen.attempts :: gen.attempts[q].Live() && gen.attempts[q].token == token
  }

  // ---------------------------------------------------------------- publish calls

  /** abandon(sequence, Ambiguous): on success the call reports it, otherwise it must receive the outcome. */
  ghost function Abandoned(s: State, p: CallId, g: GenId): State
    requires g < |s.gens| && p in s.gens[g].attempts
  {
    var sequence := s.gens[g].attempts[p].sequence;
    if LiveSequence(s.gens[g], sequence) then
      MovedTracker(s, p, Finished(Plain(Ambiguous), Some(g)), s.lock, g,
                   Apply(s.gens[g].attempts, Abandon(sequence, Ambiguous)))
    else WithPhase(s, p, Loose(g, Receiving))
  }

  ghost function CallNext(s: State, p: CallId, c: CallStep): Option<State> {
    if c.Admit? then
      if p in s.calls then None
      else if s.closed || s.unavailable || s.active >= s.maximum then Some(s)
      else Some(s.(calls := s.calls[p := Admitted], active := s.active + 1))
    else if p !in s.calls then None
    else
      match s.calls[p]
      case Admitted => AdmittedNext(s, p, c)
      case Entered(stage) => EnteredNext(s, p, stage, c)
      case Held(g, stage) =>
        if g < |s.gens| && p in s.gens[g].attempts then HeldNext(s, p, g, stage, c) else None
      case Loose(g, stage) =>
        if g < |s.gens| && p in s.gens[g].attempts then LooseNext(s, p, g, stage, c) else None
      case Finished(result, sentOn) =>
        if c.Release? && s.active > 0 then
          Some(s.(
            calls := s.calls[p := Released(result, sentOn)],
            active := s.active - 1,
            drainSignals := s.drainSignals + if s.closed && s.active == 1 then 1 else 0))
        else None
      case Released(_, _) => None
  }

  function AdmittedNext(s: State, p: CallId, c: CallStep): Option<State> {
    match c
    case AcquireLock =>
      if s.lock.Free? then Some(Moved(s, p, Entered(Locked), ByCall(p))) else None
    case Expire => Some(WithPhase(s, p, Finished(Plain(NotSent), None)))
    case _ => None
  }

  ghost function EnteredNext(s: State, p: CallId, stage: EntryStage, c: CallStep): Option<State> {
    match c
    case CheckClosing =>
      if !stage.Locked? then None
      else Some(if s.shutdownClosing then Leave(s, p) else WithPhase(s, p, Entered(NotClosing)))
    case CheckAvailable =>
      if !stage.NotClosing? then None
      else Some(if s.unavailable then Leave(s, p) else WithPhase(s, p, Entered(Available)))
    case Register(sequence, exchange, route) =>
      if stage.Available? && s.current < |s.gens| then Some(Registering(s, p, sequence, exchange, route)) else None
    case _ => None
  }

  ghost function Registering(s: State, p: CallId, sequence: nat, exchange: Bytes, route: Bytes): State
    requires s.current < |s.gens|
  {
    var gen := s.gens[s.current];
    var token := Text.Token(gen.session, sequence);
    if Refusal(s.maximum, gen.attempts, sequence, token).Some? then Leave(s, p)
    else Inserted(s, p, NewRecord(sequence, token, exchange, route))
  }

  function Inserted(s: State, p: CallId, record: Record): State
    requires s.current < |s.gens|
  {
    var gen := s.gens[s.current];
    s.(calls := s.calls[p := Held(s.current, Registered)],
       gens := s.gens[s.current := gen.(attempts := gen.attempts[p := record],
                                        late := if gen.failed then gen.late + {p} else gen.late)])
  }

  ghost function HeldNext(s: State, p: CallId, g: GenId, stage: HeldStage, c: CallStep): Option<State>
    requires g < |s.gens| && p in s.gens[g].attempts
  {
    match c
    case CheckClosingAgain =>
      if !stage.Registered? then None
      else Some(
        if s.shutdownClosing then
          MovedTracker(s, p, Finished(Plain(NotSent), None), Free, g,
                       Apply(s.gens[g].attempts, Abandon(s.gens[g].attempts[p].sequence, NotSent)))
        else WithPhase(s, p, Held(g, Sending)))
    case SendEnds(kind) =>
      if !stage.Sending? then None
      else Some(WithPhase(s, p,
        Held(g, if kind.Sent? || kind.Preflight? then Unlocking(kind) else Marking(kind))))
    case Mark =>
      if !stage.Marking? then None
      else Some(Marked(s, p, g, Held(g, Signalling(stage.kind))))
    case Signal =>
      if !stage.Signalling? then None
      else if !stage.kind.TimedOut? then Some(WithPhase(s, p, Held(g, Unlocking(stage.kind))))
      else Some(s.(calls := s.calls[p := Held(g, Unlocking(stage.kind))],
                   gens := s.gens[g := s.gens[g].(closers := s.gens[g].closers + 1)]))
    case Unlock =>
      if !stage.Unlocking? then None
      else Some(Moved(s, p, Loose(g, AfterSend(stage.kind)), Free))
    case _ => None
  }

  ghost function LooseNext(s: State, p: CallId, g: GenId, stage: LooseStage, c: CallStep): Option<State>
    requires g < |s.gens| && p in s.gens[g].attempts
  {
    var record := s.gens[g].attempts[p];
    match c
    case DropPreflight =>
      if !stage.Dropping? then None
      else Some(MovedTracker(s, p, Finished(Plain(NotSent), None), s.lock, g,
                             Apply(s.gens[g].attempts, Abandon(record.sequence, NotSent))))
    case FailAttempt => if stage.Erring? then Some(Abandoned(s, p, g)) else None
    case GiveUp => if stage.GivingUp? then Some(Abandoned(s, p, g)) else None
    case ContextDone => if stage.Waiting? then Some(WithPhase(s, p, Loose(g, Cancelling))) else None
    case Recheck =>
      if !stage.Cancelling? then None
      else Some(WithPhase(s, p,
        match record.outcome
        case None => Loose(g, GivingUp)
        case Some(result) => Finished(result, Some(g))))
    case Receive =>
      if (stage.Waiting? || stage.Receiving?) && record.outcome.Some? then
        Some(WithPhase(s, p, Finished(record.outcome.value, Some(g))))
      else None
    case _ => None
  }

  /**
    failGeneration after a failed send: the current generation becomes unavailable unless the producer is closed; a
    superseded one is left alone.
   */
  function Marked(s: State, p: CallId, g: GenId, phase: Phase): State
    requires g < |s.gens|
  {
    if s.current != g || s.closed then WithPhase(s, p, phase)
    else
      s.(calls := s.calls[p := phase], gens := s.gens[g := s.gens[g].(broken := true)],
         unavailable := s.unavailable || !s.recovering, recovering := true)
  }

  function AfterSend(kind: SendKind): LooseStage {
    match kind
    case Sent => Waiting
    case Preflight => Dropping
    case _ => Erring
  }

  // ---------------------------------------------------------------- event loop

  /** The oldest return carries the token of a live attempt. */
  ghost predicate Correlates(gen: Generation)
    requires gen.returnQueue != []
  {
    gen.returnQueue[0].token.Some? && LiveToken(gen, gen.returnQueue[0].token.value)
  }

  /** The oldest return is taken and, if it correlates, recorded. */
  ghost function Popped(gen: Generation): Generation
    requires gen.returnQueue != []
  {
    var rest := gen.returnQueue[1..];
    if Correlates(gen) then
      var e := ReturnSeen(gen.returnQueue[0].token.value, gen.returnQueue[0].ret);
      gen.(returnQueue := rest, attempts := Apply(gen.attempts, e))
    else gen.(returnQueue := rest)
  }

  /** Receive one return and correlate it; an uncorrelated return ends the generation. */
  ghost function ReturnTaken(s: State, g: GenId, stay: ServeStage): State
    requires g < |s.gens| && s.gens[g].returnQueue != []
  {
    LoopWithGen(s, g, Popped(s.gens[g]), Serving(g, if Correlates(s.gens[g]) then stay else Ending))
  }

  ghost function LoopNext(s: State, l: LoopStep): Option<State> {
    match s.loop
    case Serving(g, stage) => if g < |s.gens| then ServingNext(s, g, stage, l) else None
    case Recovering(attempt) => RecoveringNext(s, attempt, l)
    case Owning(g, stage) => if g < |s.gens| then OwningNext(s, g, stage, l) else None
    case GivenUp =>
      if l.FinishFailed? then Some(s.(recovering := false, terminal := s.terminal || !s.closed, loop := Exited))
      else None
    case Exited => None
  }

  /** runGenerationWith, drainReturns and the generation's end in runEvents. */
  ghost function ServingNext(s: State, g: GenId, stage: ServeStage, l: LoopStep): Option<State>
    requires g < |s.gens|
  {
    var gen := s.gens[g];
    match l
    case TakeReturn =>
      if stage.Selecting? && stage.listening && gen.returnQueue != [] then Some(ReturnTaken(s, g, stage)) else None
    case ReturnsEnd =>
      if stage.Selecting? && stage.listening && gen.returnQueue == [] && gen.returnsClosed then
        Some(s.(loop := Serving(g, Selecting(false))))
      else None
    case TakeConfirm =>
      if stage.Selecting? && gen.confirmQueue != [] then
        Some(LoopWithGen(s, g, gen.(confirmQueue := gen.confirmQueue[1..]),
                         Serving(g, Draining(stage.listening, gen.confirmQueue[0]))))
      else None
    case Break => if stage.Selecting? then Some(s.(loop := Serving(g, Ending))) else None
    case Cancelled =>
      if stage.Selecting? && s.eventsCancelled then Some(s.(loop := Serving(g, Stopping))) else None
    case DrainOne =>
      if stage.Draining? && stage.listening && gen.returnQueue != [] then Some(ReturnTaken(s, g, stage)) else None
    case DrainDone =>
      if stage.Draining? && (!stage.listening || gen.returnQueue == []) then
        Some(s.(loop := Serving(g, Confirming(stage.listening, stage.confirm))))
      else None
    case ApplyConfirm =>
      if !stage.Confirming? then None
      else Some(LoopNotified(s, g, ConfirmSeen(stage.confirm.sequence, stage.confirm.ack),
                             Serving(g, Selecting(stage.listening))))
    case MarkEnd =>
      if !stage.Ending? then None
      else if s.closed then Some(s.(loop := Serving(g, FailingAll)))
      else Some(s.(unavailable := s.unavailable || !s.recovering, recovering := true, loop := Serving(g, FailingAll)))
    case FailEach =>
      if stage.FailingAll? then Some(LoopFailedAll(s, g, Serving(g, ClosingOld))) else None
    case CloseOld => if stage.ClosingOld? && gen.close.Closed? then Some(s.(loop := Recovering(0))) else None
    case FinishRecovered =>
      if stage.Rejoined? then Some(s.(recovering := false, loop := Serving(g, Selecting(true)))) else None
    case StopFailAll =>
      if stage.Stopping? then Some(LoopFailedAll(s, g, Exited)) else None
    case _ => None
  }

  /** The attempts of recoverRuntime. */
  function RecoveringNext(s: State, attempt: nat, l: LoopStep): Option<State> {
    match l
    case Skip => if attempt < s.maxAttempts then Some(s.(loop := Recovering(attempt + 1))) else None
    case Dial(session) =>
      if attempt < s.maxAttempts then
        Some(s.(gens := s.gens + [NewGeneration(session)], loop := Owning(|s.gens|, Dialled(attempt))))
      else None
    case Quit => if s.eventsCancelled || attempt >= s.maxAttempts then Some(s.(loop := GivenUp)) else None
    case _ => None
  }

  /** Setup, installation under both locks, or disposal of a dialled generation. */
  function OwningNext(s: State, g: GenId, stage: OwnStage, l: LoopStep): Option<State>
    requires g < |s.gens|
  {
    match l
    case SetupFails =>
      if stage.Dialled? then Some(s.(loop := Owning(g, Discarding(Some(stage.attempt + 1))))) else None
    case SetupWorks => if stage.Dialled? then Some(s.(loop := Owning(g, Installing))) else None
    case LockInstall =>
      if stage.Installing? && s.lock.Free? then Some(s.(lock := ByLoop, loop := Owning(g, InstallLocked))) else None
    case Install =>
      if !stage.InstallLocked? then None
      else if s.closed then Some(s.(lock := Free, loop := Owning(g, Discarding(None))))
      else Some(s.(lock := Free, loop := Serving(g, Rejoined), current := g, unavailable := false, recovering := false))
    case DiscardClose =>
      if stage.Discarding? then
        Some(LoopWithGen(s, g, s.gens[g].(close := Closed, closes := s.gens[g].closes + 1),
                         if stage.next.Some? then Recovering(stage.next.value) else GivenUp))
      else None
    case _ => None
  }

  // ---------------------------------------------------------------- shutdown, closing, broker

  function ShutdownNext(s: State): Option<State> {
    match s.shutdown
    case Open =>
      Some(s.(closed := true, shutdown := WaitingDrain,
              drainSignals := s.drainSignals + if s.active == 0 then 1 else 0))
    case WaitingDrain => Some(s.(shutdownClosing := true, shutdown := StoppingEvents))  // drained, forced or timed out
    case StoppingEvents => Some(s.(eventsCancelled := true, shutdown := ReadingCurrent))
    case ReadingCurrent => Some(s.(shutdown := ClosingCurrent(s.current)))
    case ClosingCurrent(g) =>
      if g < |s.gens| && s.gens[g].close.Closed? then Some(s.(shutdown := WaitingLoop)) else None
    case WaitingLoop => if s.loop.Exited? then Some(s.(shutdown := Done)) else None
    case Done => None
  }

  /** Somebody is inside closeProducerGeneration for this generation. */
  predicate CloseRequested(s: State, g: GenId)
    requires g < |s.gens|
  {
    s.gens[g].closers > 0 || s.loop == Serving(g, ClosingOld) || s.shutdown == ClosingCurrent(g)
  }

  ghost function BrokerNext(s: State, step: Step): Option<State>
    requires !step.ByCaller? && !step.ByLoopTask? && !step.ByShutdown?
  {
    if step.g >= |s.gens| then None
    else
      var gen := s.gens[step.g];
      match step
      case ReturnArrives(g, notice) =>
        if gen.returnsClosed then None
        else Some(WithGen(s, g, gen.(returnQueue := gen.returnQueue + [notice], early := gen.early + EarlyFor(gen, notice))))
      case ConfirmArrives(g, confirm) =>
        Some(WithGen(s, g, gen.(confirmQueue := gen.confirmQueue + [confirm],
                                confirmSeen := gen.confirmSeen + {confirm.sequence})))
      case ReturnStreamCloses(g) => Some(WithGen(s, g, gen.(returnsClosed := true)))
      case CloseStarts(g) =>
        if gen.close.NotStarted? && CloseRequested(s, g) then
          Some(WithGen(s, g, gen.(close := Running, closes := gen.closes + 1)))
        else None
      case CloseEnds(g) =>
        if gen.close.Running? then Some(WithGen(s, g, gen.(close := Closed))) else None
  }

  /** The registered attempts this return belongs to, if no confirm of theirs has been enqueued yet. */
  ghost function EarlyFor(gen: Generation, notice: Notice): set<CallId> {
    set q | q in gen.attempts && notice.token == Some(gen.attempts[q].token) &&
            gen.attempts[q].sequence !in gen.confirmSeen
  }

  ghost function Next(s: State, step: Step): Option<State> {
    match step
    case ByCaller(p, c) => CallNext(s, p, c)
    case ByLoopTask(l) => LoopNext(s, l)
    case ByShutdown => ShutdownNext(s)
    case _ => BrokerNext(s, step)
  }

  datatype Config = Config(maximum: nat, maxAttempts: nat, session: Bytes)

  /** The state after taking `steps` from `s`, if every one of them can be taken. */
  ghost function From(s: State, steps: seq<Step>): Option<State> {
    if steps == [] then Some(s)
    else
      var before := From(s, steps[..|steps| - 1]);
      if before.None? then None else Next(before.value, steps[|steps| - 1])
  }

  ghost function After(c: Config, steps: seq<Step>): Option<State> {
    From(Init(c.maximum, c.maxAttempts, c.session), steps)
  }

  /** A reachable state. */
  ghost predicate Reachable(s: State) {
    exists c, steps :: After(c, steps) == Some(s)
  }

  /** Some run goes from `s` to `t`. */
  ghost predicate Leads(s: State, t: State) {
    exists steps :: From(s, steps) == Some(t)
  }

  lemma LeadsNowhere(s: State)
    ensures Leads(s, s)
  {
    assert From(s, []) == Some(s);
  }

  lemma LeadsFurther(s: State, mid: State, step: Step, t: State)
    requires Leads(s, mid) && Next(mid, step) == Some(t)
    ensures Leads(s, t)
  {
    var steps :| From(s, steps) == Some(mid);
    var more := steps + [step];
    assert more[..|more| - 1] == steps;
    assert From(s, more) == Some(t);
  }

  lemma ReachableFurther(s: State, step: Step, t: State)
    requires Reachable(s) && Next(s, step) == Some(t)
    ensures Reachable(t)
  {
    var c, steps :| After(c, steps) == Some(s);
    var more := steps + [step];
    assert more[..|more| - 1] == steps;
    assert After(c, more) == Some(t);
  }

  lemma {:induction false} ReachableFrom(s: State, steps: seq<Step>)
    requires Reachable(s) && From(s, steps).Some?
    ensures Reachable(From(s, steps).value)
  {
    if steps != [] {
      var n := |steps| - 1;
      ReachableFrom(s, steps[..n]);
      ReachableFurther(From(s, steps[..n]).value, steps[n], From(s, steps).value);
    }
  }
}
