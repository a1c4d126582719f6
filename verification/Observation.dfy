/**
  observation.go: a bounded lossy event stream. Emitters hold the read side of a lock and swap, send and add back as
  separate steps; one closer holds the write side; readers take from the buffer at any time.
 */
module ObservationProtocol {
  import opened Basics

  datatype Event = Data(dropped: nat) | Terminal(dropped: nat)

  /** A call of emit: `carried` is the loss count it took out of the shared counter. */
  datatype Emitter = Idle | Entered | Admitted | Swapped(carried: nat) | Overflow(carried: nat)

  datatype Closer =
    | Waiting
    | Locked
    | Marked
    | Trying(carried: nat)
    | Full(carried: nat)
    | Sending(carried: nat)
    | Sent
    | Finished

  datatype State = State(
    capacity: nat,
    buffer: seq<Event>,
    dropped: nat,
    closed: bool,
    channelClosed: bool,
    emitters: seq<Emitter>,
    closer: Closer,
    // history
    received: seq<Event>,
    accepted: nat)               // emits that passed the closed check

  datatype Step =
    | Enter(i: nat) | Check(i: nat) | Swap(i: nat) | Send(i: nat) | AddBack(i: nat)
    | Close
    | Read

  function Init(capacity: nat, emitters: nat): State {
    State(capacity, [], 0, false, false, seq(emitters, _ => Idle), Waiting, [], 0)
  }

  predicate WriteLocked(c: Closer) {
    !c.Waiting? && !c.Finished?
  }

  predicate AllIdle(emitters: seq<Emitter>) {
    forall i | 0 <= i < |emitters| :: emitters[i].Idle?
  }

  function EmitNext(s: State, step: Step): Option<State> {
    match step
    case Enter(i) =>
      if i < |s.emitters| && s.emitters[i].Idle? && !WriteLocked(s.closer) then
        Some(s.(emitters := s.emitters[i := Entered]))
      else None
    case Check(i) =>
      if i < |s.emitters| && s.emitters[i].Entered? then
        Some(if s.closed then s.(emitters := s.emitters[i := Idle])
             else s.(emitters := s.emitters[i := Admitted], accepted := s.accepted + 1))
      else None
    case Swap(i) =>
      if i < |s.emitters| && s.emitters[i].Admitted? then
        Some(s.(emitters := s.emitters[i := Swapped(s.dropped)], dropped := 0))
      else None
    case Send(i) =>
      if i < |s.emitters| && s.emitters[i].Swapped? then
        var carried := s.emitters[i].carried;
        Some(if |s.buffer| < s.capacity then
               s.(emitters := s.emitters[i := Idle], buffer := s.buffer + [Data(carried)])
             else s.(emitters := s.emitters[i := Overflow(carried)]))
      else None
    case AddBack(i) =>
      if i < |s.emitters| && s.emitters[i].Overflow? then
        Some(s.(emitters := s.emitters[i := Idle], dropped := s.dropped + (s.emitters[i].carried + 1)))
      else None
    case _ => None
  }

  function CloseNext(s: State): Option<State> {
    match s.closer
    case Waiting => if AllIdle(s.emitters) then Some(s.(closer := Locked)) else None
    case Locked => Some(s.(closer := Marked, closed := true))
    case Marked => Some(s.(closer := Trying(s.dropped), dropped := 0))
    case Trying(carried) =>
      Some(if |s.buffer| < s.capacity then s.(closer := Sent, buffer := s.buffer + [Terminal(carried)])
           else s.(closer := Full(carried)))
    case Full(carried) =>
      Some(if s.buffer == [] then s.(closer := Sending(carried))
           else s.(closer := Sending(carried + (s.buffer[0].dropped + 1)), buffer := s.buffer[1..]))
    case Sending(carried) =>
      // a channel send: enabled only when the buffer has room
      if |s.buffer| < s.capacity then Some(s.(closer := Sent, buffer := s.buffer + [Terminal(carried)])) else None
    case Sent => Some(s.(closer := Finished, channelClosed := true))
    case Finished => None
  }

  function Next(s: State, step: Step): Option<State> {
    match step
    case Close => CloseNext(s)
    case Read =>
      if s.buffer == [] then None
      else Some(s.(buffer := s.buffer[1..], received := s.received + [s.buffer[0]]))
    case _ => EmitNext(s, step)
  }

  function From(s: State, steps: seq<Step>): Option<State> {
    if steps == [] then Some(s)
    else
      var before := From(s, steps[..|steps| - 1]);
      if before.None? then None else Next(before.value, steps[|steps| - 1])
  }

  ghost predicate Reachable(s: State) {
    exists capacity: nat, emitters: nat, steps ::
      capacity >= 1 && From(Init(capacity, emitters), steps) == Some(s)
  }
}

/** Conservation of observations over every interleaving (observation.go:148-194). */
module ObservationSafety {
  import opened Basics
  import opened ObservationProtocol

  /** Accepted emits an event accounts for: itself and the losses it reports. */
  function Weight(e: Event): nat {
    match e
    case Data(dropped) => 1 + dropped
    case Terminal(dropped) => dropped
  }

  function Total(q: seq<Event>): nat {
    if q == [] then 0 else Total(q[..|q| - 1]) + Weight(q[|q| - 1])
  }

  lemma {:induction false} TotalSplit(a: seq<Event>, b: seq<Event>)
    ensures Total(a + b) == Total(a) + Total(b)
  {
    if b == [] {
      assert a + b == a;
    } else {
      assert (a + b)[..|a + b| - 1] == a + b[..|b| - 1];
      TotalSplit(a, b[..|b| - 1]);
    }
  }

  function InEmit(e: Emitter): nat {
    match e
    case Idle => 0
    case Entered => 0
    case Admitted => 1
    case Swapped(carried) => 1 + carried
    case Overflow(carried) => 1 + carried
  }

  function InEmits(es: seq<Emitter>): nat {
    if es == [] then 0 else InEmit(es[0]) + InEmits(es[1..])
  }

  lemma {:induction false} InEmitsUpdate(es: seq<Emitter>, i: nat, e: Emitter)
    requires i < |es|
    ensures InEmits(es[i := e]) + InEmit(es[i]) == InEmits(es) + InEmit(e)
  {
    if i == 0 {
      assert es[0 := e][1..] == es[1..];
    } else {
      assert es[i := e][1..] == es[1..][i - 1 := e];
      InEmitsUpdate(es[1..], i - 1, e);
    }
  }

  lemma {:induction false} IdleCarriesNothing(es: seq<Emitter>)
    requires AllIdle(es)
    ensures InEmits(es) == 0
  {
    if es != [] {
      IdleCarriesNothing(es[1..]);
    }
  }

  function InClose(c: Closer): nat {
    if c.Trying? || c.Full? || c.Sending? then c.carried else 0
  }

  /** Every accepted emit is received, buffered, counted as dropped, or in the hands of a running call. */
  predicate Balanced(s: State) {
    s.accepted == Total(s.received) + Total(s.buffer) + s.dropped + InEmits(s.emitters) + InClose(s.closer)
  }

  predicate AllData(q: seq<Event>) {
    forall i | 0 <= i < |q| :: q[i].Data?
  }

  predicate EndsWithTerminal(q: seq<Event>) {
    q != [] && q[|q| - 1].Terminal? && AllData(q[..|q| - 1])
  }

  predicate Ordered(s: State) {
    var sent := s.received + s.buffer;
    && (s.closer.Sent? || s.closer.Finished? ==> EndsWithTerminal(sent) && s.dropped == 0)
    && (!s.closer.Sent? && !s.closer.Finished? ==> AllData(sent))
    && (s.closer.Sending? ==> |s.buffer| < s.capacity)
    && (s.closed <==> !s.closer.Waiting? && !s.closer.Locked?)
    && (s.channelClosed <==> s.closer.Finished?)
    && s.capacity >= 1
  }

  /** The lock keeps emitters out while the closer works, and the closed check keeps them out afterwards. */
  predicate Excluded(s: State) {
    && (WriteLocked(s.closer) ==> AllIdle(s.emitters))
    && (s.closed ==> forall i | 0 <= i < |s.emitters| :: s.emitters[i].Idle? || s.emitters[i].Entered?)
  }

  predicate Inv(s: State) {
    Balanced(s) && Ordered(s) && Excluded(s)
  }

  /** One emitter moves, and the counters absorb what it hands over. */
  lemma EmitterMoves(s: State, s': State, i: nat)
    requires Inv(s) && i < |s.emitters| == |s'.emitters|
    requires s'.emitters == s.emitters[i := s'.emitters[i]] && s' == s.(emitters := s'.emitters,
                                                                        dropped := s'.dropped, accepted := s'.accepted)
    requires s'.accepted - s.accepted == s'.dropped - s.dropped + InEmit(s'.emitters[i]) - InEmit(s.emitters[i])
    requires WriteLocked(s.closer) ==> s'.emitters[i].Idle?
    requires s.closed ==> s'.dropped == s.dropped && (s'.emitters[i].Idle? || s'.emitters[i].Entered?)
    ensures Inv(s')
  {
    InEmitsUpdate(s.emitters, i, s'.emitters[i]);
  }

  lemma SentKeeps(s: State, i: nat)
    requires Inv(s) && i < |s.emitters| && s.emitters[i].Swapped? && |s.buffer| < s.capacity
    ensures Inv(EmitNext(s, Send(i)).value)
  {
    var s' := EmitNext(s, Send(i)).value;
    var e := Data(s.emitters[i].carried);
    assert s.closer.Waiting?;
    InEmitsUpdate(s.emitters, i, Idle);
    TotalSplit(s.buffer, [e]);
    assert s'.received + s'.buffer == (s.received + s.buffer) + [e];
    assert AllData((s.received + s.buffer) + [e]);
  }

  lemma EmitKeeps(s: State, step: Step)
    requires Inv(s) && EmitNext(s, step).Some?
    ensures Inv(EmitNext(s, step).value)
  {
    var s' := EmitNext(s, step).value;
    match step {
      case Enter(i) => EmitterMoves(s, s', i);
      case Check(i) => EmitterMoves(s, s', i);
      case Swap(i) => EmitterMoves(s, s', i);
      case Send(i) =>
        if |s.buffer| < s.capacity {
          SentKeeps(s, i);
        } else {
          EmitterMoves(s, s', i);
        }
      case AddBack(i) => EmitterMoves(s, s', i);
      case _ =>
    }
  }

  lemma SendTerminalKeeps(s: State, s': State)
    requires Inv(s) && |s.buffer| < s.capacity && (s.closer.Trying? || s.closer.Sending?) && s.dropped == 0
    requires s' == s.(closer := Sent, buffer := s.buffer + [Terminal(s.closer.carried)])
    ensures Inv(s')
  {
    TotalSplit(s.buffer, [Terminal(s.closer.carried)]);
    var sent := s.received + s.buffer;
    assert s'.received + s'.buffer == sent + [Terminal(s.closer.carried)];
    assert (sent + [Terminal(s.closer.carried)])[..|sent|] == sent;
  }

  lemma DisplaceKeeps(s: State)
    requires Inv(s) && s.closer.Full? && s.buffer != []
    requires |s.buffer| <= s.capacity
    ensures Inv(CloseNext(s).value)
  {
    var s' := CloseNext(s).value;
    TotalSplit([s.buffer[0]], s.buffer[1..]);
    assert [s.buffer[0]] + s.buffer[1..] == s.buffer;
    var sent := s.received + s.buffer;
    assert sent[|s.received|] == s.buffer[0];
    assert forall k | 0 <= k < |s.buffer| :: sent[|s.received| + k] == s.buffer[k];
    assert AllData(s.buffer);
    assert forall k | 0 <= k < |s.received| :: sent[k] == s.received[k];
    assert AllData(s'.received + s'.buffer);
  }

  lemma ReadKeeps(s: State)
    requires Inv(s) && s.buffer != []
    ensures Inv(Next(s, Read).value)
  {
    var s' := Next(s, Read).value;
    ReadBalances(s.received, s.buffer);
    ReadMoves(s.received, s.buffer);
    assert s'.received + s'.buffer == s.received + s.buffer;
  }

  lemma ReadBalances(received: seq<Event>, buffer: seq<Event>)
    requires buffer != []
    ensures Total(received + [buffer[0]]) + Total(buffer[1..]) == Total(received) + Total(buffer)
  {
    TotalSplit([buffer[0]], buffer[1..]);
    TotalSplit(received, [buffer[0]]);
    assert [buffer[0]] + buffer[1..] == buffer;
    assert Total([buffer[0]]) == Weight(buffer[0]);
  }

  lemma ReadMoves(received: seq<Event>, buffer: seq<Event>)
    requires buffer != []
    ensures (received + [buffer[0]]) + buffer[1..] == received + buffer
  {
  }

  /** The buffer never exceeds the channel's capacity, and the loss counter stays empty once the closer took it. */
  predicate Bounded(s: State) {
    |s.buffer| <= s.capacity && (s.closed && !s.closer.Marked? ==> s.dropped == 0)
  }

  lemma StepKeeps(s: State, step: Step)
    requires Inv(s) && Bounded(s) && Next(s, step).Some?
    ensures Inv(Next(s, step).value) && Bounded(Next(s, step).value)
  {
    match step {
      case Close =>
        match s.closer {
          case Trying(_) =>
            if |s.buffer| < s.capacity {
              SendTerminalKeeps(s, CloseNext(s).value);
            }
          case Full(_) =>
            if s.buffer != [] {
              DisplaceKeeps(s);
            }
          case Sending(_) => SendTerminalKeeps(s, CloseNext(s).value);
          case Waiting => case Locked => case Marked => case Sent => case Finished =>
        }
      case Read => ReadKeeps(s);
      case Enter(_) => EmitKeeps(s, step);
      case Check(_) => EmitKeeps(s, step);
      case Swap(_) => EmitKeeps(s, step);
      case Send(_) => EmitKeeps(s, step);
      case AddBack(_) => EmitKeeps(s, step);
    }
  }

  lemma {:induction false} FromKeeps(s: State, steps: seq<Step>)
    requires Inv(s) && Bounded(s) && From(s, steps).Some?
    ensures Inv(From(s, steps).value) && Bounded(From(s, steps).value)
  {
    if steps != [] {
      var n := |steps| - 1;
      FromKeeps(s, steps[..n]);
      StepKeeps(From(s, steps[..n]).value, steps[n]);
    }
  }

  lemma ReachableInv(s: State)
    requires Reachable(s)
    ensures Inv(s) && Bounded(s)
  {
    var capacity: nat, emitters: nat, steps :|
      capacity >= 1 && From(Init(capacity, emitters), steps) == Some(s);
    IdleCarriesNothing(Init(capacity, emitters).emitters);
    FromKeeps(Init(capacity, emitters), steps);
  }

  /**
    Readers see what was sent in the order it was sent: a step appends one event, lets a reader take the oldest, or has
    the closer displace the oldest unread one; nothing else changes the stream.
   */
  lemma StreamKeepsOrder(s: State, step: Step)
    requires Next(s, step).Some?
    ensures var s' := Next(s, step).value;
      || (s'.received == s.received && s'.buffer == s.buffer)
      || (s'.received == s.received && |s'.buffer| == |s.buffer| + 1 && s'.buffer[..|s.buffer|] == s.buffer)
      || (s.buffer != [] && s'.buffer == s.buffer[1..] &&
          (step.Read? ==> s'.received == s.received + [s.buffer[0]]) &&
          (!step.Read? ==> s'.received == s.received && s.closer.Full?))
  {
    match step {
      case Close => match s.closer {
        case Waiting => case Locked => case Marked => case Trying(_) => case Full(_) => case Sending(_) =>
        case Sent => case Finished =>
      }
      case Read => case Enter(_) => case Check(_) => case Swap(_) => case Send(_) => case AddBack(_) =>
    }
  }

  /** An event carries the losses its emitter took out of the counter, and an emitter that cannot send gives them back. */
  lemma SendOrGiveBack(s: State, i: nat)
    requires i < |s.emitters| && s.emitters[i].Swapped? && Next(s, Send(i)).Some?
    ensures |s.buffer| < s.capacity ==> Next(s, Send(i)).value.buffer == s.buffer + [Data(s.emitters[i].carried)]
    ensures |s.buffer| >= s.capacity ==>
      && Next(s, Send(i)).value.buffer == s.buffer && Next(Next(s, Send(i)).value, AddBack(i)).Some?
      && Next(Next(s, Send(i)).value, AddBack(i)).value.dropped == s.dropped + s.emitters[i].carried + 1
  {
  }

  /** Nothing is lost silently: what was accepted is received, buffered, or still to be reported. */
  lemma NothingVanishes(s: State)
    requires Reachable(s)
    ensures s.accepted == Total(s.received) + Total(s.buffer) + s.dropped + InEmits(s.emitters) + InClose(s.closer)
  {
    ReachableInv(s);
  }

  function Survivors(q: seq<Event>): seq<Event>
    requires EndsWithTerminal(q)
  {
    q[..|q| - 1]
  }

  /**
    After close and once the buffer is read out, accepted emits equal the events received, plus the losses they
    report, plus the losses the terminal event reports; the terminal event is the last one.
   */
  lemma Conservation(s: State)
    requires Reachable(s) && s.channelClosed && s.buffer == []
    ensures EndsWithTerminal(s.received)
    ensures s.accepted == Total(Survivors(s.received)) + s.received[|s.received| - 1].dropped
  {
    ReachableInv(s);
    assert s.received + s.buffer == s.received;
    NothingInHand(s.emitters);
  }

  lemma {:induction false} NothingInHand(es: seq<Emitter>)
    requires forall i | 0 <= i < |es| :: es[i].Idle? || es[i].Entered?
    ensures InEmits(es) == 0
  {
    if es != [] {
      NothingInHand(es[1..]);
    }
  }

  /** The closer is never held up by the channel: its own send always finds room, and it finishes in few steps. */
  lemma TerminalSendNeverBlocks(s: State)
    requires Reachable(s) && WriteLocked(s.closer)
    ensures Next(s, Close).Some?
    ensures Rank(Next(s, Close).value.closer) < Rank(s.closer) <= 6
  {
    ReachableInv(s);
  }

  /** Closer steps left. */
  function Rank(c: Closer): nat {
    match c
    case Waiting => 7
    case Locked => 6
    case Marked => 5
    case Trying(_) => 4
    case Full(_) => 3
    case Sending(_) => 2
    case Sent => 1
    case Finished => 0
  }

  lemma ClosedStep(s: State, step: Step)
    requires Inv(s) && s.closed && Next(s, step).Some?
    ensures Next(s, step).value.closed && Next(s, step).value.accepted == s.accepted
  {
    match step {
      case Close => match s.closer {
        case Waiting => case Locked => case Marked => case Trying(_) => case Full(_) => case Sending(_) =>
        case Sent => case Finished =>
      }
      case Read => case Enter(_) => case Check(_) => case Swap(_) => case Send(_) => case AddBack(_) =>
    }
  }

  lemma ClosedChannelStep(s: State, step: Step)
    requires Inv(s) && s.channelClosed && Next(s, step).Some?
    ensures Next(s, step).value.channelClosed
    ensures Next(s, step).value.received + Next(s, step).value.buffer == s.received + s.buffer
  {
    match step {
      case Read => assert (s.received + [s.buffer[0]]) + s.buffer[1..] == s.received + s.buffer;
      case Close => case Enter(_) => case Check(_) => case Swap(_) => case Send(_) => case AddBack(_) =>
    }
  }

  /**
    From the moment the closed flag is set no emit is accepted any more, whatever emitters are waiting; once the channel
    is closed the sent sequence is final too.
   */
  lemma {:induction false} ClosedIsFinal(s: State, steps: seq<Step>)
    requires Inv(s) && Bounded(s) && s.closed && From(s, steps).Some?
    ensures From(s, steps).value.closed && From(s, steps).value.accepted == s.accepted
    ensures s.channelClosed ==>
      && From(s, steps).value.channelClosed
      && From(s, steps).value.received + From(s, steps).value.buffer == s.received + s.buffer
  {
    if steps != [] {
      var n := |steps| - 1;
      ClosedIsFinal(s, steps[..n]);
      FromKeeps(s, steps[..n]);
      ClosedStep(From(s, steps[..n]).value, steps[n]);
      if s.channelClosed {
        ClosedChannelStep(From(s, steps[..n]).value, steps[n]);
      }
    }
  }
}

/** The stream object itself, with each call run alone. */
module ObservationStream {
  import opened Basics
  import opened ObservationProtocol
  import opened ObservationSafety

  function Then(o: Option<State>, step: Step): Option<State> {
    if o.None? then None else Next(o.value, step)
  }

  /** One emit call that is not interleaved with others. */
  function EmitRun(s: State): Option<State> {
    var checked := Then(Then(Some(s), Enter(0)), Check(0));
    if s.closed then checked
    else
      var sent := Then(Then(checked, Swap(0)), Send(0));
      if |s.buffer| < s.capacity then sent else Then(sent, AddBack(0))
  }

  /** `n` steps of the closing call. */
  function CloseRun(s: State, n: nat): Option<State> {
    if n == 0 then Some(s) else Then(CloseRun(s, n - 1), Close)
  }

  /** How many steps the closing call takes; later calls do nothing. */
  function CloseLength(s: State): nat {
    if s.closed then 0 else if |s.buffer| < s.capacity then 5 else 7
  }

  class Stream {
    const capacity: nat
    var channel: seq<Event>
    var dropped: nat
    var closed: bool
    ghost var received: seq<Event>
    ghost var accepted: nat

    /** The protocol state this object is in between calls. */
    ghost function View(): State
      reads this
    {
      State(capacity, channel, dropped, closed, closed, [Idle], if closed then Finished else Waiting, received,
            accepted)
    }

    ghost predicate Valid()
      reads this
    {
      Inv(View()) && Bounded(View())
    }

    constructor (capacity: nat)
      requires capacity >= 1
      ensures Valid() && this.capacity == capacity
      ensures View() == Init(capacity, 1)
    {
      this.capacity := capacity;
      channel, dropped, closed := [], 0, false;
      received, accepted := [], 0;
      new;
      IdleCarriesNothing([Idle]);
    }

    method Emit()
      requires Valid()
      modifies this
      ensures Valid()
      ensures EmitRun(old(View())) == Some(View())
      ensures accepted == old(accepted) + if old(closed) then 0 else 1
    {
      ghost var before := View();
      if closed {
        EmitRefused(before);
        return;
      }
      var carried := dropped;
      dropped := 0;
      accepted := accepted + 1;
      if |channel| < capacity {
        channel := channel + [Data(carried)];
      } else {
        dropped := dropped + (carried + 1);
      }
      EmitAlone(before, View());
      EmitRunKeeps(before);
    }

    method Close()
      requires Valid()
      modifies this
      ensures Valid() && closed
      ensures CloseRun(old(View()), CloseLength(old(View()))) == Some(View())
      ensures !old(closed) ==> channel != [] && channel[|channel| - 1].Terminal?
      ensures !old(closed) ==>
        channel[..|channel| - 1] == if |old(channel)| < capacity then old(channel) else old(channel)[1..]
    {
      if closed {
        return;
      }
      ghost var before := View();
      closed := true;
      var carried := dropped;
      dropped := 0;
      if |channel| < capacity {
        channel := channel + [Terminal(carried)];
      } else {
        if channel != [] {
          carried := carried + (channel[0].dropped + 1);
          channel := channel[1..];
        }
        channel := channel + [Terminal(carried)];
      }
      CloseAlone(before, View());
      CloseRunKeeps(before, CloseLength(before));
    }

    method Receive() returns (e: Option<Event>)
      requires Valid()
      modifies this
      ensures Valid() && closed == old(closed) && accepted == old(accepted)
      ensures e.None? <==> old(channel) == []
      ensures e.Some? ==> old(channel) == [e.value] + channel && received == old(received) + [e.value]
      ensures received + channel == old(received + channel)
    {
      if channel == [] {
        return None;
      }
      ghost var before := View();
      ReadKeeps(before);
      e := Some(channel[0]);
      received := received + [channel[0]];
      channel := channel[1..];
      assert View() == Next(before, Read).value;
      assert received + channel == old(received + channel);
    }
  }

  lemma ThenKeeps(o: Option<State>, step: Step)
    requires o.Some? && Inv(o.value) && Bounded(o.value) && Then(o, step).Some?
    ensures Inv(Then(o, step).value) && Bounded(Then(o, step).value)
  {
    StepKeeps(o.value, step);
  }

  lemma EmitRunKeeps(s: State)
    requires Inv(s) && Bounded(s) && !s.closed && EmitRun(s).Some?
    ensures Inv(EmitRun(s).value) && Bounded(EmitRun(s).value)
  {
    var entered := Then(Some(s), Enter(0));
    var checked := Then(entered, Check(0));
    var swapped := Then(checked, Swap(0));
    var sent := Then(swapped, Send(0));
    ThenKeeps(Some(s), Enter(0));
    ThenKeeps(entered, Check(0));
    ThenKeeps(checked, Swap(0));
    ThenKeeps(swapped, Send(0));
    if |s.buffer| >= s.capacity {
      ThenKeeps(sent, AddBack(0));
    }
  }

  lemma {:induction false} CloseRunKeeps(s: State, n: nat)
    requires Inv(s) && Bounded(s) && CloseRun(s, n).Some?
    ensures Inv(CloseRun(s, n).value) && Bounded(CloseRun(s, n).value)
  {
    if n > 0 {
      CloseRunKeeps(s, n - 1);
      ThenKeeps(CloseRun(s, n - 1), Close);
    }
  }

  lemma Replace(e: Emitter, f: Emitter)
    ensures [e][0 := f] == [f]
  {
  }

  /** An emit on a closed stream changes nothing. */
  lemma EmitRefused(s: State)
    requires s.closed && !WriteLocked(s.closer) && s.emitters == [Idle]
    ensures EmitRun(s) == Some(s)
  {
    Replace(Idle, Entered);
    Replace(Entered, Idle);
    assert Then(Some(s), Enter(0)) == Some(s.(emitters := [Entered]));
    assert s == s.(emitters := [Idle]);
  }

  /** An emit that runs alone reports all earlier losses with its event, or adds one loss. */
  lemma EmitAlone(s: State, t: State)
    requires !s.closed && s.closer.Waiting? && s.emitters == [Idle]
    requires t == if |s.buffer| < s.capacity then
                    s.(buffer := s.buffer + [Data(s.dropped)], dropped := 0, accepted := s.accepted + 1)
                  else s.(dropped := s.dropped + 1, accepted := s.accepted + 1)
    ensures EmitRun(s) == Some(t)
  {
    var entered := s.(emitters := [Entered]);
    Replace(Idle, Entered);
    assert Then(Some(s), Enter(0)) == Some(entered);
    var checked := s.(emitters := [Admitted], accepted := s.accepted + 1);
    Replace(Entered, Admitted);
    assert Then(Some(entered), Check(0)) == Some(checked);
    var swapped := checked.(emitters := [Swapped(s.dropped)], dropped := 0);
    Replace(Admitted, Swapped(s.dropped));
    assert Then(Some(checked), Swap(0)) == Some(swapped);
    Replace(Swapped(s.dropped), Idle);
    if |s.buffer| >= s.capacity {
      var full := swapped.(emitters := [Overflow(s.dropped)]);
      Replace(Swapped(s.dropped), Overflow(s.dropped));
      assert Then(Some(swapped), Send(0)) == Some(full);
      Replace(Overflow(s.dropped), Idle);
    }
  }

  /** A close that runs alone has the effect of its steps in the protocol. */
  lemma CloseAlone(s: State, t: State)
    requires s.capacity >= 1 && |s.buffer| <= s.capacity
    requires !s.closed && s.closer.Waiting? && s.emitters == [Idle] && !s.channelClosed
    requires t.closer == Finished && t.closed && t.channelClosed && t.dropped == 0
    requires t.capacity == s.capacity && t.emitters == s.emitters && t.received == s.received
    requires t.accepted == s.accepted
    requires t.buffer == if |s.buffer| < s.capacity then s.buffer + [Terminal(s.dropped)]
                         else s.buffer[1..] + [Terminal(s.dropped + (s.buffer[0].dropped + 1))]
    ensures CloseRun(s, CloseLength(s)) == Some(t)
  {
    assert CloseRun(s, 0) == Some(s);
    assert CloseRun(s, 1) == Some(s.(closer := Locked));
    assert CloseRun(s, 2) == Some(s.(closer := Marked, closed := true));
    var taken := s.(closed := true, dropped := 0);
    assert CloseRun(s, 3) == Some(taken.(closer := Trying(s.dropped)));
    if |s.buffer| < s.capacity {
      assert CloseRun(s, 4) == Some(taken.(closer := Sent, buffer := t.buffer));
      assert CloseRun(s, 5) == Some(t);
    } else {
      assert CloseRun(s, 4) == Some(taken.(closer := Full(s.dropped)));
      var carried := s.dropped + (s.buffer[0].dropped + 1);
      assert CloseRun(s, 5) == Some(taken.(closer := Sending(carried), buffer := s.buffer[1..]));
      assert CloseRun(s, 6) == Some(taken.(closer := Sent, buffer := t.buffer));
      assert CloseRun(s, 7) == Some(t);
    }
  }
}
