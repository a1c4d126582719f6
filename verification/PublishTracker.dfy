/**
  publish_tracker.go: correlation of confirmation sequences and return tokens with publish attempts.

  `TrackerSpec` describes a tracker without any index: a table of attempt records in which every broker
  notification acts on each record separately. `PublishTracker.Tracker` is the two-map implementation,
  proved to refine that description; `TrackerTraces` characterises the outcome of an attempt over whole traces.
 */
module TrackerSpec {
  import opened Basics

  datatype PublishState = NotSent | Rejected | Returned | Confirmed | Ambiguous

  datatype Return = Return(code: nat, reason: Bytes, exchange: Bytes, routingKey: Bytes)

  datatype PublishResult = PublishResult(state: PublishState, ret: Option<Return>)

  datatype TrackerError = InvalidBounds | InvalidCorrelation | OutstandingLimit

  /** `outcome` is the one-element buffered channel on which the terminal result is sent. */
  datatype Record = Record(sequence: nat, token: Bytes, exchange: Bytes, route: Bytes,
                           returned: Option<Return>, outcome: Option<PublishResult>)
  {
    predicate Live() { outcome.None? }
  }

  /** What can happen to attempts that are already registered. */
  datatype Event =
    | ReturnSeen(token: Bytes, ret: Return)
    | ConfirmSeen(sequence: nat, ack: bool)
    | Abandon(sequence: nat, state: PublishState)
    | FailAll(state: PublishState)

  function Plain(state: PublishState): PublishResult {
    PublishResult(state, None)
  }

  predicate Abandonable(state: PublishState) {
    state == NotSent || state == Ambiguous
  }

  /** The result a confirm gives: a correlated return outranks the acknowledgement. */
  function ConfirmResult(returned: Option<Return>, ack: bool): PublishResult {
    if returned.Some? then PublishResult(Returned, returned) else Plain(if ack then Confirmed else Rejected)
  }

  /** The broker's route fields are replaced by the registered ones. */
  function WithRegisteredRoute(ret: Return, r: Record): Return {
    ret.(exchange := r.exchange, routingKey := r.route)
  }

  predicate Ends(r: Record, e: Event) {
    match e
    case ReturnSeen(_, _) => false
    case ConfirmSeen(sequence, _) => r.sequence == sequence
    case Abandon(sequence, state) => r.sequence == sequence && Abandonable(state)
    case FailAll(state) => Abandonable(state)
  }

  function ResultOf(returned: Option<Return>, e: Event): PublishResult
    requires !e.ReturnSeen?
  {
    match e
    case ConfirmSeen(_, ack) => ConfirmResult(returned, ack)
    case Abandon(_, state) => Plain(state)
    case FailAll(state) => Plain(state)
  }

  /** How one record reacts to one event, whatever the other records are. */
  function React(r: Record, e: Event): Record {
    if !r.Live() then r
    else if e.ReturnSeen? then
      if r.token == e.token then r.(returned := Some(WithRegisteredRoute(e.ret, r))) else r
    else if Ends(r, e) then r.(outcome := Some(ResultOf(r.returned, e)))
    else r
  }

  ghost function Apply<K>(t: map<K, Record>, e: Event): map<K, Record> {
    map k | k in t :: React(t[k], e)
  }

  ghost function LiveKeys<K>(t: map<K, Record>): set<K> {
    set k | k in t && t[k].Live()
  }

  /** Some live attempt already uses this sequence or this token. */
  ghost predicate Clashes<K>(t: map<K, Record>, sequence: nat, token: Bytes) {
    exists k | k in t :: t[k].Live() && (t[k].sequence == sequence || t[k].token == token)
  }

  function Admission(maximum: int, sequence: nat, token: Bytes, registered: int): Option<TrackerError> {
    if maximum < 1 then Some(InvalidBounds)
    else if sequence == 0 || token == [] then Some(InvalidCorrelation)
    else if registered >= maximum then Some(OutstandingLimit)
    else None
  }

  ghost function Refusal<K>(maximum: int, t: map<K, Record>, sequence: nat, token: Bytes): Option<TrackerError> {
    var admission := Admission(maximum, sequence, token, |LiveKeys(t)|);
    if admission.Some? then admission
    else if Clashes(t, sequence, token) then Some(InvalidCorrelation)
    else None
  }

  /** The three refusals, outright. */
  lemma RefusalMeaning<K>(maximum: int, t: map<K, Record>, sequence: nat, token: Bytes)
    ensures var refusal := Refusal(maximum, t, sequence, token);
      && (refusal.None? <==> maximum >= 1 && sequence != 0 && token != [] && |LiveKeys(t)| < maximum &&
                             !Clashes(t, sequence, token))
      && (refusal == Some(InvalidBounds) <==> maximum < 1)
      && (refusal == Some(OutstandingLimit) <==>
            maximum >= 1 && sequence != 0 && token != [] && |LiveKeys(t)| >= maximum)
  {
  }

  function NewRecord(sequence: nat, token: Bytes, exchange: Bytes, route: Bytes): Record {
    Record(sequence, token, exchange, route, None, None)
  }

  /** No two live records share a sequence or a token, so both indexes are functions. */
  ghost predicate Indexable<K>(t: map<K, Record>) {
    forall j, k | j in t && k in t && t[j].Live() && t[k].Live() && j != k ::
      t[j].sequence != t[k].sequence && t[j].token != t[k].token
  }

  /** At most one record reacts to a confirm, an abandon or a return. */
  lemma ApplyKeepsIndexable<K>(t: map<K, Record>, e: Event)
    requires Indexable(t)
    ensures Indexable(Apply(t, e))
    ensures LiveKeys(Apply(t, e)) <= LiveKeys(t)
  {
  }
}

module PublishTracker {
  import opened Basics
  import opened TrackerSpec

  class PublishAttempt {
    const sequence: nat
    const token: Bytes
    const exchange: Bytes
    const route: Bytes
    var returned: Option<Return>
    var outcome: Option<PublishResult>

    constructor (sequence: nat, token: Bytes, exchange: Bytes, route: Bytes)
      ensures View() == NewRecord(sequence, token, exchange, route)
    {
      this.sequence, this.token, this.exchange, this.route := sequence, token, exchange, route;
      returned, outcome := None, None;
    }

    ghost function View(): Record
      reads this
    {
      Record(sequence, token, exchange, route, returned, outcome)
    }
  }

  class Tracker {
    const maximum: int
    var sequence: map<nat, PublishAttempt>
    var token: map<Bytes, PublishAttempt>
    /** Every attempt ever registered here. */
    ghost var known: set<PublishAttempt>

    /** Both maps index exactly the live attempts, each under its own sequence and token. */
    ghost predicate Valid()
      reads this, known
    {
      && (forall s | s in sequence :: sequence[s] in known && sequence[s].sequence == s && sequence[s].outcome.None?)
      && (forall t | t in token :: token[t] in known && token[t].token == t && token[t].outcome.None?)
      && (forall a | a in known && a.outcome.None? ::
            && a.sequence in sequence && sequence[a.sequence] == a
            && a.token in token && token[a.token] == a)
      && (sequence == map[] || |sequence| <= maximum)
    }

    ghost function View(): map<PublishAttempt, Record>
      reads this, known
    {
      map a | a in known :: a.View()
    }

    constructor (maximum: int)
      ensures Valid() && View() == map[] && this.maximum == maximum
    {
      this.maximum := maximum;
      sequence, token, known := map[], map[], {};
    }

    /** The sequence index has one entry per live attempt, so its size is the live count. */
    lemma IndexSize()
      requires Valid()
      ensures |sequence| == |LiveKeys(View())|
    {
      var live := LiveKeys(View());
      var keys := set a | a in live :: a.sequence;
      assert keys == sequence.Keys by {
        forall s | s in sequence ensures s in keys { assert sequence[s] in live; }
      }
      InjectiveImageSize(live);
    }

    lemma InjectiveImageSize(attempts: set<PublishAttempt>)
      requires forall a, b | a in attempts && b in attempts && a != b :: a.sequence != b.sequence
      ensures |set a | a in attempts :: a.sequence| == |attempts|
    {
      if attempts != {} {
        var a :| a in attempts;
        var rest := attempts - {a};
        InjectiveImageSize(rest);
        var image := set b | b in rest :: b.sequence;
        assert (set b | b in attempts :: b.sequence) == image + {a.sequence};
      }
    }

    /** A sequence or token is taken exactly when one of the indexes holds it. */
    lemma Collision(sequence: nat, token: Bytes)
      requires Valid()
      ensures Clashes(View(), sequence, token) <==> sequence in this.sequence || token in this.token
    {
      if sequence in this.sequence {
        assert View()[this.sequence[sequence]].Live();
      }
      if token in this.token {
        assert View()[this.token[token]].Live();
      }
    }

    method Register(sequence: nat, token: Bytes, exchange: Bytes, route: Bytes)
      returns (r: Result<PublishAttempt, TrackerError>)
      requires Valid()
      modifies this
      ensures Valid()
      ensures Refusal(maximum, old(View()), sequence, token) == if r.Ok? then None else Some(r.error)
      ensures r.Ok? <==> maximum >= 1 && sequence != 0 && token != [] && |LiveKeys(old(View()))| < maximum &&
                         !Clashes(old(View()), sequence, token)
      ensures r.Err? ==> (r.error.InvalidBounds? <==> maximum < 1)
      ensures r.Err? ==> (r.error.OutstandingLimit? <==>
                            maximum >= 1 && sequence != 0 && token != [] && |LiveKeys(old(View()))| >= maximum)
      ensures r.Err? ==> View() == old(View())
      ensures r.Ok? ==> fresh(r.value) &&
                        View() == old(View())[r.value := NewRecord(sequence, token, exchange, route)]
    {
      RefusalMeaning(maximum, View(), sequence, token);
      var admission := Admission(maximum, sequence, token, |this.sequence|);
      assert admission == Admission(maximum, sequence, token, |LiveKeys(View())|) by { IndexSize(); }
      if admission.Some? {
        return Err(admission.value);
      }
      assert Clashes(View(), sequence, token) <==> sequence in this.sequence || token in this.token by {
        Collision(sequence, token);
      }
      if sequence in this.sequence || token in this.token {
        return Err(InvalidCorrelation);
      }
      var attempt := new PublishAttempt(sequence, token, exchange, route);
      Insert(attempt);
      r := Ok(attempt);
    }

    method Insert(attempt: PublishAttempt)
      requires Valid() && |sequence| < maximum
      requires attempt !in known && attempt.outcome.None?
      requires attempt.sequence !in sequence && attempt.token !in token
      modifies this
      ensures Valid() && known == old(known) + {attempt}
    {
      sequence := sequence[attempt.sequence := attempt];
      token := token[attempt.token := attempt];
      known := known + {attempt};
    }

    method Returned(token: Bytes, returned: Return) returns (correlated: bool)
      requires Valid()
      modifies known
      ensures Valid() && known == old(known)
      ensures View() == Apply(old(View()), ReturnSeen(token, returned))
      ensures forall a | a in known && a.token == token && a.outcome.None? ::
                a.returned == Some(Return(returned.code, returned.reason, a.exchange, a.route))
      ensures correlated <==> exists a | a in known :: old(a.View()).Live() && a.token == token
    {
      if token !in this.token {
        return false;
      }
      var attempt := this.token[token];
      attempt.returned := Some(returned.(exchange := attempt.exchange, routingKey := attempt.route));
      correlated := true;
    }

    method Confirm(sequence: nat, acknowledged: bool) returns (correlated: bool)
      requires Valid()
      modifies this, known
      ensures Valid() && known == old(known)
      ensures View() == Apply(old(View()), ConfirmSeen(sequence, acknowledged))
      ensures forall a | a in known && a.sequence == sequence && old(a.outcome).None? ::
                a.outcome == Some(if old(a.returned).Some? then PublishResult(PublishState.Returned, old(a.returned))
                                  else if acknowledged then PublishResult(Confirmed, None)
                                  else PublishResult(PublishState.Rejected, None))
      ensures correlated <==> exists a | a in known :: old(a.View()).Live() && a.sequence == sequence
    {
      if sequence !in this.sequence {
        return false;
      }
      var attempt := this.sequence[sequence];
      Complete(attempt, ConfirmResult(attempt.returned, acknowledged));
      correlated := true;
    }

    method AbandonOne(sequence: nat, state: PublishState) returns (correlated: bool)
      requires Valid()
      modifies this, known
      ensures Valid() && known == old(known)
      ensures View() == Apply(old(View()), Abandon(sequence, state))
      ensures forall a | a in known && a.sequence == sequence && old(a.outcome).None? ::
                a.outcome == if correlated then Some(PublishResult(state, None)) else None
      ensures correlated <==>
              Abandonable(state) && exists a | a in known :: old(a.View()).Live() && a.sequence == sequence
    {
      if !Abandonable(state) || sequence !in this.sequence {
        return false;
      }
      Complete(this.sequence[sequence], Plain(state));
      correlated := true;
    }

    method FailAllLive(state: PublishState) returns (count: nat)
      requires Valid()
      modifies this, known
      ensures Valid() && known == old(known)
      ensures View() == Apply(old(View()), FailAll(state))
      ensures Abandonable(state) ==> forall a | a in known && old(a.outcome).None? ::
                a.outcome == Some(PublishResult(state, None))
      ensures count == if Abandonable(state) then |LiveKeys(old(View()))| else 0
    {
      if !Abandonable(state) {
        return 0;
      }
      count := |sequence|;
      assert count == |LiveKeys(View())| by { IndexSize(); }
      CompleteEach(Plain(state));
    }

    method CompleteEach(result: PublishResult)
      requires Valid()
      modifies this, known
      ensures Valid() && known == old(known) && sequence == map[]
      ensures forall a | a in known ::
                && a.returned == old(a.returned)
                && a.outcome == if old(a.outcome).None? then Some(result) else old(a.outcome)
    {
      while sequence != map[]
        invariant Valid() && known == old(known)
        invariant forall a | a in known ::
          && a.returned == old(a.returned)
          && (a.outcome == old(a.outcome) || (old(a.outcome).None? && a.outcome == Some(result)))
        decreases |sequence|
      {
        var s :| s in sequence;
        Complete(sequence[s], result);
      }
    }

    /** Removes both indexes, then sends the one buffered outcome; the channel is known to be empty. */
    method Complete(attempt: PublishAttempt, result: PublishResult)
      requires Valid()
      requires attempt in known && attempt.outcome.None?
      modifies this`sequence, this`token, attempt
      ensures Valid() && |sequence| == |old(sequence)| - 1
      ensures attempt.View() == old(attempt.View()).(outcome := Some(result))
    {
      assert sequence == (sequence - {attempt.sequence})[attempt.sequence := attempt];
      sequence := sequence - {attempt.sequence};
      token := token - {attempt.token};
      attempt.outcome := Some(result);
    }
  }
}

module TrackerTraces {
  import opened Basics
  import opened TrackerSpec

  datatype Operation =
    | Register(sequence: nat, token: Bytes, exchange: Bytes, route: Bytes)
    | Notify(event: Event)

  /** The table after a trace; an attempt is named by the position of the operation that registered it. */
  ghost function Run(maximum: int, ops: seq<Operation>): map<nat, Record> {
    if ops == [] then map[]
    else
      var n := |ops| - 1;
      Step(maximum, Run(maximum, ops[..n]), n, ops[n])
  }

  ghost function Step(maximum: int, t: map<nat, Record>, name: nat, op: Operation): map<nat, Record> {
    match op
    case Notify(e) => Apply(t, e)
    case Register(sequence, token, exchange, route) =>
      if Refusal(maximum, t, sequence, token).Some? then t
      else t[name := NewRecord(sequence, token, exchange, route)]
  }

  ghost predicate Bounded(maximum: int, t: map<nat, Record>) {
    Indexable(t) && |LiveKeys(t)| <= if maximum < 0 then 0 else maximum
  }

  lemma RegisterKeepsBounds(maximum: int, t: map<nat, Record>, name: nat, op: Operation)
    requires Bounded(maximum, t) && name !in t && op.Register?
    ensures Bounded(maximum, Step(maximum, t, name, op))
  {
    var t' := Step(maximum, t, name, op);
    if t' != t {
      assert LiveKeys(t') == LiveKeys(t) + {name};
    }
  }

  lemma NotifyKeepsBounds(maximum: int, t: map<nat, Record>, e: Event)
    requires Bounded(maximum, t)
    ensures Bounded(maximum, Apply(t, e))
  {
    ApplyKeepsIndexable(t, e);
    SubsetSize(LiveKeys(Apply(t, e)), LiveKeys(t));
  }

  /** Over every trace both indexes stay functions of the live attempts and the window is respected. */
  lemma {:induction false} TraceBounds(maximum: int, ops: seq<Operation>)
    ensures Bounded(maximum, Run(maximum, ops))
    ensures forall k | k in Run(maximum, ops) :: k < |ops| && ops[k].Register?
  {
    if ops != [] {
      var n := |ops| - 1;
      var t := Run(maximum, ops[..n]);
      TraceBounds(maximum, ops[..n]);
      match ops[n] {
        case Notify(e) => NotifyKeepsBounds(maximum, t, e);
        case Register(_, _, _, _) => RegisterKeepsBounds(maximum, t, n, ops[n]);
      }
    }
  }

  /** `op` is a terminal event for an attempt registered under `sequence`. */
  predicate Terminal(op: Operation, sequence: nat) {
    op.Notify? &&
    match op.event
    case ReturnSeen(_, _) => false
    case ConfirmSeen(s, _) => s == sequence
    case Abandon(s, state) => s == sequence && Abandonable(state)
    case FailAll(state) => Abandonable(state)
  }

  predicate ReturnFor(op: Operation, token: Bytes) {
    op.Notify? && op.event.ReturnSeen? && op.event.token == token
  }

  /** The last return for the registered token in the window [lo, hi), with the registered route. */
  function LastReturn(ops: seq<Operation>, lo: nat, hi: nat, reg: Operation): Option<Return>
    requires lo <= hi <= |ops| && reg.Register?
    decreases hi
  {
    if lo == hi then None
    else if ReturnFor(ops[hi - 1], reg.token) then
      Some(ops[hi - 1].event.ret.(exchange := reg.exchange, routingKey := reg.route))
    else LastReturn(ops, lo, hi - 1, reg)
  }

  /** `k` is the last return for the registered token in the window [lo, hi). */
  predicate IsLastReturn(ops: seq<Operation>, lo: nat, hi: nat, reg: Operation, k: nat)
    requires hi <= |ops| && reg.Register?
  {
    lo <= k < hi && ReturnFor(ops[k], reg.token) && forall j | k < j < hi :: !ReturnFor(ops[j], reg.token)
  }

  /** A return is present exactly when the window has one; it is the last one, under the registered route. */
  lemma {:induction false} LastReturnMeaning(ops: seq<Operation>, lo: nat, hi: nat, reg: Operation)
    requires lo <= hi <= |ops| && reg.Register?
    ensures LastReturn(ops, lo, hi, reg).None? <==> forall j | lo <= j < hi :: !ReturnFor(ops[j], reg.token)
    ensures LastReturn(ops, lo, hi, reg).Some? ==>
              exists k: nat :: IsLastReturn(ops, lo, hi, reg, k) &&
                LastReturn(ops, lo, hi, reg) ==
                  Some(Return(ops[k].event.ret.code, ops[k].event.ret.reason, reg.exchange, reg.route))
    decreases hi
  {
    if lo < hi {
      LastReturnMeaning(ops, lo, hi - 1, reg);
      if ReturnFor(ops[hi - 1], reg.token) {
        assert IsLastReturn(ops, lo, hi, reg, hi - 1);
      } else if LastReturn(ops, lo, hi - 1, reg).Some? {
        var k: nat :| IsLastReturn(ops, lo, hi - 1, reg, k) &&
          LastReturn(ops, lo, hi - 1, reg) ==
            Some(Return(ops[k].event.ret.code, ops[k].event.ret.reason, reg.exchange, reg.route));
        assert IsLastReturn(ops, lo, hi, reg, k);
      }
    }
  }

  /** Operation `j` is the first terminal event after `i`, and `result` is what it gives. */
  ghost predicate DecidedAt(ops: seq<Operation>, i: nat, j: nat, result: PublishResult)
    requires i < |ops| && ops[i].Register?
  {
    && i < j < |ops|
    && Terminal(ops[j], ops[i].sequence)
    && (forall k | i < k < j :: !Terminal(ops[k], ops[i].sequence))
    && IsVerdict(LastReturn(ops, i + 1, j, ops[i]), ops[j].event, result)
  }

  /**
    What a terminal event makes of an attempt whose last return is `ret`: a confirm gives Returned with that return if
    there is one, and otherwise Confirmed or Rejected by its ack; an abandon or a failure gives its own state.
   */
  predicate IsVerdict(ret: Option<Return>, e: Event, result: PublishResult) {
    match e
    case ConfirmSeen(_, ack) =>
      if ret.Some? then result.state == Returned && result.ret == ret
      else result.state == (if ack then Confirmed else Rejected) && result.ret == None
    case Abandon(_, state) => result.state == state && result.ret == None
    case FailAll(state) => result.state == state && result.ret == None
    case ReturnSeen(_, _) => false
  }

  /** The outcome the trace gives to the attempt registered at `i`, read off the trace alone. */
  ghost predicate OutcomeOfTrace(ops: seq<Operation>, i: nat, outcome: Option<PublishResult>)
    requires i < |ops| && ops[i].Register?
  {
    match outcome
    case None => forall j | i < j < |ops| :: !Terminal(ops[j], ops[i].sequence)
    case Some(result) => exists j :: DecidedAt(ops, i, j, result)
  }

  /** The record of the attempt registered at `i`, as far as the trace determines it. */
  ghost predicate RecordOfTrace(ops: seq<Operation>, i: nat, r: Record)
    requires i < |ops| && ops[i].Register?
  {
    && r.sequence == ops[i].sequence && r.token == ops[i].token
    && r.exchange == ops[i].exchange && r.route == ops[i].route
    && OutcomeOfTrace(ops, i, r.outcome)
    && (r.Live() ==> r.returned == LastReturn(ops, i + 1, |ops|, ops[i]))
  }

  /** Every registered attempt carries exactly the outcome its trace determines. */
  lemma {:induction false} OutcomeIsDecidedByTheTrace(maximum: int, ops: seq<Operation>, i: nat)
    requires i < |ops| && i in Run(maximum, ops)
    ensures ops[i].Register? && RecordOfTrace(ops, i, Run(maximum, ops)[i])
  {
    TraceBounds(maximum, ops);
    var n := |ops| - 1;
    TraceBounds(maximum, ops[..n]);
    if i < n {
      OutcomeIsDecidedByTheTrace(maximum, ops[..n], i);
      assert Run(maximum, ops)[i] ==
             if ops[n].Notify? then React(Run(maximum, ops[..n])[i], ops[n].event) else Run(maximum, ops[..n])[i];
      OneMoreOperation(ops, i, Run(maximum, ops[..n])[i]);
    }
  }

  lemma OneMoreOperation(ops: seq<Operation>, i: nat, was: Record)
    requires i < |ops| - 1 && ops[i].Register?
    requires RecordOfTrace(ops[..|ops| - 1], i, was)
    ensures RecordOfTrace(ops, i, if ops[|ops| - 1].Notify? then React(was, ops[|ops| - 1].event) else was)
  {
    var n := |ops| - 1;
    assert forall k | i < k < n :: ops[k] == ops[..n][k];
    if was.Live() {
      LastReturnShorter(ops, n, i + 1, n, ops[i]);
      if Terminal(ops[n], was.sequence) {
        assert DecidedAt(ops, i, n, ResultOf(was.returned, ops[n].event));
      }
    } else {
      var j :| DecidedAt(ops[..n], i, j, was.outcome.value);
      LastReturnShorter(ops, n, i + 1, j, ops[i]);
      assert DecidedAt(ops, i, j, was.outcome.value);
    }
  }

  lemma {:induction false} LastReturnShorter(ops: seq<Operation>, n: nat, lo: nat, hi: nat, reg: Operation)
    requires lo <= hi <= n <= |ops| && reg.Register?
    ensures LastReturn(ops[..n], lo, hi, reg) == LastReturn(ops, lo, hi, reg)
    decreases hi
  {
    if lo < hi {
      LastReturnShorter(ops, n, lo, hi - 1, reg);
    }
  }
}
