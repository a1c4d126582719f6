/** topology.go:372-520: which topology graphs are admitted. */
module TopologyGraph {
  import opened Basics
  import opened Text
  import opened Messages
  import opened QueuePolicy

  datatype Exchange = Exchange(name: Bytes, kind: ExchangeKind, durable: bool, autoDelete: bool, isInternal: bool)

  datatype Binding = Binding(exchange: Bytes, queue: Bytes, routingKey: Bytes, arguments: seq<Header>)

  datatype Topology = Topology(exchanges: seq<Exchange>, queues: seq<Queue>, bindings: seq<Binding>)

  datatype Mode = Passive | Declare | OtherMode

  datatype Policy = Policy(mode: Mode, permitted: bool)

  datatype TopologyError =
    | InvalidTopology | UnsupportedKind | UnsupportedQueue | MutationDenied | PassiveBindings

  predicate BuiltIn(kind: ExchangeKind) {
    kind.Direct? || kind.Topic? || kind.Fanout? || kind.HeadersKind?
  }

  predicate ValidExchange(e: Exchange) {
    !InvalidIdentity(e.name, 255) && BuiltIn(e.kind)
  }

  const MatchKey: Bytes := Ascii("x-match")

  predicate IsExtended(s: Bytes) {
    s == Ascii("all-with-x") || s == Ascii("any-with-x")
  }

  predicate IsMatchMode(s: Bytes) {
    s == Ascii("all") || s == Ascii("any") || IsExtended(s)
  }

  predicate IsExtensionKey(k: Bytes) {
    |k| >= 2 && k[0] == 120 && k[1] == 45
  }

  predicate ValidArgument(h: Header) {
    && !InvalidIdentity(h.key, 255) && h.key != TokenKey && WellShaped(h)
    && (h.kind.KString? ==> !ContainsControl(h.text))
  }

  predicate ValidArguments(hs: seq<Header>) {
    && |hs| <= 128 && DistinctKeys(hs) && HeadersBytes(hs) <= 64 * 1024
    && forall i | 0 <= i < |hs| :: ValidArgument(hs[i])
  }

  predicate ExtendsMatch(hs: seq<Header>) {
    exists i | 0 <= i < |hs| :: hs[i].key == MatchKey && IsExtended(hs[i].text)
  }

  /** Match modes are known and some argument is an effective criterion. */
  predicate ValidCriteria(hs: seq<Header>) {
    && (forall i | 0 <= i < |hs| :: hs[i].key == MatchKey ==> hs[i].kind.KString? && IsMatchMode(hs[i].text))
    && exists i | 0 <= i < |hs| :: hs[i].key != MatchKey && (ExtendsMatch(hs) || !IsExtensionKey(hs[i].key))
  }

  predicate ValidRoute(kind: ExchangeKind, key: Bytes, hs: seq<Header>) {
    && |key| <= 255 && !ContainsControl(key) && ValidArguments(hs)
    && match kind
       case Direct => hs == []
       case Topic => hs == []
       case Fanout => key == [] && hs == []
       case HeadersKind => key == [] && ValidCriteria(hs)
       case _ => false
  }

  predicate DistinctExchanges(es: seq<Exchange>) {
    forall i, j | 0 <= i < j < |es| :: es[i].name != es[j].name
  }

  predicate DistinctQueues(qs: seq<Queue>) {
    forall i, j | 0 <= i < j < |qs| :: qs[i].name != qs[j].name
  }

  predicate DeclarableQueue(q: Queue) {
    ValidQueue(q) && !q.exclusive && q.name != []
  }

  /** Both ends are declared in the same topology and the route suits the exchange. */
  predicate ValidBinding(b: Binding, t: Topology) {
    && (exists i | 0 <= i < |t.exchanges| ::
          t.exchanges[i].name == b.exchange && ValidRoute(t.exchanges[i].kind, b.routingKey, b.arguments))
    && exists i | 0 <= i < |t.queues| :: t.queues[i].name == b.queue
  }

  predicate ValidPolicy(p: Policy) {
    p.mode.Passive? || (p.mode.Declare? && p.permitted)
  }

  predicate ValidSizes(t: Topology, p: Policy) {
    && |t.exchanges| + |t.queues| > 0 && |t.exchanges| <= 128 && |t.queues| <= 128 && |t.bindings| <= 512
    && (p.mode.Passive? ==> t.bindings == [])
  }

  predicate ValidTopology(t: Topology, p: Policy) {
    && ValidPolicy(p) && ValidSizes(t, p)
    && (forall i | 0 <= i < |t.exchanges| :: ValidExchange(t.exchanges[i])) && DistinctExchanges(t.exchanges)
    && (forall i | 0 <= i < |t.queues| :: DeclarableQueue(t.queues[i])) && DistinctQueues(t.queues)
    && (forall i | 0 <= i < |t.bindings| :: ValidBinding(t.bindings[i], t))
  }

  /** The name index the exchange loop builds. */
  ghost predicate IndexesExchanges(m: map<Bytes, ExchangeKind>, es: seq<Exchange>, n: nat) {
    && n <= |es|
    && (forall i | 0 <= i < n :: es[i].name in m && m[es[i].name] == es[i].kind && ValidExchange(es[i]))
    && (forall k | k in m :: exists i | 0 <= i < n :: es[i].name == k)
    && (forall i, j | 0 <= i < j < n :: es[i].name != es[j].name)
  }

  method CheckExchanges(es: seq<Exchange>) returns (m: map<Bytes, ExchangeKind>, e: Option<TopologyError>)
    ensures e.None? <==> (forall i | 0 <= i < |es| :: ValidExchange(es[i])) && DistinctExchanges(es)
    ensures e.None? ==> IndexesExchanges(m, es, |es|)
  {
    m := map[];
    for n := 0 to |es|
      invariant IndexesExchanges(m, es, n)
    {
      if InvalidIdentity(es[n].name, 255) {
        assert !ValidExchange(es[n]);
        return m, Some(InvalidTopology);
      }
      if !BuiltIn(es[n].kind) {
        assert !ValidExchange(es[n]);
        return m, Some(UnsupportedKind);
      }
      if es[n].name in m {
        return m, Some(InvalidTopology);
      }
      m := m[es[n].name := es[n].kind];
    }
    e := None;
  }

  method CheckQueues(qs: seq<Queue>) returns (names: set<Bytes>, e: Option<TopologyError>)
    ensures e.None? <==> (forall i | 0 <= i < |qs| :: DeclarableQueue(qs[i])) && DistinctQueues(qs)
    ensures e.None? ==> forall k :: k in names <==> exists i | 0 <= i < |qs| :: qs[i].name == k
  {
    names := {};
    for n := 0 to |qs|
      invariant forall i | 0 <= i < n :: DeclarableQueue(qs[i])
      invariant forall k :: k in names <==> exists i | 0 <= i < n :: qs[i].name == k
      invariant forall i, j | 0 <= i < j < n :: qs[i].name != qs[j].name
    {
      if !ValidQueue(qs[n]) {
        assert !DeclarableQueue(qs[n]);
        return names, Some(UnsupportedQueue);
      }
      if qs[n].exclusive || qs[n].name == [] {
        assert !DeclarableQueue(qs[n]);
        return names, Some(InvalidTopology);
      }
      if qs[n].name in names {
        return names, Some(InvalidTopology);
      }
      names := names + {qs[n].name};
    }
    e := None;
  }

  /** An indexed lookup finds the one exchange the binding can mean. */
  lemma LookupMeansBinding(b: Binding, t: Topology, m: map<Bytes, ExchangeKind>, names: set<Bytes>)
    requires IndexesExchanges(m, t.exchanges, |t.exchanges|)
    requires forall k :: k in names <==> exists i | 0 <= i < |t.queues| :: t.queues[i].name == k
    ensures ValidBinding(b, t) <==>
            b.exchange in m && b.queue in names && ValidRoute(m[b.exchange], b.routingKey, b.arguments)
  {
    if b.exchange in m {
      var i :| 0 <= i < |t.exchanges| && t.exchanges[i].name == b.exchange;
      assert m[b.exchange] == t.exchanges[i].kind;
    }
  }

  method Validate(t: Topology, p: Policy) returns (e: Option<TopologyError>)
    ensures e.None? <==> ValidTopology(t, p)
  {
    if !ValidPolicy(p) {
      return Some(if p.mode.Declare? then MutationDenied else InvalidTopology);
    }
    if |t.exchanges| + |t.queues| == 0 || |t.exchanges| > 128 || |t.queues| > 128 || |t.bindings| > 512 {
      return Some(InvalidTopology);
    }
    if p.mode.Passive? && t.bindings != [] {
      return Some(PassiveBindings);
    }
    var m, exchangeError := CheckExchanges(t.exchanges);
    if exchangeError.Some? {
      return exchangeError;
    }
    var names, queueError := CheckQueues(t.queues);
    if queueError.Some? {
      return queueError;
    }
    for n := 0 to |t.bindings|
      invariant forall i | 0 <= i < n :: ValidBinding(t.bindings[i], t)
    {
      var b := t.bindings[n];
      LookupMeansBinding(b, t, m, names);
      if b.exchange !in m || b.queue !in names || !ValidRoute(m[b.exchange], b.routingKey, b.arguments) {
        return Some(InvalidTopology);
      }
    }
    e := None;
  }
}

/**
  topology_apply.go:84-243: a bounded retry loop around one ordered pass over exchanges, queues and bindings. The
  broker, the network and the caller's context answer through parameters.
 */
module TopologyApply {
  import opened Basics
  import opened Text
  import opened QueuePolicy
  import opened TopologyGraph

  /** One request on a topology channel. */
  datatype Op =
    | ExchangeOp(exchange: Exchange, passive: bool)
    | QueueOp(queue: Queue, passive: bool)
    | BindOp(binding: Binding)

  predicate Mutates(op: Op) {
    op.BindOp? || !op.passive
  }

  /** How a request went. */
  datatype Outcome =
    | Succeeded(name: Bytes)     // the queue name the broker reports; unused for the other requests
    | ExpiredBefore              // context already over: nothing was sent
    | ExpiredDuring
    | AccessRefused | NotFound | ResourceLocked | PreconditionFailed | OtherFailure

  datatype ApplyError =
    | Unavailable | Retryable | Unauthorized | Inequivalent
    | InvalidConnection | Refused(reason: TopologyError)

  function OperationError(o: Outcome): ApplyError
    requires !o.Succeeded?
  {
    match o
    case AccessRefused => Unauthorized
    case ResourceLocked => Inequivalent
    case PreconditionFailed => Inequivalent
    case NotFound => Unavailable
    case _ => Retryable
  }

  // ---------------------------------------------------------------- the plan

  function ExchangeOps(t: Topology, passive: bool): seq<Op> {
    seq(|t.exchanges|, i requires 0 <= i < |t.exchanges| => ExchangeOp(t.exchanges[i], passive))
  }

  function QueueOps(t: Topology, passive: bool): seq<Op> {
    seq(|t.queues|, i requires 0 <= i < |t.queues| => QueueOp(t.queues[i], passive))
  }

  function BindOps(t: Topology): seq<Op> {
    seq(|t.bindings|, i requires 0 <= i < |t.bindings| => BindOp(t.bindings[i]))
  }

  /** Exchanges, then queues, then bindings, each in input order. */
  function Plan(t: Topology, passive: bool): seq<Op> {
    ExchangeOps(t, passive) + QueueOps(t, passive) + BindOps(t)
  }

  function QueueNames(t: Topology): seq<Bytes> {
    seq(|t.queues|, i requires 0 <= i < |t.queues| => t.queues[i].name)
  }

  /** A passive plan of an admitted topology changes nothing at the broker. */
  lemma PassivePlanIsReadOnly(t: Topology, p: Policy)
    requires ValidTopology(t, p) && p.mode.Passive?
    ensures forall i | 0 <= i < |Plan(t, true)| :: !Mutates(Plan(t, true)[i])
  {
  }

  /** Every bind comes after the declaration of its exchange and of its queue. */
  lemma BindFollowsItsEnds(t: Topology, p: Policy, i: nat)
    requires ValidTopology(t, p) && i < |Plan(t, p.mode.Passive?)| && Plan(t, p.mode.Passive?)[i].BindOp?
    ensures exists j: nat, k: nat | j < k < i ::
      && Plan(t, p.mode.Passive?)[j].ExchangeOp? && Plan(t, p.mode.Passive?)[k].QueueOp?
      && Plan(t, p.mode.Passive?)[j].exchange.name == Plan(t, p.mode.Passive?)[i].binding.exchange
      && Plan(t, p.mode.Passive?)[k].queue.name == Plan(t, p.mode.Passive?)[i].binding.queue
  {
    var plan := Plan(t, p.mode.Passive?);
    var n, m := |t.exchanges|, |t.queues|;
    var b := i - n - m;
    assert plan[i] == BindOp(t.bindings[b]);
    assert ValidBinding(t.bindings[b], t);
    var j: nat :| j < n && t.exchanges[j].name == t.bindings[b].exchange;
    var k: nat :| k < m && t.queues[k].name == t.bindings[b].queue;
    assert plan[j] == ExchangeOp(t.exchanges[j], p.mode.Passive?);
    assert plan[n + k] == QueueOp(t.queues[k], p.mode.Passive?);
  }

  // ---------------------------------------------------------------- one pass over a channel

  /** What one pass issued: a prefix of the plan, of which all but possibly the last request succeeded. */
  datatype Pass = Pass(ops: seq<Op>, succeeded: nat, result: Result<seq<Bytes>, ApplyError>)

  /** The request went through, and for a queue the broker names the queue that was asked for. */
  predicate Accepts(op: Op, o: Outcome) {
    && o.Succeeded?
    && (op.QueueOp? ==> !InvalidIdentity(o.name, 255) && (op.queue.name != [] ==> o.name == op.queue.name))
  }

  /** The context ended or the transport failed: nothing was decided about the topology. */
  predicate Transport(o: Outcome) {
    o.ExpiredBefore? || o.ExpiredDuring? || o.OtherFailure?
  }

  /** How a request that is not accepted is classified. */
  predicate FaultFits(op: Op, o: Outcome, e: ApplyError) {
    && (Transport(o) ==> e.Retryable?)
    && (o.AccessRefused? ==> e.Unauthorized?)
    && (o.NotFound? ==> e.Unavailable?)
    && (o.ResourceLocked? || o.PreconditionFailed? ==> e.Inequivalent?)
    && (o.Succeeded? ==> if InvalidIdentity(o.name, 255) then e.Unavailable? else e.Inequivalent?)
  }

  /** The first request that is not accepted ends the pass. */
  ghost predicate IsPass(r: Pass, t: Topology, passive: bool, outcomes: nat -> Outcome) {
    var plan := Plan(t, passive);
    && r.ops <= plan && r.succeeded <= |r.ops| <= r.succeeded + 1
    && (forall i: nat | i < r.succeeded :: Accepts(plan[i], outcomes(i)))
    && (r.result.Ok? ==> r.ops == plan && r.succeeded == |plan|)
    && (r.result.Err? ==>
          && r.succeeded < |plan| && !Accepts(plan[r.succeeded], outcomes(r.succeeded))
          && (|r.ops| == r.succeeded <==> outcomes(r.succeeded).ExpiredBefore?)
          && FaultFits(plan[r.succeeded], outcomes(r.succeeded), r.result.error))
  }

  /** The pass has issued the first `n` requests of the plan and all went through. */
  ghost predicate Progress(ops: seq<Op>, n: nat, t: Topology, passive: bool, outcomes: nat -> Outcome) {
    && n <= |Plan(t, passive)| && ops == Plan(t, passive)[..n]
    && forall i: nat | i < n :: Accepts(Plan(t, passive)[i], outcomes(i))
  }

  lemma ProgressExtends(ops: seq<Op>, n: nat, t: Topology, passive: bool, outcomes: nat -> Outcome, op: Op)
    requires Progress(ops, n, t, passive, outcomes) && n < |Plan(t, passive)| && op == Plan(t, passive)[n]
    ensures ops + [op] == Plan(t, passive)[..n + 1] <= Plan(t, passive) && ops <= Plan(t, passive)
    ensures Accepts(op, outcomes(n)) ==> Progress(ops + [op], n + 1, t, passive, outcomes)
  {
  }

  lemma PlanLength(t: Topology, passive: bool)
    ensures |Plan(t, passive)| == |t.exchanges| + |t.queues| + |t.bindings|
  {
  }

  lemma PlanExchange(t: Topology, passive: bool, i: nat)
    requires i < |t.exchanges|
    ensures |Plan(t, passive)| > i && Plan(t, passive)[i] == ExchangeOp(t.exchanges[i], passive)
  {
  }

  lemma PlanQueue(t: Topology, passive: bool, i: nat)
    requires i < |t.queues|
    ensures |Plan(t, passive)| > |t.exchanges| + i
    ensures Plan(t, passive)[|t.exchanges| + i] == QueueOp(t.queues[i], passive)
  {
  }

  lemma PlanBind(t: Topology, passive: bool, i: nat)
    requires i < |t.bindings|
    ensures |Plan(t, passive)| > |t.exchanges| + |t.queues| + i
    ensures Plan(t, passive)[|t.exchanges| + |t.queues| + i] == BindOp(t.bindings[i])
  {
  }

  lemma StopsBefore(ops: seq<Op>, n: nat, t: Topology, passive: bool, outcomes: nat -> Outcome)
    requires Progress(ops, n, t, passive, outcomes) && n < |Plan(t, passive)| && outcomes(n).ExpiredBefore?
    ensures IsPass(Pass(ops, n, Err(OperationError(outcomes(n)))), t, passive, outcomes)
  {
  }

  lemma StopsAt(ops: seq<Op>, n: nat, t: Topology, passive: bool, outcomes: nat -> Outcome, op: Op, e: ApplyError)
    requires Progress(ops, n, t, passive, outcomes) && n < |Plan(t, passive)| && op == Plan(t, passive)[n]
    requires !outcomes(n).ExpiredBefore? && !Accepts(op, outcomes(n))
    requires FaultFits(op, outcomes(n), e)
    ensures IsPass(Pass(ops + [op], n, Err(e)), t, passive, outcomes)
  {
    ProgressExtends(ops, n, t, passive, outcomes, op);
  }

  /** The exchange loop: either every exchange went through or the pass is over. */
  method ApplyExchanges(t: Topology, passive: bool, outcomes: nat -> Outcome) returns (ops: seq<Op>, over: Option<Pass>)
    ensures over.None? ==> Progress(ops, |t.exchanges|, t, passive, outcomes)
    ensures over.Some? ==> IsPass(over.value, t, passive, outcomes) && over.value.result.Err?
  {
    PlanLength(t, passive);
    ops := [];
    for i := 0 to |t.exchanges|
      invariant Progress(ops, i, t, passive, outcomes)
    {
      var op := ExchangeOp(t.exchanges[i], passive);
      PlanExchange(t, passive, i);
      var o := outcomes(i);
      if o.ExpiredBefore? {
        StopsBefore(ops, i, t, passive, outcomes);
        return ops, Some(Pass(ops, i, Err(OperationError(o))));
      }
      if !o.Succeeded? {
        StopsAt(ops, i, t, passive, outcomes, op, OperationError(o));
        return ops, Some(Pass(ops + [op], i, Err(OperationError(o))));
      }
      ProgressExtends(ops, i, t, passive, outcomes, op);
      ops := ops + [op];
    }
    over := None;
  }

  /** Why a queue request is not accepted. */
  function QueueFault(q: Queue, o: Outcome): (e: Option<ApplyError>)
    ensures forall passive :: e.None? <==> Accepts(QueueOp(q, passive), o)
    ensures e.Some? ==> forall passive :: FaultFits(QueueOp(q, passive), o, e.value)
  {
    if !o.Succeeded? then Some(OperationError(o))
    else if InvalidIdentity(o.name, 255) then Some(Unavailable)
    else if q.name != [] && o.name != q.name then Some(Inequivalent)
    else None
  }

  /** The reported names are the names asked for, where a name was asked for. */
  predicate Named(names: seq<Bytes>, t: Topology, n: nat) {
    && n <= |t.queues| && |names| == n
    && forall j | 0 <= j < n :: t.queues[j].name != [] ==> names[j] == t.queues[j].name
  }

  lemma NamedExtends(names: seq<Bytes>, t: Topology, n: nat, passive: bool, o: Outcome)
    requires Named(names, t, n) && n < |t.queues| && Accepts(QueueOp(t.queues[n], passive), o)
    ensures Named(names + [o.name], t, n + 1)
  {
  }

  /** The queue loop: the broker must name each queue as it was asked for. */
  method ApplyQueues(ops0: seq<Op>, t: Topology, passive: bool, outcomes: nat -> Outcome)
    returns (ops: seq<Op>, names: seq<Bytes>, over: Option<Pass>)
    requires Progress(ops0, |t.exchanges|, t, passive, outcomes)
    ensures over.None? ==> Progress(ops, |t.exchanges| + |t.queues|, t, passive, outcomes)
    ensures over.None? ==> Named(names, t, |t.queues|)
    ensures over.Some? ==> IsPass(over.value, t, passive, outcomes) && over.value.result.Err?
  {
    PlanLength(t, passive);
    ops, names := ops0, [];
    var n := |t.exchanges|;
    for i := 0 to |t.queues|
      invariant Progress(ops, n + i, t, passive, outcomes)
      invariant Named(names, t, i)
    {
      var op := QueueOp(t.queues[i], passive);
      PlanQueue(t, passive, i);
      var o := outcomes(n + i);
      if o.ExpiredBefore? {
        StopsBefore(ops, n + i, t, passive, outcomes);
        return ops, names, Some(Pass(ops, n + i, Err(OperationError(o))));
      }
      var fault := QueueFault(t.queues[i], o);
      if fault.Some? {
        StopsAt(ops, n + i, t, passive, outcomes, op, fault.value);
        return ops, names, Some(Pass(ops + [op], n + i, Err(fault.value)));
      }
      ProgressExtends(ops, n + i, t, passive, outcomes, op);
      NamedExtends(names, t, i, passive, o);
      ops := ops + [op];
      names := names + [o.name];
    }
    over := None;
  }

  /** The binding loop. */
  method ApplyBindings(ops0: seq<Op>, t: Topology, passive: bool, outcomes: nat -> Outcome)
    returns (ops: seq<Op>, over: Option<Pass>)
    requires Progress(ops0, |t.exchanges| + |t.queues|, t, passive, outcomes)
    ensures over.None? ==> Progress(ops, |Plan(t, passive)|, t, passive, outcomes)
    ensures over.Some? ==> IsPass(over.value, t, passive, outcomes) && over.value.result.Err?
  {
    PlanLength(t, passive);
    ops := ops0;
    var n := |t.exchanges| + |t.queues|;
    for i := 0 to |t.bindings|
      invariant Progress(ops, n + i, t, passive, outcomes)
    {
      var op := BindOp(t.bindings[i]);
      PlanBind(t, passive, i);
      var o := outcomes(n + i);
      if o.ExpiredBefore? {
        StopsBefore(ops, n + i, t, passive, outcomes);
        return ops, Some(Pass(ops, n + i, Err(OperationError(o))));
      }
      if !o.Succeeded? {
        StopsAt(ops, n + i, t, passive, outcomes, op, OperationError(o));
        return ops, Some(Pass(ops + [op], n + i, Err(OperationError(o))));
      }
      ProgressExtends(ops, n + i, t, passive, outcomes, op);
      ops := ops + [op];
    }
    over := None;
  }

  /** applyTopologyChannel: the first request that is not accepted ends the pass; success returns the input names. */
  method ApplyChannel(t: Topology, passive: bool, outcomes: nat -> Outcome) returns (r: Pass)
    ensures IsPass(r, t, passive, outcomes)
    ensures r.result.Ok? && (forall i | 0 <= i < |t.queues| :: t.queues[i].name != []) ==>
      r.result.value == QueueNames(t)
  {
    var exchanged, over := ApplyExchanges(t, passive, outcomes);
    if over.Some? {
      return over.value;
    }
    var queued, names, over2 := ApplyQueues(exchanged, t, passive, outcomes);
    if over2.Some? {
      return over2.value;
    }
    var ops, over3 := ApplyBindings(queued, t, passive, outcomes);
    if over3.Some? {
      return over3.value;
    }
    assert Plan(t, passive)[..|Plan(t, passive)|] == Plan(t, passive);
    r := Pass(ops, |Plan(t, passive)|, Ok(names));
  }

  /** In every pass a bind is issued only after both its ends were declared and accepted. */
  lemma BindAfterAcceptedEnds(r: Pass, t: Topology, p: Policy, outcomes: nat -> Outcome, i: nat)
    requires ValidTopology(t, p) && IsPass(r, t, p.mode.Passive?, outcomes) && i < |r.ops| && r.ops[i].BindOp?
    ensures exists j: nat, k: nat | j < k < i ::
      && r.ops[j].ExchangeOp? && r.ops[j].exchange.name == r.ops[i].binding.exchange && Accepts(r.ops[j], outcomes(j))
      && r.ops[k].QueueOp? && r.ops[k].queue.name == r.ops[i].binding.queue && Accepts(r.ops[k], outcomes(k))
  {
    var plan := Plan(t, p.mode.Passive?);
    assert forall n: nat | n <= i :: r.ops[n] == plan[n];
    BindFollowsItsEnds(t, p, i);
    var j: nat, k: nat :| j < k < i && plan[j].ExchangeOp? && plan[k].QueueOp?
      && plan[j].exchange.name == plan[i].binding.exchange && plan[k].queue.name == plan[i].binding.queue;
    assert Accepts(plan[j], outcomes(j)) && Accepts(plan[k], outcomes(k));
    assert r.ops[j] == plan[j] && r.ops[k] == plan[k];
  }

  // ---------------------------------------------------------------- the retry loop

  datatype Recovery = Recovery(maxAttempts: nat, initialDelay: nat, maxDelay: nat, endpoints: nat)

  predicate ValidRecovery(c: Recovery) {
    1 <= c.maxAttempts <= 32 && 0 < c.initialDelay <= c.maxDelay && c.endpoints >= 1
  }

  /** What the world does around one attempt. */
  datatype Attempt = Attempt(
    cancelled: bool, usable: bool, outcomes: nat -> Outcome, closed: bool, cancelledAfter: bool, cancelledWaiting: bool)

  /** The attempt starts, reaches the broker, gets the whole plan accepted and closes cleanly. */
  ghost predicate Completes(w: Attempt, t: Topology, p: Policy) {
    var plan := Plan(t, p.mode.Passive?);
    !w.cancelled && w.usable && w.closed && forall i: nat | i < |plan| :: Accepts(plan[i], w.outcomes(i))
  }

  /** Record of one attempt: the endpoint it used and the requests it issued. */
  datatype Trace = Trace(endpoint: nat, ops: seq<Op>)

  function Pow2(k: nat): nat {
    if k == 0 then 1 else 2 * Pow2(k - 1)
  }

  /** The k-th wait. */
  function Delay(c: Recovery, k: nat): nat {
    Min(c.initialDelay * Pow2(k), c.maxDelay)
  }

  /** Doubling with a cap is the capped power of two. */
  lemma DelayDoubles(c: Recovery, k: nat)
    requires ValidRecovery(c)
    ensures Delay(c, k + 1) == Min(Delay(c, k) * 2, c.maxDelay)
  {
    assert c.initialDelay * Pow2(k + 1) == 2 * (c.initialDelay * Pow2(k));
  }

  /** What holds of the attempts made so far when another one is still allowed. */
  ghost predicate Tried(traces: seq<Trace>, delays: seq<nat>, c: Recovery, t: Topology, p: Policy) {
    && |traces| < c.maxAttempts && |delays| == |traces| && 0 < c.endpoints
    && (forall k: nat | k < |traces| ::
          traces[k].endpoint == k % c.endpoints && traces[k].ops <= Plan(t, p.mode.Passive?))
    && (forall k: nat | k < |delays| :: delays[k] == Delay(c, k))
    && (!p.mode.Passive? ==> forall k: nat | k < |traces| :: traces[k].ops == [])
  }

  /** The record a finished call leaves. */
  ghost predicate Ended(traces: seq<Trace>, delays: seq<nat>, c: Recovery, t: Topology, p: Policy) {
    && |traces| <= c.maxAttempts && |delays| <= |traces| && 0 < c.endpoints
    && (forall k: nat | k < |traces| ::
          traces[k].endpoint == k % c.endpoints && traces[k].ops <= Plan(t, p.mode.Passive?))
    && (forall k: nat | k < |delays| :: delays[k] == Delay(c, k))
    && (!p.mode.Passive? ==> forall k: nat | k + 1 < |traces| :: traces[k].ops == [])
  }

  /** Request `n` is the first that the broker does not accept in this attempt. */
  ghost predicate Stops(w: Attempt, t: Topology, p: Policy, n: nat) {
    var plan := Plan(t, p.mode.Passive?);
    n < |plan| && !Accepts(plan[n], w.outcomes(n)) && forall i: nat | i < n :: Accepts(plan[i], w.outcomes(i))
  }

  /** Only an attempt that decided nothing may be followed by another one, and in declare mode only an unusable one. */
  ghost predicate MayRetry(w: Attempt, t: Topology, p: Policy) {
    && !w.cancelled && !w.cancelledAfter && !w.cancelledWaiting
    && (w.usable ==> p.mode.Passive? && w.closed && exists n: nat :: Stops(w, t, p, n) && Transport(w.outcomes(n)))
  }

  /** Why an attempt, the last one allowed or not, ends the call with `e`. */
  ghost predicate EndsCall(w: Attempt, last: bool, t: Topology, p: Policy, e: ApplyError) {
    if !w.usable then e.Unavailable? && (w.cancelledAfter || last || w.cancelledWaiting)
    else
      || (e.Unavailable? && !w.closed && forall i: nat | i < |Plan(t, p.mode.Passive?)| ::
            Accepts(Plan(t, p.mode.Passive?)[i], w.outcomes(i)))
      || exists n: nat :: Stops(w, t, p, n) &&
           if !p.mode.Passive? || !Transport(w.outcomes(n)) then
             FaultFits(Plan(t, p.mode.Passive?)[n], w.outcomes(n), e)
           else if w.cancelledAfter then e.Unavailable?
           else if !w.closed || last then e.Retryable?
           else w.cancelledWaiting && e.Unavailable?
  }

  /** A failed call ran out of attempts, was cancelled, or met something that another attempt cannot mend. */
  ghost predicate Justified(e: ApplyError, n: nat, c: Recovery, t: Topology, p: Policy, world: nat -> Attempt) {
    || (n < c.maxAttempts && world(n).cancelled && e.Unavailable?)
    || (0 < n && !world(n - 1).cancelled && EndsCall(world(n - 1), n == c.maxAttempts, t, p, e))
  }

  lemma PassStops(pass: Pass, w: Attempt, t: Topology, p: Policy)
    requires IsPass(pass, t, p.mode.Passive?, w.outcomes) && pass.result.Err?
    ensures Stops(w, t, p, pass.succeeded)
    ensures pass.result.error.Retryable? <==> Transport(w.outcomes(pass.succeeded))
    ensures FaultFits(Plan(t, p.mode.Passive?)[pass.succeeded], w.outcomes(pass.succeeded), pass.result.error)
  {
  }

  /** One more attempt ends the call or allows another one after a wait. */
  lemma Recorded(traces: seq<Trace>, delays: seq<nat>, last: Trace, c: Recovery, t: Topology, p: Policy)
    requires Tried(traces, delays, c, t, p)
    requires last.endpoint == |traces| % c.endpoints && last.ops <= Plan(t, p.mode.Passive?)
    ensures Ended(traces + [last], delays, c, t, p)
    ensures |traces| + 1 < c.maxAttempts && (p.mode.Passive? || last.ops == []) ==>
      Tried(traces + [last], delays + [Delay(c, |traces|)], c, t, p)
  {
  }

  /**
    The retry loop of applyTopologyWith, whatever the broker, the network and the context do: at most maxAttempts
    attempts over the endpoints in turn, capped doubling delays, in declare mode requests in the last attempt only, and
    success exactly when the last attempt completed the whole plan and closed cleanly.
   */
  method RetryLoop(c: Recovery, t: Topology, p: Policy, world: nat -> Attempt)
    returns (r: Result<seq<Bytes>, ApplyError>, traces: seq<Trace>, delays: seq<nat>)
    requires ValidRecovery(c) && ValidTopology(t, p)
    ensures Ended(traces, delays, c, t, p)
    ensures r.Ok? ==> traces != [] && traces[|traces| - 1].ops == Plan(t, p.mode.Passive?) && r.value == QueueNames(t)
    ensures r.Ok? <==> traces != [] && Completes(world(|traces| - 1), t, p)
    ensures traces == [] <==> world(0).cancelled
    ensures r.Err? ==> Justified(r.error, |traces|, c, t, p, world)
    ensures forall k: nat | k + 1 < |traces| :: MayRetry(world(k), t, p)
  {
    var passive := p.mode.Passive?;
    var delay := c.initialDelay;
    var attempt := 0;
    traces, delays := [], [];
    while true
      invariant attempt == |traces| && delay == Delay(c, attempt)
      invariant Tried(traces, delays, c, t, p)
      invariant attempt > 0 ==> !Completes(world(attempt - 1), t, p) && !world(0).cancelled
      invariant forall k: nat | k < attempt :: MayRetry(world(k), t, p)
      decreases c.maxAttempts - attempt
    {
      var w := world(attempt);
      if w.cancelled {
        return Err(Unavailable), traces, delays;
      }
      if w.usable {
        var pass := ApplyChannel(t, passive, w.outcomes);
        Recorded(traces, delays, Trace(attempt % c.endpoints, pass.ops), c, t, p);
        traces := traces + [Trace(attempt % c.endpoints, pass.ops)];
        if pass.result.Ok? {
          if !w.closed {
            return Err(Unavailable), traces, delays;
          }
          AllNamed(t, p);
          return Ok(pass.result.value), traces, delays;
        }
        PassStops(pass, w, t, p);
        if !passive || !pass.result.error.Retryable? {
          return Err(pass.result.error), traces, delays;
        }
        if w.cancelledAfter {
          return Err(Unavailable), traces, delays;
        }
        if !w.closed || attempt + 1 == c.maxAttempts {
          return Err(pass.result.error), traces, delays;
        }
      } else {
        Recorded(traces, delays, Trace(attempt % c.endpoints, []), c, t, p);
        traces := traces + [Trace(attempt % c.endpoints, [])];
      }
      if w.cancelledAfter || attempt + 1 == c.maxAttempts || w.cancelledWaiting {
        return Err(Unavailable), traces, delays;
      }
      DelayDoubles(c, attempt);
      delays := delays + [delay];
      delay := Min(delay * 2, c.maxDelay);
      attempt := attempt + 1;
    }
  }

  /** applyTopologyWith: inputs that are not admitted reach no broker; all others go through the retry loop. */
  method ApplyTopology(c: Recovery, t: Topology, p: Policy, world: nat -> Attempt)
    returns (r: Result<seq<Bytes>, ApplyError>, traces: seq<Trace>, delays: seq<nat>)
    ensures !ValidRecovery(c) || !ValidTopology(t, p) ==> r.Err? && traces == [] && delays == []
    ensures ValidRecovery(c) && ValidTopology(t, p) ==>
      && Ended(traces, delays, c, t, p)
      && (r.Ok? <==> traces != [] && Completes(world(|traces| - 1), t, p))
      && (r.Err? ==> Justified(r.error, |traces|, c, t, p, world))
      && (forall k: nat | k + 1 < |traces| :: MayRetry(world(k), t, p))
    ensures r.Ok? ==> traces[|traces| - 1].ops == Plan(t, p.mode.Passive?) && r.value == QueueNames(t)
  {
    if !ValidRecovery(c) {
      return Err(InvalidConnection), [], [];
    }
    var e := Validate(t, p);
    if e.Some? {
      return Err(Refused(e.value)), [], [];
    }
    r, traces, delays := RetryLoop(c, t, p, world);
  }

  lemma AllNamed(t: Topology, p: Policy)
    requires ValidTopology(t, p)
    ensures forall i | 0 <= i < |t.queues| :: t.queues[i].name != []
  {
    forall i | 0 <= i < |t.queues| ensures t.queues[i].name != [] {
      assert DeclarableQueue(t.queues[i]);
    }
  }

  /** All requests of a call, attempt after attempt. */
  function Issued(traces: seq<Trace>): seq<Op> {
    if traces == [] then [] else Issued(traces[..|traces| - 1]) + traces[|traces| - 1].ops
  }

  lemma {:induction false} SilentAttempts(traces: seq<Trace>)
    requires forall k: nat | k < |traces| :: traces[k].ops == []
    ensures Issued(traces) == []
  {
    if traces != [] {
      SilentAttempts(traces[..|traces| - 1]);
    }
  }

  /** Declare mode never replays: over all attempts and endpoints the requests are one prefix of the plan. */
  lemma DeclaresAtMostOnce(traces: seq<Trace>, delays: seq<nat>, c: Recovery, t: Topology, p: Policy)
    requires Ended(traces, delays, c, t, p) && p.mode.Declare?
    ensures Issued(traces) <= Plan(t, false)
  {
    if traces != [] {
      SilentAttempts(traces[..|traces| - 1]);
      assert Issued(traces) == traces[|traces| - 1].ops;
    }
  }

  /** Passive mode never mutates, over all attempts. */
  lemma {:induction false} PassiveNeverMutates(traces: seq<Trace>, t: Topology, p: Policy)
    requires ValidTopology(t, p) && p.mode.Passive?
    requires forall k: nat | k < |traces| :: traces[k].ops <= Plan(t, true)
    ensures forall i | 0 <= i < |Issued(traces)| :: !Mutates(Issued(traces)[i])
  {
    if traces != [] {
      PassiveNeverMutates(traces[..|traces| - 1], t, p);
      PassivePlanIsReadOnly(t, p);
    }
  }
}
