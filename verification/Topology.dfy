/** topology.go and queueArguments in topology_apply.go: queue policies, their wire arguments, topology graphs. */
module QueuePolicy {
  import opened Basics
  import opened Text
  import opened Messages

  datatype QueueType = Classic | Quorum | OtherType

  datatype Overflow = NoOverflow | DropHead | RejectPublish | RejectPublishDeadLetter | OtherOverflow

  datatype Strategy = NoStrategy | AtMostOnce | AtLeastOnce | OtherStrategy

  datatype DeadLetter = DeadLetter(exchange: Bytes, routingKey: Option<Bytes>, strategy: Strategy)

  datatype RetryType = Disabled | All | Failed | Returned | OtherRetry

  datatype DelayedRetry = DelayedRetry(kind: RetryType, minimum: Int64, maximum: Option<Int64>)

  type UInt8 = n: int | 0 <= n <= 255

  datatype Queue = Queue(
    name: Bytes, kind: QueueType, durable: bool, autoDelete: bool, exclusive: bool, singleActive: bool,
    deliveryLimit: Option<UInt32>, maxPriority: UInt8, messageTtl: Option<Int64>, expires: Option<Int64>,
    consumerTimeout: Option<Int64>, disconnectedTimeout: Option<Int64>, retry: Option<DelayedRetry>,
    maxLength: Option<UInt64>, maxLengthBytes: Option<UInt64>, overflow: Overflow, deadLetter: Option<DeadLetter>)

  predicate ValidDuration(d: Option<Int64>, allowZero: bool) {
    d.Some? ==> (d.value > 0 || (allowZero && d.value == 0)) && d.value % Millisecond == 0
  }

  predicate ValidRetry(r: DelayedRetry) {
    match r.kind
    case Disabled => r.minimum == 0 && r.maximum.None?
    case OtherRetry => false
    case _ =>
      && r.minimum > 0 && r.minimum % Millisecond == 0
      && (r.maximum.Some? ==> r.maximum.value >= r.minimum && r.maximum.value % Millisecond == 0)
  }

  predicate ValidLength(n: Option<UInt64>) {
    n.Some? ==> n.value <= MaxInt64
  }

  predicate ValidKind(q: Queue) {
    match q.kind
    case Classic =>
      && q.deliveryLimit.None? && !(q.exclusive && q.durable) && (q.durable || q.exclusive)
      && q.consumerTimeout.None? && q.disconnectedTimeout.None? && q.retry.None?
      && (q.deadLetter.Some? ==> q.deadLetter.value.strategy.NoStrategy?)
    case Quorum =>
      q.durable && !q.exclusive && !q.autoDelete && q.maxPriority == 0 && !q.overflow.RejectPublishDeadLetter?
    case OtherType => false
  }

  predicate ValidDeadLetter(q: Queue) {
    && (q.overflow.RejectPublishDeadLetter? ==> q.deadLetter.Some?)
    && (q.deadLetter.Some? ==>
          var d := q.deadLetter.value;
          && |d.exchange| <= 255 && !ContainsControl(d.exchange)
          && (d.routingKey.Some? ==> |d.routingKey.value| <= 255 && !ContainsControl(d.routingKey.value))
          && !d.strategy.OtherStrategy?
          && (d.strategy.AtLeastOnce? ==> q.kind.Quorum? && q.overflow.RejectPublish?))
  }

  predicate ValidQueue(q: Queue) {
    && (if q.name == [] then q.kind.Classic? && q.exclusive else !InvalidIdentity(q.name, 255))
    && ValidKind(q)
    && ValidDuration(q.messageTtl, true) && ValidDuration(q.expires, false)
    && ValidDuration(q.consumerTimeout, true) && ValidDuration(q.disconnectedTimeout, true)
    && (q.retry.Some? ==> ValidRetry(q.retry.value))
    && ValidLength(q.maxLength) && ValidLength(q.maxLengthBytes)
    && !q.overflow.OtherOverflow? && ValidDeadLetter(q)
  }

  /** Policies only quorum queues have. */
  predicate QuorumOnly(q: Queue) {
    || q.deliveryLimit.Some? || q.consumerTimeout.Some? || q.disconnectedTimeout.Some? || q.retry.Some?
    || (q.deadLetter.Some? && !q.deadLetter.value.strategy.NoStrategy?)
  }

  /** Policies only classic queues have. */
  predicate ClassicOnly(q: Queue) {
    q.exclusive || q.autoDelete || q.maxPriority > 0 || q.overflow.RejectPublishDeadLetter?
  }

  /** The admitted combinations: a known type, durable unless exclusive, and no policy of the other type. */
  lemma QueueCapabilities(q: Queue)
    ensures ValidKind(q) <==>
      && (q.kind.Classic? || q.kind.Quorum?) && (q.durable <==> !q.exclusive)
      && (QuorumOnly(q) ==> q.kind.Quorum?) && (ClassicOnly(q) ==> q.kind.Classic?)
  {
    match q.kind { case Classic => case Quorum => case OtherType => }
  }

  // ---------------------------------------------------------------- declaration arguments

  /** One constructor per argument name. */
  datatype Argument =
    | XQueueType | XSingleActiveConsumer | XDeliveryLimit | XMaxPriority | XMessageTtl | XExpires
    | XConsumerTimeout | XConsumerDisconnectedTimeout | XDelayedRetryType | XDelayedRetryMin | XDelayedRetryMax
    | XMaxLength | XMaxLengthBytes | XOverflow | XDeadLetterExchange | XDeadLetterRoutingKey | XDeadLetterStrategy

  /** Argument values; enumerations travel as their own text. */
  datatype Value =
    | Yes
    | Number(n: Int64)
    | Name(text: Bytes)
    | TypeText(kind: QueueType)
    | OverflowText(overflow: Overflow)
    | StrategyText(strategy: Strategy)
    | RetryText(retry: RetryType)

  type Arguments = map<Argument, Value>

  /** time.Duration.Milliseconds truncates toward zero. */
  function Milliseconds(d: Int64): Int64 {
    if d >= 0 then d / Millisecond else 0 - (0 - d as int) / Millisecond
  }

  /** int64 of a uint64 wraps. */
  function SignedWrap(n: UInt64): Int64 {
    if n <= MaxInt64 then n else n - 0x1_0000_0000_0000_0000
  }

  function At(t: Arguments, a: Argument): Option<Value> {
    if a in t then Some(t[a]) else None
  }

  function Millis(d: Option<Int64>): Option<Value> {
    if d.Some? then Some(Number(Milliseconds(d.value))) else None
  }

  function Wrapped(n: Option<UInt64>): Option<Value> {
    if n.Some? then Some(Number(SignedWrap(n.value))) else None
  }

  predicate Retries(q: Queue) {
    q.retry.Some? && !q.retry.value.kind.Disabled?
  }

  /** What an argument says about a queue; None when it is omitted. */
  function Expected(q: Queue, a: Argument): Option<Value> {
    match a
    case XQueueType => Some(TypeText(q.kind))
    case XSingleActiveConsumer => if q.singleActive then Some(Yes) else None
    case XDeliveryLimit => if q.deliveryLimit.Some? then Some(Number(q.deliveryLimit.value)) else None
    case XMaxPriority => if q.maxPriority == 0 then None else Some(Number(q.maxPriority))
    case XMessageTtl => Millis(q.messageTtl)
    case XExpires => Millis(q.expires)
    case XConsumerTimeout => Millis(q.consumerTimeout)
    case XConsumerDisconnectedTimeout => Millis(q.disconnectedTimeout)
    case XDelayedRetryType => if q.retry.Some? then Some(RetryText(q.retry.value.kind)) else None
    case XDelayedRetryMin => if Retries(q) then Millis(Some(q.retry.value.minimum)) else None
    case XDelayedRetryMax => if Retries(q) then Millis(q.retry.value.maximum) else None
    case XMaxLength => Wrapped(q.maxLength)
    case XMaxLengthBytes => Wrapped(q.maxLengthBytes)
    case XOverflow => if q.overflow.NoOverflow? then None else Some(OverflowText(q.overflow))
    case XDeadLetterExchange => if q.deadLetter.Some? then Some(Name(q.deadLetter.value.exchange)) else None
    case XDeadLetterRoutingKey =>
      if q.deadLetter.Some? && q.deadLetter.value.routingKey.Some? then Some(Name(q.deadLetter.value.routingKey.value))
      else None
    case XDeadLetterStrategy =>
      if q.deadLetter.Some? && !q.deadLetter.value.strategy.NoStrategy? then
        Some(StrategyText(q.deadLetter.value.strategy))
      else None
  }

  ghost predicate Encodes(t: Arguments, q: Queue) {
    forall a {:trigger At(t, a)} :: At(t, a) == Expected(q, a)
  }

  /** Order in which the table is filled. */
  function Rank(a: Argument): nat {
    match a
    case XQueueType => 0
    case XSingleActiveConsumer => 1
    case XDeliveryLimit => 2
    case XMaxPriority => 3
    case XMessageTtl => 4
    case XExpires => 5
    case XConsumerTimeout => 6
    case XConsumerDisconnectedTimeout => 7
    case XDelayedRetryType => 8
    case XDelayedRetryMin => 9
    case XDelayedRetryMax => 10
    case XMaxLength => 11
    case XMaxLengthBytes => 12
    case XOverflow => 13
    case XDeadLetterExchange => 14
    case XDeadLetterRoutingKey => 15
    case XDeadLetterStrategy => 16
  }

  lemma RankInjective(a: Argument, b: Argument)
    requires Rank(a) == Rank(b)
    ensures a == b
  {
  }

  /** The arguments up to rank `n` are in place and no others. */
  ghost predicate Filled(t: Arguments, q: Queue, n: nat) {
    forall a {:trigger At(t, a)} :: At(t, a) == if Rank(a) < n then Expected(q, a) else None
  }

  /** Sets an argument when it is present. */
  function Put(t: Arguments, a: Argument, v: Option<Value>): Arguments {
    if v.Some? then t[a := v.value] else t
  }

  lemma PutFills(t: Arguments, q: Queue, a: Argument, v: Option<Value>)
    requires Filled(t, q, Rank(a)) && v == Expected(q, a)
    ensures Filled(Put(t, a, v), q, Rank(a) + 1)
  {
    forall b ensures At(Put(t, a, v), b) == if Rank(b) < Rank(a) + 1 then Expected(q, b) else None {
      assert At(t, b) == if Rank(b) < Rank(a) then Expected(q, b) else None;
      if Rank(b) == Rank(a) {
        RankInjective(a, b);
      }
    }
  }

  method PutNext(t: Arguments, q: Queue, a: Argument, v: Option<Value>) returns (t': Arguments)
    requires Filled(t, q, Rank(a)) && v == Expected(q, a)
    ensures Filled(t', q, Rank(a) + 1)
  {
    PutFills(t, q, a, v);
    t' := Put(t, a, v);
  }

  method FirstArguments(q: Queue) returns (t: Arguments)
    ensures Filled(t, q, 8)
  {
    t := PutNext(map[], q, XQueueType, Some(TypeText(q.kind)));
    t := PutNext(t, q, XSingleActiveConsumer, if q.singleActive then Some(Yes) else None);
    t := PutNext(t, q, XDeliveryLimit,
                 if q.deliveryLimit.Some? then Some(Number(q.deliveryLimit.value)) else None);
    t := PutNext(t, q, XMaxPriority, if q.maxPriority == 0 then None else Some(Number(q.maxPriority)));
    t := PutNext(t, q, XMessageTtl, Millis(q.messageTtl));
    t := PutNext(t, q, XExpires, Millis(q.expires));
    t := PutNext(t, q, XConsumerTimeout, Millis(q.consumerTimeout));
    t := PutNext(t, q, XConsumerDisconnectedTimeout, Millis(q.disconnectedTimeout));
  }

  method MoreArguments(t0: Arguments, q: Queue) returns (t: Arguments)
    requires Filled(t0, q, 8)
    ensures Filled(t, q, 14)
  {
    var enabled := q.retry.Some? && !q.retry.value.kind.Disabled?;
    t := PutNext(t0, q, XDelayedRetryType, if q.retry.Some? then Some(RetryText(q.retry.value.kind)) else None);
    t := PutNext(t, q, XDelayedRetryMin, if enabled then Millis(Some(q.retry.value.minimum)) else None);
    t := PutNext(t, q, XDelayedRetryMax, if enabled then Millis(q.retry.value.maximum) else None);
    t := PutNext(t, q, XMaxLength, Wrapped(q.maxLength));
    t := PutNext(t, q, XMaxLengthBytes, Wrapped(q.maxLengthBytes));
    t := PutNext(t, q, XOverflow, if q.overflow.NoOverflow? then None else Some(OverflowText(q.overflow)));
  }

  method DeadLetterArguments(t0: Arguments, q: Queue) returns (t: Arguments)
    requires Filled(t0, q, 14)
    ensures Filled(t, q, 17)
  {
    var d := q.deadLetter;
    t := PutNext(t0, q, XDeadLetterExchange, if d.Some? then Some(Name(d.value.exchange)) else None);
    t := PutNext(t, q, XDeadLetterRoutingKey,
                 if d.Some? && d.value.routingKey.Some? then Some(Name(d.value.routingKey.value)) else None);
    t := PutNext(t, q, XDeadLetterStrategy,
                 if d.Some? && !d.value.strategy.NoStrategy? then Some(StrategyText(d.value.strategy)) else None);
  }

  /** queueArguments: fills a table step by step, leaving out what the queue omits. */
  method QueueArguments(q: Queue) returns (t: Arguments)
    ensures Encodes(t, q)
  {
    var first := FirstArguments(q);
    var more := MoreArguments(first, q);
    t := DeadLetterArguments(more, q);
  }

  // ---------------------------------------------------------------- reading the arguments back

  function ReadNumber(v: Option<Value>): Option<Int64> {
    if v.Some? && v.value.Number? then Some(v.value.n) else None
  }

  function ReadName(v: Option<Value>): Option<Bytes> {
    if v.Some? && v.value.Name? then Some(v.value.text) else None
  }

  function Clamp(n: int): Int64 {
    if MinInt64 <= n <= MaxInt64 then n else 0
  }

  function ReadDuration(v: Option<Value>): Option<Int64> {
    if ReadNumber(v).Some? then Some(Clamp(ReadNumber(v).value * Millisecond)) else None
  }

  function ReadUnsigned(v: Option<Value>): Option<UInt64> {
    if ReadNumber(v).Some? && ReadNumber(v).value >= 0 then Some(ReadNumber(v).value) else None
  }

  function ReadUInt32(v: Option<Value>): Option<UInt32> {
    if ReadNumber(v).Some? && 0 <= ReadNumber(v).value <= 0xFFFF_FFFF then Some(ReadNumber(v).value) else None
  }

  function ReadUInt8(v: Option<Value>): UInt8 {
    if ReadNumber(v).Some? && 0 <= ReadNumber(v).value <= 255 then ReadNumber(v).value else 0
  }

  function ReadRetry(t: Arguments): Option<DelayedRetry> {
    if At(t, XDelayedRetryType).Some? && t[XDelayedRetryType].RetryText? then
      var minimum := ReadDuration(At(t, XDelayedRetryMin));
      Some(DelayedRetry(t[XDelayedRetryType].retry, if minimum.Some? then minimum.value else 0,
                        ReadDuration(At(t, XDelayedRetryMax))))
    else None
  }

  function ReadDeadLetter(t: Arguments): Option<DeadLetter> {
    if ReadName(At(t, XDeadLetterExchange)).Some? then
      Some(DeadLetter(ReadName(At(t, XDeadLetterExchange)).value, ReadName(At(t, XDeadLetterRoutingKey)),
                      if XDeadLetterStrategy in t && t[XDeadLetterStrategy].StrategyText? then
                        t[XDeadLetterStrategy].strategy else NoStrategy))
    else None
  }

  /** The queue a declaration describes. */
  function ReadQueue(name: Bytes, durable: bool, autoDelete: bool, exclusive: bool, t: Arguments): Queue {
    Queue(name, if XQueueType in t && t[XQueueType].TypeText? then t[XQueueType].kind else OtherType,
          durable, autoDelete, exclusive, XSingleActiveConsumer in t,
          ReadUInt32(At(t, XDeliveryLimit)), ReadUInt8(At(t, XMaxPriority)),
          ReadDuration(At(t, XMessageTtl)), ReadDuration(At(t, XExpires)), ReadDuration(At(t, XConsumerTimeout)),
          ReadDuration(At(t, XConsumerDisconnectedTimeout)), ReadRetry(t),
          ReadUnsigned(At(t, XMaxLength)), ReadUnsigned(At(t, XMaxLengthBytes)),
          if XOverflow in t && t[XOverflow].OverflowText? then t[XOverflow].overflow else NoOverflow,
          ReadDeadLetter(t))
  }

  lemma DurationRoundTrip(d: Option<Int64>)
    requires d.Some? ==> d.value >= 0
    ensures ReadDuration(Millis(d)) == d <==> (d.Some? ==> d.value % Millisecond == 0)
  {
    if d.Some? {
      assert d.value == d.value / Millisecond * Millisecond + d.value % Millisecond;
    }
  }

  lemma LengthRoundTrip(n: Option<UInt64>)
    ensures ReadUnsigned(Wrapped(n)) == n <==> ValidLength(n)
  {
  }

  lemma RetryRoundTrip(q: Queue, t: Arguments)
    requires Encodes(t, q) && (q.retry.Some? ==> ValidRetry(q.retry.value))
    ensures ReadRetry(t) == q.retry
  {
    assert At(t, XDelayedRetryType) == Expected(q, XDelayedRetryType);
    assert At(t, XDelayedRetryMin) == Expected(q, XDelayedRetryMin);
    assert At(t, XDelayedRetryMax) == Expected(q, XDelayedRetryMax);
    if q.retry.Some? {
      DurationRoundTrip(Some(q.retry.value.minimum));
      DurationRoundTrip(q.retry.value.maximum);
    }
  }

  lemma TimesRoundTrip(q: Queue, t: Arguments)
    requires ValidQueue(q) && Encodes(t, q)
    ensures ReadDuration(At(t, XMessageTtl)) == q.messageTtl && ReadDuration(At(t, XExpires)) == q.expires
    ensures ReadDuration(At(t, XConsumerTimeout)) == q.consumerTimeout
    ensures ReadDuration(At(t, XConsumerDisconnectedTimeout)) == q.disconnectedTimeout
  {
    DurationRoundTrip(q.messageTtl);
    DurationRoundTrip(q.expires);
    DurationRoundTrip(q.consumerTimeout);
    DurationRoundTrip(q.disconnectedTimeout);
  }

  lemma LengthsRoundTrip(q: Queue, t: Arguments)
    requires ValidQueue(q) && Encodes(t, q)
    ensures ReadUInt32(At(t, XDeliveryLimit)) == q.deliveryLimit && ReadUInt8(At(t, XMaxPriority)) == q.maxPriority
    ensures ReadUnsigned(At(t, XMaxLength)) == q.maxLength
    ensures ReadUnsigned(At(t, XMaxLengthBytes)) == q.maxLengthBytes
  {
    LengthRoundTrip(q.maxLength);
    LengthRoundTrip(q.maxLengthBytes);
  }

  lemma DeadLetterRoundTrip(q: Queue, t: Arguments)
    requires Encodes(t, q)
    ensures ReadDeadLetter(t) == q.deadLetter
  {
    assert At(t, XDeadLetterExchange) == Expected(q, XDeadLetterExchange);
    assert At(t, XDeadLetterRoutingKey) == Expected(q, XDeadLetterRoutingKey);
    assert At(t, XDeadLetterStrategy) == Expected(q, XDeadLetterStrategy);
  }

  /** A valid queue is determined by its name, its flags and its arguments. */
  lemma DeclarationIsLossless(q: Queue, t: Arguments)
    requires ValidQueue(q) && Encodes(t, q)
    ensures ReadQueue(q.name, q.durable, q.autoDelete, q.exclusive, t) == q
  {
    TimesRoundTrip(q, t);
    RetryRoundTrip(q, t);
    LengthsRoundTrip(q, t);
    DeadLetterRoundTrip(q, t);
    assert At(t, XQueueType) == Expected(q, XQueueType);
    assert At(t, XSingleActiveConsumer) == Expected(q, XSingleActiveConsumer);
    assert At(t, XOverflow) == Expected(q, XOverflow);
  }

  /** Declaring is injective on valid queues. */
  method DeclareTwice(a: Queue, b: Queue) returns (same: bool)
    requires ValidQueue(a) && ValidQueue(b)
    ensures same <==> a == b
  {
    var ta := QueueArguments(a);
    var tb := QueueArguments(b);
    DeclarationIsLossless(a, ta);
    DeclarationIsLossless(b, tb);
    if a == b {
      SameArguments(ta, tb, a);
    }
    same := a.name == b.name && a.durable == b.durable && a.autoDelete == b.autoDelete &&
            a.exclusive == b.exclusive && ta == tb;
  }

  lemma SameArguments(s: Arguments, t: Arguments, q: Queue)
    requires Encodes(s, q) && Encodes(t, q)
    ensures s == t
  {
    forall a ensures a in s <==> a in t {
      assert At(s, a) == At(t, a);
    }
    forall a | a in s ensures s[a] == t[a] {
      assert At(s, a) == At(t, a);
    }
  }
}
