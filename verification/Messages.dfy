/** message.go and amqpPublishing in producer.go: publications, their validation and their wire form. */
module Messages {
  import opened Basics
  import opened Decimal
  import opened Text

  const MinInt64: int := -0x8000_0000_0000_0000
  const MaxInt64: int := 0x7FFF_FFFF_FFFF_FFFF
  type Int64 = n: int | MinInt64 <= n <= MaxInt64
  type UInt32 = n: int | 0 <= n <= 0xFFFF_FFFF
  type UInt64 = n: int | 0 <= n <= 0xFFFF_FFFF_FFFF_FFFF

  const Millisecond: int := 1_000_000
  const Second: int := 1_000_000_000

  datatype Limits = Limits(maxPayload: int, maxEntries: int, maxHeaderBytes: int, maxName: int, maxRoutingKey: int)

  predicate ValidLimits(l: Limits) {
    && 0 < l.maxPayload <= 16 * 1024 * 1024
    && 0 < l.maxEntries <= 128
    && 0 < l.maxHeaderBytes <= 64 * 1024
    && 0 < l.maxName <= 255
    && 0 < l.maxRoutingKey <= 255
  }

  datatype Kind = KString | KBool | KInt64 | KBytes | KUnknown

  /** One struct with a field per kind; a nil byte slice is None. */
  datatype Header = Header(key: Bytes, kind: Kind, text: Bytes, flag: bool, number: Int64, blob: Option<Bytes>)

  /** AMQP field-table values, as far as the client tells them apart. */
  datatype Field =
    | Text(text: Bytes)
    | Flag(flag: bool)
    | Blob(blob: Bytes)
    | Signed(signed: Int64)      // int8, int16, int32, int64
    | Unsigned(small: UInt32)    // uint8, uint16, uint32
    | Unsigned64(wide: UInt64)
    | Moment(at: Timestamp)
    | List(items: seq<Field>)
    | Table(entries: map<Bytes, Field>)
    | OtherField

  datatype Timestamp = ZeroTime | At(unixNanos: int)

  datatype Mode = Unset | Transient | Persistent | OtherMode(octet: int)

  datatype ExchangeKind = Unspecified | Direct | Topic | Fanout | HeadersKind | OtherKind

  datatype Message = Message(
    body: Bytes, messageId: Bytes, correlationId: Bytes, replyTo: Bytes, contentType: Bytes, contentEncoding: Bytes,
    kind: Bytes, appId: Bytes, timestamp: Timestamp, expiration: Option<Int64>, priority: Option<nat>,
    headers: seq<Header>)

  datatype Publication = Publication(
    exchange: Bytes, exchangeKind: ExchangeKind, routingKey: Bytes, mandatory: bool, mode: Mode, message: Message)

  datatype PublicationError =
    | InvalidBounds | InvalidPublication | MessageIdRequired | PayloadTooLarge | InvalidPriority | InvalidExpiration
    | HeadersTooLarge | InvalidHeader | ReservedHeader | DuplicateHeader

  // ---------------------------------------------------------------- reserved keys

  const TokenKey: Bytes := Ascii("x-rabbitmqqueue-publish-token")
  const AcquiredCountKey: Bytes := Ascii("x-acquired-count")
  const DeliveryCountKey: Bytes := Ascii("x-delivery-count")
  const DeathKey: Bytes := Ascii("x-death")
  const FirstDeathQueueKey: Bytes := Ascii("x-first-death-queue")
  const FirstDeathReasonKey: Bytes := Ascii("x-first-death-reason")
  const FirstDeathExchangeKey: Bytes := Ascii("x-first-death-exchange")
  const LastDeathQueueKey: Bytes := Ascii("x-last-death-queue")
  const LastDeathReasonKey: Bytes := Ascii("x-last-death-reason")
  const LastDeathExchangeKey: Bytes := Ascii("x-last-death-exchange")

  /** Reserved keys a broker writes. */
  predicate IsBrokerKey(key: Bytes) {
    || key == AcquiredCountKey || key == DeliveryCountKey || key == DeathKey
    || key == FirstDeathQueueKey || key == FirstDeathReasonKey || key == FirstDeathExchangeKey
    || key == LastDeathQueueKey || key == LastDeathReasonKey || key == LastDeathExchangeKey
  }

  predicate IsReserved(key: Bytes) {
    key == TokenKey || IsBrokerKey(key)
  }

  lemma TokenKeyIsNoBrokerKey()
    ensures !IsBrokerKey(TokenKey)
  {
    assert |TokenKey| == 29;
  }

  // ---------------------------------------------------------------- headers

  /** Exactly the field its kind selects is in use. */
  predicate WellShaped(h: Header) {
    match h.kind
    case KString => !h.flag && h.number == 0 && h.blob.None?
    case KBool => h.text == [] && h.number == 0 && h.blob.None?
    case KInt64 => h.text == [] && !h.flag && h.blob.None?
    case KBytes => h.text == [] && !h.flag && h.number == 0
    case KUnknown => false
  }

  function BlobOf(h: Header): Bytes {
    if h.blob.Some? then h.blob.value else []
  }

  /** Bytes a header counts against the budget. */
  function HeaderBytes(h: Header): nat {
    |h.key| +
    match h.kind
    case KString => |h.text|
    case KBool => 1
    case KInt64 => 8
    case KBytes => |BlobOf(h)|
    case KUnknown => 0
  }

  function HeadersBytes(hs: seq<Header>): nat {
    if hs == [] then 0 else HeadersBytes(hs[..|hs| - 1]) + HeaderBytes(hs[|hs| - 1])
  }

  predicate ValidHeader(h: Header, l: Limits) {
    !InvalidIdentity(h.key, l.maxName) && !IsReserved(h.key) && WellShaped(h)
  }

  predicate DistinctKeys(hs: seq<Header>) {
    forall i, j | 0 <= i < j < |hs| :: hs[i].key != hs[j].key
  }

  /** The header rules as one statement about the whole list. */
  predicate ValidHeaders(hs: seq<Header>, l: Limits) {
    && |hs| <= l.maxEntries && DistinctKeys(hs) && HeadersBytes(hs) <= l.maxHeaderBytes
    && forall i | 0 <= i < |hs| :: ValidHeader(hs[i], l)
  }

  /** What the loop reports about header `k` when all earlier ones passed. */
  function HeaderFault(hs: seq<Header>, k: nat, l: Limits): Option<PublicationError>
    requires k < |hs|
  {
    if InvalidIdentity(hs[k].key, l.maxName) then Some(InvalidHeader)
    else if IsReserved(hs[k].key) then Some(ReservedHeader)
    else if exists j | 0 <= j < k :: hs[j].key == hs[k].key then Some(DuplicateHeader)
    else if !WellShaped(hs[k]) then Some(InvalidHeader)
    else if HeadersBytes(hs[..k + 1]) > l.maxHeaderBytes then Some(HeadersTooLarge)
    else None
  }

  lemma {:induction false} PrefixBytes(hs: seq<Header>, k: nat)
    requires k <= |hs|
    ensures HeadersBytes(hs[..k]) <= HeadersBytes(hs)
  {
    if k < |hs| {
      assert hs[..|hs| - 1][..k] == hs[..k];
      PrefixBytes(hs[..|hs| - 1], k);
    } else {
      assert hs[..k] == hs;
    }
  }

  lemma FaultMeansInvalid(hs: seq<Header>, k: nat, l: Limits)
    requires k < |hs| && HeaderFault(hs, k, l).Some?
    ensures !ValidHeaders(hs, l)
  {
    PrefixBytes(hs, k + 1);
    assert !ValidHeader(hs[k], l) || !DistinctKeys(hs) || HeadersBytes(hs) > l.maxHeaderBytes;
  }

  lemma NoFaultHere(hs: seq<Header>, k: nat, l: Limits)
    requires k < |hs| && HeaderFault(hs, k, l).None?
    ensures ValidHeader(hs[k], l) && forall j | 0 <= j < k :: hs[j].key != hs[k].key
  {
  }

  lemma NoFaultMeansValid(hs: seq<Header>, l: Limits)
    requires |hs| <= l.maxEntries && HeadersBytes(hs) <= l.maxHeaderBytes
    requires forall k: nat | k < |hs| :: HeaderFault(hs, k, l).None?
    ensures ValidHeaders(hs, l)
  {
    forall k: nat | k < |hs| ensures ValidHeader(hs[k], l) && forall j | 0 <= j < k :: hs[j].key != hs[k].key {
      NoFaultHere(hs, k, l);
    }
  }

  /** The header loop accepts exactly the lists that are valid as a whole and reports the first fault. */
  method CheckHeaders(hs: seq<Header>, l: Limits) returns (e: Option<PublicationError>)
    requires ValidLimits(l)
    ensures e.None? <==> ValidHeaders(hs, l)
    ensures |hs| > l.maxEntries ==> e == Some(HeadersTooLarge)
    ensures |hs| <= l.maxEntries && e.Some? ==>
      exists k: nat | k < |hs| :: HeaderFault(hs, k, l) == e && forall j: nat | j < k :: HeaderFault(hs, j, l).None?
  {
    if |hs| > l.maxEntries {
      return Some(HeadersTooLarge);
    }
    var seen: set<Bytes> := {};
    var used: nat := 0;
    for k := 0 to |hs|
      invariant used == HeadersBytes(hs[..k]) <= l.maxHeaderBytes
      invariant forall key :: key in seen <==> exists j | 0 <= j < k :: hs[j].key == key
      invariant forall j: nat | j < k :: HeaderFault(hs, j, l).None?
    {
      var h := hs[k];
      assert hs[..k + 1][..k] == hs[..k];
      e := None;
      if InvalidIdentity(h.key, l.maxName) {
        e := Some(InvalidHeader);
      } else if IsReserved(h.key) {
        e := Some(ReservedHeader);
      } else if h.key in seen {
        e := Some(DuplicateHeader);
      } else if !WellShaped(h) {
        e := Some(InvalidHeader);
      } else if used + HeaderBytes(h) > l.maxHeaderBytes {
        e := Some(HeadersTooLarge);
      }
      if e.Some? {
        assert HeaderFault(hs, k, l) == e;
        FaultMeansInvalid(hs, k, l);
        return;
      }
      seen := seen + {h.key};
      used := used + HeaderBytes(h);
    }
    assert hs[..|hs|] == hs;
    NoFaultMeansValid(hs, l);
    e := None;
  }

  // ---------------------------------------------------------------- publications

  predicate ValidExchange(exchange: Bytes, kind: ExchangeKind, l: Limits) {
    if exchange == [] then kind.Direct? else !InvalidIdentity(exchange, l.maxName)
  }

  predicate ValidRouting(kind: ExchangeKind, key: Bytes, l: Limits) {
    && |key| <= l.maxRoutingKey && !ContainsControl(key)
    && match kind
       case Unspecified => key != []
       case Direct => true
       case Topic => true
       case Fanout => key == []
       case HeadersKind => key == []
       case OtherKind => false
  }

  predicate ValidProperty(s: Bytes, l: Limits) {
    |s| <= l.maxName && !ContainsControl(s)
  }

  predicate ValidTimestamp(t: Timestamp) {
    t.At? ==> t.unixNanos >= 0 && t.unixNanos % Second == 0
  }

  predicate ValidExpiration(e: Option<Int64>) {
    e.Some? ==> e.value >= 0 && e.value % Millisecond == 0
  }

  predicate ValidPublication(p: Publication, l: Limits) {
    var m := p.message;
    && ValidLimits(l)
    && ValidExchange(p.exchange, p.exchangeKind, l) && ValidRouting(p.exchangeKind, p.routingKey, l)
    && (p.mode.Transient? || p.mode.Persistent?)
    && m.messageId != [] && |m.body| <= l.maxPayload
    && ValidProperty(m.messageId, l) && ValidProperty(m.correlationId, l) && ValidProperty(m.replyTo, l)
    && ValidProperty(m.contentType, l) && ValidProperty(m.contentEncoding, l) && ValidProperty(m.kind, l)
    && ValidProperty(m.appId, l)
    && (m.priority.Some? ==> m.priority.value <= 255)
    && ValidTimestamp(m.timestamp) && ValidExpiration(m.expiration)
    && ValidHeaders(m.headers, l)
  }

  method Validate(p: Publication, l: Limits) returns (e: Option<PublicationError>)
    ensures e.None? <==> ValidPublication(p, l)
  {
    if !ValidLimits(l) {
      return Some(InvalidBounds);
    }
    if !ValidExchange(p.exchange, p.exchangeKind, l) || !ValidRouting(p.exchangeKind, p.routingKey, l) ||
       !(p.mode.Transient? || p.mode.Persistent?)
    {
      return Some(InvalidPublication);
    }
    var m := p.message;
    if m.messageId == [] {
      return Some(MessageIdRequired);
    }
    if |m.body| > l.maxPayload {
      return Some(PayloadTooLarge);
    }
    var values :=
      [m.messageId, m.correlationId, m.replyTo, m.contentType, m.contentEncoding, m.kind, m.appId];
    for i := 0 to |values|
      invariant forall j | 0 <= j < i :: ValidProperty(values[j], l)
    {
      if |values[i]| > l.maxName || ContainsControl(values[i]) {
        assert !ValidProperty(values[i], l);
        return Some(InvalidPublication);
      }
    }
    assert ValidProperty(values[0], l) && ValidProperty(values[1], l) && ValidProperty(values[2], l) &&
           ValidProperty(values[3], l) && ValidProperty(values[4], l) && ValidProperty(values[5], l) &&
           ValidProperty(values[6], l);
    if m.priority.Some? && m.priority.value > 255 {
      return Some(InvalidPriority);
    }
    if !ValidTimestamp(m.timestamp) {
      return Some(InvalidPublication);
    }
    if !ValidExpiration(m.expiration) {
      return Some(InvalidExpiration);
    }
    e := CheckHeaders(m.headers, l);
  }

  // ---------------------------------------------------------------- wire form

  /** The properties and body of a basic.publish. */
  datatype Publishing = Publishing(
    headers: map<Bytes, Field>, contentType: Bytes, contentEncoding: Bytes, mode: Mode, priority: nat,
    correlationId: Bytes, replyTo: Bytes, expiration: Bytes, messageId: Bytes, timestamp: Timestamp,
    kind: Bytes, userId: Bytes, appId: Bytes, body: Bytes)

  function FieldOf(h: Header): Option<Field> {
    match h.kind
    case KString => Some(Text(h.text))
    case KBool => Some(Flag(h.flag))
    case KInt64 => Some(Signed(h.number))
    case KBytes => Some(Blob(BlobOf(h)))
    case KUnknown => None
  }

  function ExpirationText(e: Option<Int64>): Bytes
    requires ValidExpiration(e)
  {
    if e.None? then [] else Format(e.value / Millisecond)
  }

  /** The table holds the token and, for each header, its value; nothing else. */
  ghost predicate IsHeaderTable(table: map<Bytes, Field>, hs: seq<Header>, token: Bytes) {
    && TokenKey in table && table[TokenKey] == Text(token)
    && (forall i | 0 <= i < |hs| :: hs[i].key in table && Some(table[hs[i].key]) == FieldOf(hs[i]))
    && (forall key | key in table :: key == TokenKey || exists i | 0 <= i < |hs| :: hs[i].key == key)
  }

  ghost predicate IsPublishing(w: Publishing, m: Message, mode: Mode, token: Bytes)
    requires ValidExpiration(m.expiration)
  {
    && IsHeaderTable(w.headers, m.headers, token)
    && w.contentType == m.contentType && w.contentEncoding == m.contentEncoding && w.mode == mode
    && w.priority == (if m.priority.Some? then m.priority.value else 0)
    && w.correlationId == m.correlationId && w.replyTo == m.replyTo
    && w.expiration == ExpirationText(m.expiration) && w.messageId == m.messageId
    && w.timestamp == m.timestamp && w.kind == m.kind && w.userId == [] && w.appId == m.appId && w.body == m.body
  }

  /** The header loop of amqpPublishing. */
  method EncodeHeaders(hs: seq<Header>, token: Bytes, l: Limits) returns (table: map<Bytes, Field>)
    requires ValidHeaders(hs, l)
    ensures IsHeaderTable(table, hs, token)
  {
    table := map[];
    for k := 0 to |hs|
      invariant forall i | 0 <= i < k && FieldOf(hs[i]).Some? ::
                  hs[i].key in table && Some(table[hs[i].key]) == FieldOf(hs[i])
      invariant forall key | key in table :: exists i | 0 <= i < k :: hs[i].key == key
    {
      var h := hs[k];
      match h.kind {
        case KString => table := table[h.key := Text(h.text)];
        case KBool => table := table[h.key := Flag(h.flag)];
        case KInt64 => table := table[h.key := Signed(h.number)];
        case KBytes => table := table[h.key := Blob(BlobOf(h))];
        case KUnknown =>
      }
    }
    assert forall i | 0 <= i < |hs| :: ValidHeader(hs[i], l) && hs[i].key != TokenKey;
    table := table[TokenKey := Text(token)];
  }

  /** amqpPublishing on an admitted message. */
  method Encode(m: Message, mode: Mode, token: Bytes, l: Limits) returns (w: Publishing)
    requires ValidExpiration(m.expiration) && ValidHeaders(m.headers, l)
    requires m.priority.Some? ==> m.priority.value <= 255
    ensures IsPublishing(w, m, mode, token)
  {
    var table := EncodeHeaders(m.headers, token, l);
    var priority := 0;
    if m.priority.Some? { priority := m.priority.value; }
    var expiration: Bytes := [];
    if m.expiration.Some? { expiration := Format(m.expiration.value / Millisecond); }
    w := Publishing(table, m.contentType, m.contentEncoding, mode, priority, m.correlationId, m.replyTo, expiration,
                    m.messageId, m.timestamp, m.kind, [], m.appId, m.body);
  }
}
