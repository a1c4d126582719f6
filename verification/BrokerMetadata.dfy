/**
  What a broker writes and what a consumer reads (delivery.go:453-620): death records, counters and header values,
  against an encoder written from the broker's side.
 */
module BrokerMetadata {
  import opened Basics
  import opened Decimal
  import opened Text
  import opened Messages
  import opened DeliveryHeaders
  import opened Deliveries

  /** The integer types a broker may use for a count. */
  datatype CountForm = AsSigned | AsUnsigned | AsUnsigned64

  predicate Fits(form: CountForm, n: UInt64) {
    match form
    case AsSigned => n <= MaxInt64
    case AsUnsigned => n <= 0xFFFF_FFFF
    case AsUnsigned64 => true
  }

  function Count(form: CountForm, n: UInt64): Field
    requires Fits(form, n)
  {
    match form
    case AsSigned => Signed(n)
    case AsUnsigned => Unsigned(n)
    case AsUnsigned64 => Unsigned64(n)
  }

  // ---------------------------------------------------------------- death records

  /** Death records a broker can report within the limits. */
  predicate Reportable(d: Death, l: Limits) {
    && !InvalidIdentity(d.reason, l.maxName) && !InvalidIdentity(d.queue, l.maxName) && ValidProperty(d.exchange, l)
    && d.time.At? && d.time.unixNanos >= 0
    && |d.routingKeys| <= 32
    && (forall i | 0 <= i < |d.routingKeys| ::
          |d.routingKeys[i]| <= l.maxRoutingKey && !ContainsControl(d.routingKeys[i]))
    && ValidExpiration(d.originalExpiration)
  }

  function Keys(ks: seq<Bytes>): seq<Field> {
    seq(|ks|, i requires 0 <= i < |ks| => Text(ks[i]))
  }

  /** The field table of one record. */
  function Written(d: Death, form: CountForm): FieldTable
    requires Fits(form, d.count) && ValidExpiration(d.originalExpiration)
  {
    var fields := map[
      Ascii("count") := Count(form, d.count), Ascii("reason") := Text(d.reason), Ascii("queue") := Text(d.queue),
      Ascii("exchange") := Text(d.exchange), Ascii("time") := Moment(d.time),
      Ascii("routing-keys") := List(Keys(d.routingKeys))];
    if d.originalExpiration.None? then fields
    else fields[Ascii("original-expiration") := Text(Format(d.originalExpiration.value / Millisecond))]
  }

  lemma NamesDiffer()
    ensures CountField != QueueField
    ensures |CountField| == |QueueField| == 5 && |ReasonField| == 6 && |ExchangeField| == 8 && |TimeField| == 4
    ensures |RoutingKeysField| == 12 && |OriginalExpirationField| == 19
  {
    assert CountField[0] == 99 && QueueField[0] == 113;
  }

  /** Each name finds what was written under it. */
  lemma WrittenFields(d: Death, form: CountForm)
    requires Fits(form, d.count) && ValidExpiration(d.originalExpiration)
    ensures var f := Written(d, form);
      && CountField in f && f[CountField] == Count(form, d.count)
      && ReasonField in f && f[ReasonField] == Text(d.reason) && QueueField in f && f[QueueField] == Text(d.queue)
      && ExchangeField in f && f[ExchangeField] == Text(d.exchange) && TimeField in f && f[TimeField] == Moment(d.time)
      && RoutingKeysField in f && f[RoutingKeysField] == List(Keys(d.routingKeys))
      && (OriginalExpirationField in f <==> d.originalExpiration.Some?)
      && (d.originalExpiration.Some? ==>
            f[OriginalExpirationField] == Text(Format(d.originalExpiration.value / Millisecond)))
  {
    NamesDiffer();
  }

  /** Every reportable record is read back exactly, and costs its texts and sixteen bytes. */
  lemma DeathRoundTrip(d: Death, form: CountForm, l: Limits)
    requires Reportable(d, l) && Fits(form, d.count)
    ensures ValidDeath(Written(d, form), l) && DeathOf(Written(d, form), l) == d
    ensures DeathCost(Written(d, form), l) ==
            16 + |d.reason| + |d.queue| + |d.exchange| + Lengths(d.routingKeys) + |ExpirationText(d.originalExpiration)|
  {
    var f := Written(d, form);
    WrittenFields(d, form);
    ExpirationRoundTrip(d.originalExpiration);
    var items := f[RoutingKeysField].items;
    assert forall i | 0 <= i < |items| :: ValidRoutingItem(items[i], l);
    assert RoutingTexts(items) == d.routingKeys;
  }

  /** ReadDeath inverts what the broker wrote. */
  method ReadWrittenDeath(d: Death, form: CountForm, l: Limits) returns (r: Death)
    requires Reportable(d, l) && Fits(form, d.count)
    ensures r == d
  {
    DeathRoundTrip(d, form, l);
    var read := ReadDeath(Written(d, form), l);
    r := read.value.0;
  }

  predicate AllReportable(ds: seq<Death>, forms: seq<CountForm>, l: Limits) {
    |forms| == |ds| && forall i | 0 <= i < |ds| :: Reportable(ds[i], l) && Fits(forms[i], ds[i].count)
  }

  function AllWritten(ds: seq<Death>, forms: seq<CountForm>, l: Limits): seq<Field>
    requires AllReportable(ds, forms, l)
  {
    seq(|ds|, i requires 0 <= i < |ds| => Table(Written(ds[i], forms[i])))
  }

  /** A delivery whose table holds an x-death list carries exactly those records, in the broker's order. */
  lemma DeathsSurvive(d: Delivery, s: Incoming, l: Limits, ds: seq<Death>, forms: seq<CountForm>)
    requires AllReportable(ds, forms, l)
    requires IsDeliveryOf(d, s, l) && DeathKey in s.wire.headers
    requires s.wire.headers[DeathKey] == List(AllWritten(ds, forms, l))
    ensures d.deaths == ds
  {
    forall i | 0 <= i < |ds| ensures d.deaths[i] == ds[i] {
      DeathRoundTrip(ds[i], forms[i], l);
    }
  }

  /** Such a list is valid, whatever integer types the broker used. */
  lemma DeathsAreValid(t: FieldTable, l: Limits, ds: seq<Death>, forms: seq<CountForm>)
    requires |ds| <= 128 && AllReportable(ds, forms, l)
    requires DeathKey in t && t[DeathKey] == List(AllWritten(ds, forms, l))
    ensures ValidDeaths(t, l)
  {
    forall i | 0 <= i < |Records(t)| ensures ValidRecord(Records(t)[i], l) {
      DeathRoundTrip(ds[i], forms[i], l);
    }
  }

  // ---------------------------------------------------------------- counters

  /** A counter reads as the number the broker wrote, and an absent one as absent. */
  lemma CountersSurvive(d: Delivery, s: Incoming, l: Limits, form: CountForm, n: UInt64)
    requires IsDeliveryOf(d, s, l) && Fits(form, n)
    ensures Lookup(s, AcquiredCountKey) == Some(Count(form, n)) ==> d.acquiredCount == Some(n)
    ensures Lookup(s, DeliveryCountKey) == Some(Count(form, n)) ==> d.deliveryCount == Some(n)
    ensures Lookup(s, AcquiredCountKey).None? ==> d.acquiredCount.None?
    ensures Lookup(s, DeliveryCountKey).None? ==> d.deliveryCount.None?
  {
  }

  function Lookup(s: Incoming, k: Bytes): Option<Field> {
    if k in s.wire.headers then Some(s.wire.headers[k]) else None
  }

  predicate IsCount(v: Field) {
    v.Unsigned? || v.Unsigned64? || (v.Signed? && v.signed >= 0)
  }

  lemma CountersNeedCounts(s: Incoming, p: ConsumerPolicy)
    requires Acceptable(s, p)
    ensures AcquiredCountKey in s.wire.headers ==> IsCount(s.wire.headers[AcquiredCountKey])
    ensures DeliveryCountKey in s.wire.headers ==> IsCount(s.wire.headers[DeliveryCountKey])
  {
  }

  // ---------------------------------------------------------------- header values

  /** What an application reads from a header. */
  datatype HeaderValue = StringValue(s: Bytes) | BoolValue(b: bool) | IntegerValue(n: int) | BytesValue(s: Bytes)

  function ValueOf(h: Header): Option<HeaderValue> {
    match h.kind
    case KString => Some(StringValue(h.text))
    case KBool => Some(BoolValue(h.flag))
    case KInt64 => Some(IntegerValue(h.number))
    case KBytes => Some(BytesValue(if h.blob.Some? then h.blob.value else []))
    case KUnknown => None
  }

  /** What another AMQP client means by a field. */
  function FieldValue(v: Field): Option<HeaderValue> {
    match v
    case Text(s) => Some(StringValue(s))
    case Flag(b) => Some(BoolValue(b))
    case Blob(s) => Some(BytesValue(s))
    case Signed(n) => Some(IntegerValue(n))
    case Unsigned(n) => Some(IntegerValue(n))
    case _ => None
  }

  /** Publishing and delivering keep the meaning of every header value, also towards other clients. */
  lemma HeadersKeepMeaning(t: FieldTable, hs: seq<Header>, token: Bytes, l: Limits, i: nat)
    requires IsHeaderTable(t, hs, token) && ValidHeaders(hs, l) && i < |hs|
    ensures hs[i].key in t && FieldValue(t[hs[i].key]) == ValueOf(hs[i])
  {
    assert ValidHeader(hs[i], l);
  }

  lemma DeliveredHeadersKeepMeaning(hs: seq<Header>, t: FieldTable, i: nat)
    requires IsHeaderList(hs, t) && i < |hs|
    ensures hs[i].key in t && ValueOf(hs[i]) == FieldValue(t[hs[i].key]) && ValueOf(hs[i]).Some? && WellShaped(hs[i])
  {
  }
}
