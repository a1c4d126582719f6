/** delivery.go: bounded conversion of a broker delivery. First the header table, whatever order it is iterated in. */
module DeliveryHeaders {
  import opened Basics
  import opened Text
  import opened Messages

  type FieldTable = map<Bytes, Field>

  predicate Supported(v: Field) {
    v.Text? || v.Flag? || v.Blob? || v.Signed? || v.Unsigned?
  }

  function Size(v: Field): nat {
    match v
    case Text(text) => |text|
    case Flag(_) => 1
    case Blob(blob) => |blob|
    case Signed(_) => 8
    case Unsigned(_) => 8
    case _ => 0
  }

  /** A copy of no bytes is a nil slice. */
  function OwnedBytes(b: Bytes): Option<Bytes> {
    if b == [] then None else Some(b)
  }

  function Converted(key: Bytes, v: Field): Header
    requires Supported(v)
  {
    match v
    case Text(text) => Header(key, KString, text, false, 0, None)
    case Flag(flag) => Header(key, KBool, [], flag, 0, None)
    case Blob(blob) => Header(key, KBytes, [], false, 0, OwnedBytes(blob))
    case Signed(n) => Header(key, KInt64, [], false, n, None)
    case Unsigned(n) => Header(key, KInt64, [], false, n, None)
  }

  predicate IsAppKey(t: FieldTable, k: Bytes) {
    k in t && !IsReserved(k)
  }

  ghost function AppKeys(t: FieldTable): set<Bytes> {
    set k | k in t && IsAppKey(t, k)
  }

  /** What an entry counts against the budget. */
  function Cost(t: FieldTable, k: Bytes): nat {
    if k in t then |k| + Size(t[k]) else 0
  }

  ghost function Total(t: FieldTable, ks: set<Bytes>): nat {
    if ks == {} then 0
    else
      var k :| k in ks;
      Cost(t, k) + Total(t, ks - {k})
  }

  lemma {:induction false} TotalRemove(t: FieldTable, ks: set<Bytes>, x: Bytes)
    requires x in ks
    ensures Total(t, ks) == Cost(t, x) + Total(t, ks - {x})
    decreases |ks|
  {
    var k :| k in ks && Total(t, ks) == Cost(t, k) + Total(t, ks - {k});
    if k != x {
      TotalRemove(t, ks - {k}, x);
      TotalRemove(t, ks - {x}, k);
      assert ks - {k} - {x} == ks - {x} - {k};
    }
  }

  lemma TotalAdd(t: FieldTable, ks: set<Bytes>, x: Bytes)
    requires x !in ks
    ensures Total(t, ks + {x}) == Total(t, ks) + Cost(t, x)
  {
    TotalRemove(t, ks + {x}, x);
    assert ks + {x} - {x} == ks;
  }

  lemma {:induction false} TotalMonotone(t: FieldTable, a: set<Bytes>, b: set<Bytes>)
    requires a <= b
    ensures Total(t, a) <= Total(t, b) && |a| <= |b|
    decreases |a|
  {
    if a != {} {
      var k :| k in a;
      TotalRemove(t, a, k);
      TotalRemove(t, b, k);
      TotalMonotone(t, a - {k}, b - {k});
    }
  }

  predicate AdmissibleEntry(t: FieldTable, k: Bytes, l: Limits) {
    k in t && !InvalidIdentity(k, l.maxName) && Supported(t[k])
  }

  /** The admission rule as one statement about the whole table. */
  ghost predicate Admissible(t: FieldTable, l: Limits) {
    && |AppKeys(t)| <= l.maxEntries
    && (forall k | k in AppKeys(t) :: AdmissibleEntry(t, k, l))
    && Total(t, AppKeys(t)) <= l.maxHeaderBytes
  }

  /** Some order a range over the table may take. */
  ghost predicate IsOrder(order: seq<Bytes>, t: FieldTable) {
    && (forall k :: k in order <==> k in t)
    && (forall i, j | 0 <= i < j < |order| :: order[i] != order[j])
  }

  /** What the loop has seen is part of the table and within the budget. */
  ghost predicate Seen(t: FieldTable, l: Limits, order: seq<Bytes>, i: nat, seen: set<Bytes>) {
    && i <= |order|
    && (forall k :: k in seen <==> (k in order[..i] && IsAppKey(t, k)))
    && (forall k | k in seen :: AdmissibleEntry(t, k, l))
    && |seen| <= l.maxEntries && Total(t, seen) <= l.maxHeaderBytes
  }

  lemma SeenNext(t: FieldTable, l: Limits, order: seq<Bytes>, i: nat, seen: set<Bytes>)
    requires IsOrder(order, t) && Seen(t, l, order, i, seen) && i < |order| && IsAppKey(t, order[i])
    ensures order[i] !in seen && seen + {order[i]} <= AppKeys(t)
    ensures |seen + {order[i]}| == |seen| + 1
    ensures Total(t, seen + {order[i]}) == Total(t, seen) + Cost(t, order[i])
    ensures Total(t, seen + {order[i]}) <= Total(t, AppKeys(t))
    ensures |seen| + 1 <= |AppKeys(t)|
    ensures forall k :: k in seen + {order[i]} <==> (k in order[..i + 1] && IsAppKey(t, k))
  {
    assert order[i] !in order[..i];
    assert order[..i + 1] == order[..i] + [order[i]];
    TotalAdd(t, seen, order[i]);
    TotalMonotone(t, seen + {order[i]}, AppKeys(t));
  }

  /** The entry passes the loop's tests. */
  predicate Passes(t: FieldTable, l: Limits, k: Bytes, count: nat, used: nat) {
    AdmissibleEntry(t, k, l) && count + 1 <= l.maxEntries && used + Cost(t, k) <= l.maxHeaderBytes
  }

  /** One more entry either extends what was seen or refutes the table. */
  lemma SeenDecides(t: FieldTable, l: Limits, order: seq<Bytes>, i: nat, seen: set<Bytes>)
    requires IsOrder(order, t) && Seen(t, l, order, i, seen) && i < |order| && IsAppKey(t, order[i])
    ensures |seen + {order[i]}| == |seen| + 1
    ensures Total(t, seen + {order[i]}) == Total(t, seen) + Cost(t, order[i])
    ensures if Passes(t, l, order[i], |seen|, Total(t, seen)) then Seen(t, l, order, i + 1, seen + {order[i]})
            else !Admissible(t, l)
  {
    SeenNext(t, l, order, i, seen);
    assert order[i] in AppKeys(t);
  }

  lemma SeenSkips(t: FieldTable, l: Limits, order: seq<Bytes>, i: nat, seen: set<Bytes>)
    requires IsOrder(order, t) && Seen(t, l, order, i, seen) && i < |order| && !IsAppKey(t, order[i])
    ensures Seen(t, l, order, i + 1, seen)
  {
    assert order[..i + 1] == order[..i] + [order[i]];
  }

  /** Admission is decided by the table, not by the order in which its entries come. */
  method AdmittedHeaderCount(t: FieldTable, order: seq<Bytes>, l: Limits) returns (r: Option<nat>)
    requires IsOrder(order, t) && ValidLimits(l)
    ensures r.Some? <==> Admissible(t, l)
    ensures r.Some? ==> r.value == |AppKeys(t)|
  {
    var count, used := 0, 0;
    ghost var seen: set<Bytes> := {};
    for i := 0 to |order|
      invariant Seen(t, l, order, i, seen)
      invariant count == |seen| && used == Total(t, seen)
    {
      var key := order[i];
      if IsReserved(key) {
        SeenSkips(t, l, order, i, seen);
        continue;
      }
      SeenDecides(t, l, order, i, seen);
      count := count + 1;
      if count > l.maxEntries || InvalidIdentity(key, l.maxName) || |key| > l.maxHeaderBytes - used {
        return None;
      }
      used := used + |key|;
      if !Supported(t[key]) || Size(t[key]) > l.maxHeaderBytes - used {
        return None;
      }
      used := used + Size(t[key]);
      seen := seen + {key};
    }
    assert order[..|order|] == order;
    assert seen == AppKeys(t);
    r := Some(count);
  }

  // ---------------------------------------------------------------- the second pass

  function InsertKey(k: Bytes, s: seq<Bytes>): seq<Bytes> {
    if s == [] then [k]
    else if Less(k, s[0]) then [k] + s
    else [s[0]] + InsertKey(k, s[1..])
  }

  /** sort.Strings. */
  function SortKeys(s: seq<Bytes>): seq<Bytes> {
    if s == [] then [] else InsertKey(s[0], SortKeys(s[1..]))
  }

  lemma {:induction false} InsertMembers(k: Bytes, s: seq<Bytes>, x: Bytes)
    ensures x in InsertKey(k, s) <==> x == k || x in s
  {
    if s != [] && !Less(k, s[0]) {
      InsertMembers(k, s[1..], x);
      assert x in s <==> x == s[0] || x in s[1..];
    }
  }

  lemma {:induction false} InsertIncreasing(k: Bytes, s: seq<Bytes>)
    requires Increasing(s) && k !in s
    ensures Increasing(InsertKey(k, s))
  {
    if s != [] {
      LessTotal(k, s[0]);
      assert s[0] in s;
      if Less(k, s[0]) {
        forall j | 0 < j < |s| ensures Less(k, s[j]) {
          LessTransitive(k, s[0], s[j]);
        }
      } else {
        InsertIncreasing(k, s[1..]);
        var rest := InsertKey(k, s[1..]);
        forall j | 0 <= j < |rest| ensures Less(s[0], rest[j]) {
          InsertMembers(k, s[1..], rest[j]);
          assert rest[j] in rest;
        }
      }
    }
  }

  predicate NoRepeats(s: seq<Bytes>) {
    forall i, j | 0 <= i < j < |s| :: s[i] != s[j]
  }

  lemma {:induction false} SortCorrect(s: seq<Bytes>)
    requires NoRepeats(s)
    ensures Increasing(SortKeys(s))
    ensures forall x :: x in SortKeys(s) <==> x in s
  {
    if s != [] {
      SortCorrect(s[1..]);
      InsertIncreasing(s[0], SortKeys(s[1..]));
      forall x ensures x in SortKeys(s) <==> x in s {
        InsertMembers(s[0], SortKeys(s[1..]), x);
        assert x in s <==> x == s[0] || x in s[1..];
      }
    }
  }

  predicate KeysIncrease(hs: seq<Header>) {
    forall i, j | 0 <= i < j < |hs| :: Less(hs[i].key, hs[j].key)
  }

  /** Exactly the table's application entries, converted and sorted by key. */
  ghost predicate IsHeaderList(hs: seq<Header>, t: FieldTable) {
    && KeysIncrease(hs)
    && (forall i | 0 <= i < |hs| ::
          IsAppKey(t, hs[i].key) && Supported(t[hs[i].key]) && hs[i] == Converted(hs[i].key, t[hs[i].key]))
    && (forall k | IsAppKey(t, k) :: exists i | 0 <= i < |hs| :: hs[i].key == k)
  }

  function Keys(hs: seq<Header>): seq<Bytes> {
    seq(|hs|, i requires 0 <= i < |hs| => hs[i].key)
  }

  /** A table has one header list. */
  lemma HeaderListUnique(a: seq<Header>, b: seq<Header>, t: FieldTable)
    requires IsHeaderList(a, t) && IsHeaderList(b, t)
    ensures a == b
  {
    var ka, kb := Keys(a), Keys(b);
    forall k ensures k in ka <==> k in kb {
      ListedKeys(a, t, k);
      ListedKeys(b, t, k);
    }
    IncreasingUnique(ka, kb);
    forall i | 0 <= i < |a| ensures a[i] == b[i] {
      assert ka[i] == kb[i];
    }
  }

  lemma ListedKeys(a: seq<Header>, t: FieldTable, k: Bytes)
    requires IsHeaderList(a, t)
    ensures k in Keys(a) <==> IsAppKey(t, k)
  {
    if IsAppKey(t, k) {
      var i :| 0 <= i < |a| && a[i].key == k;
      assert Keys(a)[i] == k;
    }
  }

  method ApplicationKeys(t: FieldTable, order: seq<Bytes>) returns (keys: seq<Bytes>)
    requires IsOrder(order, t)
    ensures NoRepeats(keys) && forall k :: k in keys <==> IsAppKey(t, k)
  {
    keys := [];
    for i := 0 to |order|
      invariant NoRepeats(keys)
      invariant forall k :: k in keys <==> k in order[..i] && IsAppKey(t, k)
    {
      assert order[..i + 1] == order[..i] + [order[i]];
      assert order[i] in t;
      if !IsReserved(order[i]) {
        assert order[i] !in order[..i];
        keys := keys + [order[i]];
      }
    }
    assert order[..|order|] == order;
  }

  /** `hs` converts the first `i` keys. */
  predicate Lists(hs: seq<Header>, keys: seq<Bytes>, i: nat, t: FieldTable) {
    && i <= |keys| && |hs| == i
    && forall j | 0 <= j < i :: keys[j] in t && Supported(t[keys[j]]) && hs[j] == Converted(keys[j], t[keys[j]])
  }

  ghost function First(keys: seq<Bytes>, i: nat): set<Bytes>
    requires i <= |keys|
  {
    set k | k in keys[..i]
  }

  lemma FirstNext(keys: seq<Bytes>, i: nat, t: FieldTable)
    requires Increasing(keys) && i < |keys|
    ensures Total(t, First(keys, i + 1)) == Total(t, First(keys, i)) + Cost(t, keys[i])
  {
    LessIrreflexive(keys[i]);
    assert keys[i] !in keys[..i];
    assert keys[..i + 1] == keys[..i] + [keys[i]];
    TotalAdd(t, First(keys, i), keys[i]);
    assert First(keys, i + 1) == First(keys, i) + {keys[i]};
  }

  lemma ListsNext(hs: seq<Header>, keys: seq<Bytes>, i: nat, t: FieldTable, l: Limits)
    requires Admissible(t, l) && Increasing(keys) && i < |keys| && forall k :: k in keys <==> IsAppKey(t, k)
    requires Lists(hs, keys, i, t)
    ensures keys[i] in t && Supported(t[keys[i]])
    ensures Lists(hs + [Converted(keys[i], t[keys[i]])], keys, i + 1, t)
    ensures HeadersBytes(hs + [Converted(keys[i], t[keys[i]])]) == HeadersBytes(hs) + Cost(t, keys[i])
    ensures Total(t, First(keys, i + 1)) == Total(t, First(keys, i)) + Cost(t, keys[i])
  {
    assert keys[i] in keys;
    assert keys[i] in AppKeys(t);
    assert (hs + [Converted(keys[i], t[keys[i]])])[..i] == hs;
    FirstNext(keys, i, t);
  }

  lemma ListsAll(hs: seq<Header>, keys: seq<Bytes>, t: FieldTable)
    requires Increasing(keys) && forall k :: k in keys <==> IsAppKey(t, k)
    requires Lists(hs, keys, |keys|, t)
    ensures IsHeaderList(hs, t) && First(keys, |keys|) == AppKeys(t)
  {
    assert keys[..|keys|] == keys;
    forall i | 0 <= i < |hs| ensures IsAppKey(t, hs[i].key) && hs[i].key == keys[i] {
      assert keys[i] in keys;
    }
    forall k | IsAppKey(t, k) ensures exists i | 0 <= i < |hs| :: hs[i].key == k {
      assert k in keys;
      var i :| 0 <= i < |keys| && keys[i] == k;
      assert hs[i].key == k;
    }
  }

  /** The second pass: sorted owned headers, and the byte count the first pass admitted. */
  method MaterialisedHeaders(t: FieldTable, order: seq<Bytes>, l: Limits) returns (hs: seq<Header>, used: nat)
    requires IsOrder(order, t) && Admissible(t, l)
    ensures IsHeaderList(hs, t)
    ensures used == Total(t, AppKeys(t)) == HeadersBytes(hs) <= l.maxHeaderBytes
  {
    var collected := ApplicationKeys(t, order);
    SortCorrect(collected);
    var keys := SortKeys(collected);
    hs, used := [], 0;
    for i := 0 to |keys|
      invariant Lists(hs, keys, i, t)
      invariant used == HeadersBytes(hs) == Total(t, First(keys, i))
    {
      var key := keys[i];
      ListsNext(hs, keys, i, t, l);
      used := used + |key|;
      used := used + Size(t[key]);
      hs := hs + [Converted(key, t[key])];
    }
    ListsAll(hs, keys, t);
  }
}

/** delivery.go:248-340 and 381-550: the whole conversion, with one metadata budget over everything retained. */
module Deliveries {
  import opened Basics
  import opened Decimal
  import opened Text
  import opened Messages
  import opened DeliveryHeaders

  const MaxDeathRecords: nat := 128
  const MaxDeathRoutingKeys: nat := 32

  /** A broker delivery: routing facts the broker adds around the carried properties and body. */
  datatype Incoming = Incoming(
    deliveryTag: UInt64, consumerTag: Bytes, redelivered: bool, exchange: Bytes, routingKey: Bytes, wire: Publishing)

  /** `rest` stands for the configuration rules that do not concern the limits. */
  datatype ConsumerPolicy = ConsumerPolicy(limits: Limits, rest: bool)

  datatype Death = Death(
    count: UInt64, reason: Bytes, queue: Bytes, exchange: Bytes, routingKeys: seq<Bytes>, time: Timestamp,
    originalExpiration: Option<Int64>)

  datatype Delivery = Delivery(
    body: Bytes, headers: seq<Header>, messageId: Bytes, correlationId: Bytes, contentType: Bytes,
    contentEncoding: Bytes, replyTo: Bytes, kind: Bytes, userId: Bytes, appId: Bytes, timestamp: Timestamp,
    expiration: Option<Int64>, priority: nat, mode: Mode, consumer: Bytes, exchange: Bytes, routingKey: Bytes,
    redelivered: bool, acquiredCount: Option<UInt64>, deliveryCount: Option<UInt64>, deaths: seq<Death>)

  // ---------------------------------------------------------------- expirations and counters

  /** The outer option is the verdict, the inner one an omitted expiration. */
  function ParseExpiration(s: Bytes): (r: Option<Option<Int64>>)
    ensures r.Some? && r.value.Some? ==> ValidExpiration(r.value)
  {
    if s == [] then Some(None)
    else
      var ms := Parse(s);
      if ms.None? || ms.value > MaxInt64 / Millisecond then None else Some(Some(ms.value * Millisecond))
  }

  /** Every admissible duration survives the millisecond text, without overflow. */
  lemma ExpirationRoundTrip(e: Option<Int64>)
    requires ValidExpiration(e)
    ensures ParseExpiration(ExpirationText(e)) == Some(e)
  {
    if e.Some? {
      ParseFormat(e.value / Millisecond);
    }
  }

  function UnsignedOf(v: Field): Option<UInt64> {
    match v
    case Signed(n) => if n >= 0 then Some(n) else None
    case Unsigned(n) => Some(n)
    case Unsigned64(n) => Some(n)
    case _ => None
  }

  predicate ValidCounter(t: FieldTable, k: Bytes) {
    k in t ==> UnsignedOf(t[k]).Some?
  }

  function CounterOf(t: FieldTable, k: Bytes): Option<UInt64> {
    if k in t then UnsignedOf(t[k]) else None
  }

  function CounterBytes(t: FieldTable): nat {
    (if AcquiredCountKey in t then 8 else 0) + (if DeliveryCountKey in t then 8 else 0)
  }

  // ---------------------------------------------------------------- death summaries

  datatype SummaryField = SummaryField(key: Bytes, allowEmpty: bool)

  const SummaryFields: seq<SummaryField> := [
    SummaryField(FirstDeathQueueKey, false), SummaryField(FirstDeathReasonKey, false),
    SummaryField(FirstDeathExchangeKey, true), SummaryField(LastDeathQueueKey, false),
    SummaryField(LastDeathReasonKey, false), SummaryField(LastDeathExchangeKey, true)]

  predicate ValidSummaryField(t: FieldTable, f: SummaryField, l: Limits) {
    f.key in t ==>
      && t[f.key].Text? && ValidProperty(t[f.key].text, l)
      && (f.allowEmpty || !InvalidIdentity(t[f.key].text, l.maxName))
  }

  function SummaryFieldBytes(t: FieldTable, f: SummaryField): nat {
    if f.key in t && t[f.key].Text? then |t[f.key].text| else 0
  }

  function SummaryBytes(t: FieldTable, fs: seq<SummaryField>): nat {
    if fs == [] then 0 else SummaryBytes(t, fs[..|fs| - 1]) + SummaryFieldBytes(t, fs[|fs| - 1])
  }

  lemma {:induction false} SummaryPrefix(t: FieldTable, fs: seq<SummaryField>, k: nat)
    requires k <= |fs|
    ensures SummaryBytes(t, fs[..k]) <= SummaryBytes(t, fs)
  {
    if k < |fs| {
      assert fs[..|fs| - 1][..k] == fs[..k];
      SummaryPrefix(t, fs[..|fs| - 1], k);
    } else {
      assert fs[..k] == fs;
    }
  }

  predicate ValidSummaries(t: FieldTable, fs: seq<SummaryField>, l: Limits) {
    forall i | 0 <= i < |fs| :: ValidSummaryField(t, fs[i], l)
  }

  lemma SummaryNext(t: FieldTable, fs: seq<SummaryField>, i: nat, l: Limits)
    requires i < |fs| && ValidSummaries(t, fs[..i], l)
    ensures SummaryBytes(t, fs[..i + 1]) == SummaryBytes(t, fs[..i]) + SummaryFieldBytes(t, fs[i]) <= SummaryBytes(t, fs)
    ensures !ValidSummaryField(t, fs[i], l) ==> !ValidSummaries(t, fs, l)
    ensures ValidSummaryField(t, fs[i], l) ==> ValidSummaries(t, fs[..i + 1], l)
  {
    assert fs[..i + 1][..i] == fs[..i];
    SummaryPrefix(t, fs, i + 1);
  }

  method DeathSummaryBytes(t: FieldTable, l: Limits) returns (r: Option<nat>)
    ensures r.Some? <==> ValidSummaries(t, SummaryFields, l) && SummaryBytes(t, SummaryFields) <= l.maxHeaderBytes
    ensures r.Some? ==> r.value == SummaryBytes(t, SummaryFields)
    requires l.maxHeaderBytes > 0
  {
    var fs := SummaryFields;
    var used: nat := 0;
    for i := 0 to |fs|
      invariant used == SummaryBytes(t, fs[..i]) <= l.maxHeaderBytes
      invariant ValidSummaries(t, fs[..i], l)
    {
      SummaryNext(t, fs, i, l);
      var f := fs[i];
      if f.key in t {
        if !ValidSummaryField(t, f, l) {
          return None;
        }
        used := used + |t[f.key].text|;
        if used > l.maxHeaderBytes {
          return None;
        }
      }
    }
    assert fs[..|fs|] == fs;
    r := Some(used);
  }

  // ---------------------------------------------------------------- death records

  const CountField: Bytes := Ascii("count")
  const ReasonField: Bytes := Ascii("reason")
  const QueueField: Bytes := Ascii("queue")
  const ExchangeField: Bytes := Ascii("exchange")
  const TimeField: Bytes := Ascii("time")
  const RoutingKeysField: Bytes := Ascii("routing-keys")
  const OriginalExpirationField: Bytes := Ascii("original-expiration")

  predicate IsText(t: FieldTable, k: Bytes) {
    k in t && t[k].Text?
  }

  predicate ValidRoutingItem(v: Field, l: Limits) {
    v.Text? && |v.text| <= l.maxRoutingKey && !ContainsControl(v.text)
  }

  function RoutingTexts(vs: seq<Field>): seq<Bytes>
    requires forall i | 0 <= i < |vs| :: vs[i].Text?
  {
    seq(|vs|, i requires 0 <= i < |vs| => vs[i].text)
  }

  function Lengths(ks: seq<Bytes>): nat {
    if ks == [] then 0 else Lengths(ks[..|ks| - 1]) + |ks[|ks| - 1]|
  }

  predicate ValidDeathFields(f: FieldTable, l: Limits) {
    && CountField in f && UnsignedOf(f[CountField]).Some?
    && IsText(f, ReasonField) && !InvalidIdentity(f[ReasonField].text, l.maxName)
    && IsText(f, QueueField) && !InvalidIdentity(f[QueueField].text, l.maxName)
    && IsText(f, ExchangeField) && ValidProperty(f[ExchangeField].text, l)
    && TimeField in f && f[TimeField].Moment? && f[TimeField].at.At? && f[TimeField].at.unixNanos >= 0
  }

  predicate ValidOriginalExpiration(f: FieldTable) {
    OriginalExpirationField in f ==>
      && f[OriginalExpirationField].Text? && f[OriginalExpirationField].text != []
      && ParseExpiration(f[OriginalExpirationField].text).Some?
  }

  predicate ValidRoutingList(f: FieldTable, l: Limits) {
    && RoutingKeysField in f && f[RoutingKeysField].List? && |f[RoutingKeysField].items| <= MaxDeathRoutingKeys
    && forall i | 0 <= i < |f[RoutingKeysField].items| :: ValidRoutingItem(f[RoutingKeysField].items[i], l)
  }

  predicate ValidDeath(f: FieldTable, l: Limits) {
    ValidDeathFields(f, l) && ValidOriginalExpiration(f) && ValidRoutingList(f, l)
  }

  function OriginalExpiration(f: FieldTable): Option<Int64>
    requires ValidOriginalExpiration(f)
  {
    if OriginalExpirationField in f then ParseExpiration(f[OriginalExpirationField].text).value else None
  }

  function OriginalExpirationBytes(f: FieldTable): nat
    requires ValidOriginalExpiration(f)
  {
    if OriginalExpirationField in f then |f[OriginalExpirationField].text| else 0
  }

  function DeathOf(f: FieldTable, l: Limits): Death
    requires ValidDeath(f, l)
  {
    Death(UnsignedOf(f[CountField]).value, f[ReasonField].text, f[QueueField].text, f[ExchangeField].text,
          RoutingTexts(f[RoutingKeysField].items), f[TimeField].at, OriginalExpiration(f))
  }

  /** Data a death record keeps, apart from the text of its original expiration. */
  function DeathBytes(d: Death): nat {
    16 + |d.reason| + |d.queue| + |d.exchange| + Lengths(d.routingKeys)
  }

  function DeathCost(f: FieldTable, l: Limits): nat
    requires ValidDeath(f, l)
  {
    DeathBytes(DeathOf(f, l)) + OriginalExpirationBytes(f)
  }

  method ReadRoutingKeys(vs: seq<Field>, l: Limits) returns (r: Option<(seq<Bytes>, nat)>)
    ensures r.Some? <==> forall i | 0 <= i < |vs| :: ValidRoutingItem(vs[i], l)
    ensures r.Some? ==> r.value.0 == RoutingTexts(vs) && r.value.1 == Lengths(RoutingTexts(vs))
  {
    var keys: seq<Bytes> := [];
    var used := 0;
    for i := 0 to |vs|
      invariant forall j | 0 <= j < i :: ValidRoutingItem(vs[j], l)
      invariant keys == RoutingTexts(vs[..i]) && used == Lengths(keys)
    {
      if !vs[i].Text? || |vs[i].text| > l.maxRoutingKey || ContainsControl(vs[i].text) {
        return None;
      }
      assert (keys + [vs[i].text])[..|keys|] == keys;
      used := used + |vs[i].text|;
      keys := keys + [vs[i].text];
    }
    assert vs[..|vs|] == vs;
    r := Some((keys, used));
  }

  method ReadDeath(f: FieldTable, l: Limits) returns (r: Option<(Death, nat)>)
    ensures r.Some? <==> ValidDeath(f, l)
    ensures r.Some? ==> r.value == (DeathOf(f, l), DeathCost(f, l))
  {
    if !ValidDeathFields(f, l) {
      return None;
    }
    if RoutingKeysField !in f || !f[RoutingKeysField].List? || |f[RoutingKeysField].items| > MaxDeathRoutingKeys {
      return None;
    }
    if !ValidOriginalExpiration(f) {
      return None;
    }
    var routing := ReadRoutingKeys(f[RoutingKeysField].items, l);
    if routing.None? {
      return None;
    }
    var d := Death(UnsignedOf(f[CountField]).value, f[ReasonField].text, f[QueueField].text, f[ExchangeField].text,
                   routing.value.0, f[TimeField].at, OriginalExpiration(f));
    r := Some((d, 16 + |d.reason| + |d.queue| + |d.exchange| + OriginalExpirationBytes(f) + routing.value.1));
  }

  predicate ValidRecord(v: Field, l: Limits) {
    v.Table? && ValidDeath(v.entries, l)
  }

  predicate ValidRecords(vs: seq<Field>, l: Limits) {
    forall i | 0 <= i < |vs| :: ValidRecord(vs[i], l)
  }

  function RecordCost(v: Field, l: Limits): nat {
    if ValidRecord(v, l) then DeathCost(v.entries, l) else 0
  }

  function RecordsCost(vs: seq<Field>, l: Limits): nat {
    if vs == [] then 0 else RecordsCost(vs[..|vs| - 1], l) + RecordCost(vs[|vs| - 1], l)
  }

  lemma {:induction false} RecordsPrefix(vs: seq<Field>, k: nat, l: Limits)
    requires k <= |vs|
    ensures RecordsCost(vs[..k], l) <= RecordsCost(vs, l)
  {
    if k < |vs| {
      assert vs[..|vs| - 1][..k] == vs[..k];
      RecordsPrefix(vs[..|vs| - 1], k, l);
    } else {
      assert vs[..k] == vs;
    }
  }

  function DeathsOf(vs: seq<Field>, l: Limits): seq<Death>
    requires ValidRecords(vs, l)
  {
    seq(|vs|, i requires 0 <= i < |vs| => DeathOf(vs[i].entries, l))
  }

  lemma RecordsNext(vs: seq<Field>, i: nat, l: Limits)
    requires i < |vs| && ValidRecords(vs[..i], l)
    ensures RecordsCost(vs[..i + 1], l) == RecordsCost(vs[..i], l) + RecordCost(vs[i], l) <= RecordsCost(vs, l)
    ensures !ValidRecord(vs[i], l) ==> !ValidRecords(vs, l)
    ensures ValidRecord(vs[i], l) ==>
      ValidRecords(vs[..i + 1], l) && DeathsOf(vs[..i + 1], l) == DeathsOf(vs[..i], l) + [DeathOf(vs[i].entries, l)]
  {
    assert vs[..i + 1][..i] == vs[..i];
    RecordsPrefix(vs, i + 1, l);
    if ValidRecord(vs[i], l) {
      DeathsNext(vs, i, l);
    }
  }

  lemma DeathsNext(vs: seq<Field>, i: nat, l: Limits)
    requires i < |vs| && ValidRecords(vs[..i], l) && ValidRecord(vs[i], l)
    ensures ValidRecords(vs[..i + 1], l)
    ensures DeathsOf(vs[..i + 1], l) == DeathsOf(vs[..i], l) + [DeathOf(vs[i].entries, l)]
  {
  }

  /** The records loop accepts exactly when all records are valid and together fit what is left of the budget. */
  method ReadRecords(vs: seq<Field>, l: Limits, before: nat) returns (r: Option<seq<Death>>)
    requires before <= l.maxHeaderBytes
    ensures r.Some? <==> ValidRecords(vs, l) && before + RecordsCost(vs, l) <= l.maxHeaderBytes
    ensures r.Some? ==> r.value == DeathsOf(vs, l)
  {
    var deaths: seq<Death> := [];
    var used := before;
    for i := 0 to |vs|
      invariant ValidRecords(vs[..i], l)
      invariant used == before + RecordsCost(vs[..i], l) <= l.maxHeaderBytes
      invariant deaths == DeathsOf(vs[..i], l)
    {
      RecordsNext(vs, i, l);
      if !vs[i].Table? {
        return None;
      }
      var death := ReadDeath(vs[i].entries, l);
      if death.None? {
        assert !ValidRecord(vs[i], l);
        return None;
      }
      if death.value.1 > l.maxHeaderBytes - used {
        return None;
      }
      used := used + death.value.1;
      deaths := deaths + [death.value.0];
    }
    assert vs[..|vs|] == vs;
    r := Some(deaths);
  }

  function Records(t: FieldTable): seq<Field> {
    if DeathKey in t && t[DeathKey].List? then t[DeathKey].items else []
  }

  predicate ValidDeaths(t: FieldTable, l: Limits) {
    && (DeathKey in t ==> t[DeathKey].List?)
    && |Records(t)| <= MaxDeathRecords && ValidRecords(Records(t), l)
  }

  // ---------------------------------------------------------------- the whole delivery

  predicate ValidToken(t: FieldTable) {
    TokenKey in t ==> t[TokenKey].Text? && !InvalidIdentity(t[TokenKey].text, MaxTokenBytes)
  }

  /** Everything retained from the table counts against one budget. */
  ghost function MetadataBytes(t: FieldTable, l: Limits): nat {
    Total(t, AppKeys(t)) + SummaryBytes(t, SummaryFields) + CounterBytes(t) + RecordsCost(Records(t), l)
  }

  ghost predicate AcceptableTable(t: FieldTable, l: Limits) {
    && ValidToken(t) && Admissible(t, l) && ValidSummaries(t, SummaryFields, l)
    && ValidCounter(t, AcquiredCountKey) && ValidCounter(t, DeliveryCountKey) && ValidDeaths(t, l)
    && MetadataBytes(t, l) <= l.maxHeaderBytes
  }

  predicate AcceptableFrame(s: Incoming, l: Limits) {
    && s.deliveryTag > 0 && !InvalidIdentity(s.consumerTag, l.maxName)
    && |s.routingKey| <= l.maxRoutingKey && !ContainsControl(s.routingKey)
    && |s.exchange| <= l.maxName && !ContainsControl(s.exchange) && |s.wire.body| <= l.maxPayload
  }

  predicate AcceptableProperties(w: Publishing, l: Limits) {
    && ValidProperty(w.messageId, l) && ValidProperty(w.correlationId, l) && ValidProperty(w.contentType, l)
    && ValidProperty(w.contentEncoding, l) && ValidProperty(w.replyTo, l) && ValidProperty(w.kind, l)
    && ValidProperty(w.userId, l) && ValidProperty(w.appId, l)
    && (w.timestamp.At? ==> w.timestamp.unixNanos >= 0)
    && ParseExpiration(w.expiration).Some?
    && !w.mode.OtherMode?
  }

  ghost predicate Acceptable(s: Incoming, p: ConsumerPolicy) {
    && p.rest && ValidLimits(p.limits) && AcceptableFrame(s, p.limits) && AcceptableProperties(s.wire, p.limits)
    && AcceptableTable(s.wire.headers, p.limits)
  }

  /** What a delivery keeps of its table. */
  ghost predicate KeepsTable(d: Delivery, t: FieldTable, l: Limits) {
    && IsHeaderList(d.headers, t)
    && d.acquiredCount == CounterOf(t, AcquiredCountKey) && d.deliveryCount == CounterOf(t, DeliveryCountKey)
    && ValidRecords(Records(t), l) && d.deaths == DeathsOf(Records(t), l)
  }

  /** What a delivery keeps of everything else. */
  ghost predicate KeepsProperties(d: Delivery, s: Incoming) {
    var w := s.wire;
    && d.body == w.body && d.messageId == w.messageId && d.correlationId == w.correlationId
    && d.contentType == w.contentType && d.contentEncoding == w.contentEncoding && d.replyTo == w.replyTo
    && d.kind == w.kind && d.userId == w.userId && d.appId == w.appId && d.timestamp == w.timestamp
    && Some(d.expiration) == ParseExpiration(w.expiration) && d.priority == w.priority
    && d.mode == (if w.mode.Persistent? then Persistent else Transient)
    && d.consumer == s.consumerTag && d.exchange == s.exchange && d.routingKey == s.routingKey
    && d.redelivered == s.redelivered
  }

  ghost predicate IsDeliveryOf(d: Delivery, s: Incoming, l: Limits) {
    KeepsTable(d, s.wire.headers, l) && KeepsProperties(d, s)
  }

  /** A broker delivery has one conversion, so the iteration order of its table leaves no trace. */
  lemma DeliveryUnique(a: Delivery, b: Delivery, s: Incoming, l: Limits)
    requires IsDeliveryOf(a, s, l) && IsDeliveryOf(b, s, l)
    ensures a == b
  {
    HeaderListUnique(a.headers, b.headers, s.wire.headers);
  }

  datatype TableContents =
    TableContents(headers: seq<Header>, acquired: Option<UInt64>, count: Option<UInt64>, deaths: seq<Death>)

  /** The running budget test accepts exactly the tables whose total fits. */
  method ReadTable(t: FieldTable, order: seq<Bytes>, l: Limits) returns (r: Option<TableContents>)
    requires IsOrder(order, t) && ValidLimits(l)
    ensures r.Some? <==> AcceptableTable(t, l)
    ensures r.Some? ==>
      && IsHeaderList(r.value.headers, t)
      && HeadersBytes(r.value.headers) == Total(t, AppKeys(t))
      && r.value.acquired == CounterOf(t, AcquiredCountKey) && r.value.count == CounterOf(t, DeliveryCountKey)
      && r.value.deaths == DeathsOf(Records(t), l)
  {
    if !ValidToken(t) {
      return None;
    }
    var admitted := AdmittedHeaderCount(t, order, l);
    if admitted.None? {
      return None;
    }
    var headers, used := MaterialisedHeaders(t, order, l);
    var summary := DeathSummaryBytes(t, l);
    if summary.None? || summary.value > l.maxHeaderBytes - used {
      return None;
    }
    used := used + summary.value;
    if !ValidCounter(t, AcquiredCountKey) || !ValidCounter(t, DeliveryCountKey) {
      return None;
    }
    if AcquiredCountKey in t {
      used := used + 8;
      if used > l.maxHeaderBytes {
        return None;
      }
    }
    if DeliveryCountKey in t {
      used := used + 8;
      if used > l.maxHeaderBytes {
        return None;
      }
    }
    if DeathKey in t && (!t[DeathKey].List? || |t[DeathKey].items| > MaxDeathRecords) {
      return None;
    }
    var deaths := ReadRecords(Records(t), l, used);
    if deaths.None? {
      return None;
    }
    r := Some(TableContents(headers, CounterOf(t, AcquiredCountKey), CounterOf(t, DeliveryCountKey), deaths.value));
  }

  /** deliveryFromAMQP, for any iteration order of the header table. */
  method DeliveryFromAMQP(s: Incoming, p: ConsumerPolicy, order: seq<Bytes>) returns (r: Option<Delivery>)
    requires IsOrder(order, s.wire.headers)
    ensures r.Some? <==> Acceptable(s, p)
    ensures r.Some? ==> IsDeliveryOf(r.value, s, p.limits)
  {
    var w, l := s.wire, p.limits;
    if !p.rest || !ValidLimits(l) || !AcceptableFrame(s, l) {
      return None;
    }
    var values := [w.messageId, w.correlationId, w.contentType, w.contentEncoding, w.replyTo, w.kind, w.userId, w.appId];
    for i := 0 to |values|
      invariant forall j | 0 <= j < i :: ValidProperty(values[j], l)
    {
      if !ValidProperty(values[i], l) {
        return None;
      }
    }
    assert ValidProperty(values[0], l) && ValidProperty(values[1], l) && ValidProperty(values[2], l) &&
           ValidProperty(values[3], l) && ValidProperty(values[4], l) && ValidProperty(values[5], l) &&
           ValidProperty(values[6], l) && ValidProperty(values[7], l);
    if w.timestamp.At? && w.timestamp.unixNanos < 0 {
      return None;
    }
    var expiration := ParseExpiration(w.expiration);
    if expiration.None? {
      return None;
    }
    var table := ReadTable(w.headers, order, l);
    if table.None? || w.mode.OtherMode? {
      return None;
    }
    var mode := Transient;
    if w.mode.Persistent? { mode := Persistent; }
    var c := table.value;
    r := Some(Delivery(w.body, c.headers, w.messageId, w.correlationId, w.contentType, w.contentEncoding, w.replyTo,
                       w.kind, w.userId, w.appId, w.timestamp, expiration.value, w.priority, mode, s.consumerTag,
                       s.exchange, s.routingKey, s.redelivered, c.acquired, c.count, c.deaths));
  }

  // ---------------------------------------------------------------- the budget over the delivered value

  function DeathsBytes(ds: seq<Death>): nat {
    if ds == [] then 0 else DeathsBytes(ds[..|ds| - 1]) + DeathBytes(ds[|ds| - 1])
  }

  lemma {:induction false} DeathsWithinCost(vs: seq<Field>, l: Limits)
    requires ValidRecords(vs, l)
    ensures DeathsBytes(DeathsOf(vs, l)) <= RecordsCost(vs, l)
  {
    if vs != [] {
      var n := |vs| - 1;
      DeathsWithinCost(vs[..n], l);
      assert DeathsOf(vs, l)[..n] == DeathsOf(vs[..n], l);
    }
  }

  function CountersKept(d: Delivery): nat {
    (if d.acquiredCount.Some? then 8 else 0) + (if d.deliveryCount.Some? then 8 else 0)
  }

  /** A list without repeated keys costs what the set of its keys costs. */
  lemma {:induction false} ListBytes(hs: seq<Header>, t: FieldTable, ks: set<Bytes>)
    requires DistinctKeys(hs) && forall i | 0 <= i < |hs| :: HeaderBytes(hs[i]) == Cost(t, hs[i].key)
    requires forall k :: k in ks <==> exists i | 0 <= i < |hs| :: hs[i].key == k
    ensures HeadersBytes(hs) == Total(t, ks) && |hs| == |ks|
  {
    if hs == [] {
      assert ks == {};
    } else {
      var n := |hs| - 1;
      var k := hs[n].key;
      assert k in ks;
      forall x ensures x in ks - {k} <==> exists i | 0 <= i < n :: hs[..n][i].key == x {
        if x in ks - {k} {
          var i :| 0 <= i < |hs| && hs[i].key == x;
          assert hs[..n][i].key == x;
        }
      }
      ListBytes(hs[..n], t, ks - {k});
      TotalRemove(t, ks, k);
    }
  }

  lemma IncreasingIsDistinct(hs: seq<Header>)
    requires KeysIncrease(hs)
    ensures DistinctKeys(hs)
  {
    forall i, j | 0 <= i < j < |hs| ensures hs[i].key != hs[j].key {
      LessIrreflexive(hs[j].key);
    }
  }

  lemma HeaderListCost(hs: seq<Header>, t: FieldTable)
    requires IsHeaderList(hs, t)
    ensures HeadersBytes(hs) == Total(t, AppKeys(t)) && |hs| == |AppKeys(t)|
  {
    forall k ensures k in AppKeys(t) <==> exists i | 0 <= i < |hs| :: hs[i].key == k {
      assert k in AppKeys(t) <==> IsAppKey(t, k);
    }
    IncreasingIsDistinct(hs);
    ListBytes(hs, t, AppKeys(t));
  }

  /** Headers, death summaries, counters and death records of a delivery together stay within one limit. */
  lemma MetadataWithinBudget(d: Delivery, s: Incoming, p: ConsumerPolicy)
    requires Acceptable(s, p) && IsDeliveryOf(d, s, p.limits)
    ensures HeadersBytes(d.headers) + SummaryBytes(s.wire.headers, SummaryFields) + CountersKept(d) +
            DeathsBytes(d.deaths) <= p.limits.maxHeaderBytes
    ensures |d.headers| <= p.limits.maxEntries
  {
    var t := s.wire.headers;
    DeathsWithinCost(Records(t), p.limits);
    HeaderListCost(d.headers, t);
  }
}
