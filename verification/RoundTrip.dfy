/** A publication carried unchanged by the broker and converted by a consumer with the same limits. */
module RoundTrip {
  import opened Basics
  import opened Text
  import opened Messages
  import opened DeliveryHeaders
  import opened Deliveries

  /** A header as delivery returns it: empty and nil byte strings are the same value. */
  function Canonical(h: Header): Header {
    if h.kind.KBytes? then h.(blob := OwnedBytes(BlobOf(h))) else h
  }

  /** Converting the encoded field gives the canonical header back, at the same cost. */
  lemma HeaderRoundTrip(h: Header)
    requires WellShaped(h)
    ensures FieldOf(h).Some? && Supported(FieldOf(h).value)
    ensures Converted(h.key, FieldOf(h).value) == Canonical(h)
    ensures HeaderBytes(h) == |h.key| + Size(FieldOf(h).value)
  {
  }

  /** The application keys of an encoded table are the publication's header keys. */
  lemma EncodedKeys(t: FieldTable, hs: seq<Header>, token: Bytes, l: Limits, k: Bytes)
    requires IsHeaderTable(t, hs, token) && ValidHeaders(hs, l)
    ensures k in AppKeys(t) <==> exists i | 0 <= i < |hs| :: hs[i].key == k
  {
    if i :| 0 <= i < |hs| && hs[i].key == k {
      assert ValidHeader(hs[i], l);
    }
  }

  lemma EncodedEntry(t: FieldTable, hs: seq<Header>, token: Bytes, l: Limits, i: nat)
    requires IsHeaderTable(t, hs, token) && ValidHeaders(hs, l) && i < |hs|
    ensures AdmissibleEntry(t, hs[i].key, l) && HeaderBytes(hs[i]) == Cost(t, hs[i].key)
    ensures Converted(hs[i].key, t[hs[i].key]) == Canonical(hs[i])
  {
    assert ValidHeader(hs[i], l);
    HeaderRoundTrip(hs[i]);
  }

  lemma EncodedAdmissible(t: FieldTable, hs: seq<Header>, token: Bytes, l: Limits)
    requires IsHeaderTable(t, hs, token) && ValidHeaders(hs, l)
    ensures Admissible(t, l) && Total(t, AppKeys(t)) == HeadersBytes(hs) && |AppKeys(t)| == |hs|
  {
    forall k ensures k in AppKeys(t) <==> exists i | 0 <= i < |hs| :: hs[i].key == k {
      EncodedKeys(t, hs, token, l, k);
    }
    forall i: nat | i < |hs| ensures AdmissibleEntry(t, hs[i].key, l) && HeaderBytes(hs[i]) == Cost(t, hs[i].key) {
      EncodedEntry(t, hs, token, l, i);
    }
    ListBytes(hs, t, AppKeys(t));
  }

  /** No broker metadata is in an encoded table, and it costs nothing. */
  lemma EncodedHasNoBrokerKeys(t: FieldTable, hs: seq<Header>, token: Bytes, l: Limits, k: Bytes)
    requires IsHeaderTable(t, hs, token) && ValidHeaders(hs, l) && IsBrokerKey(k)
    ensures k !in t
  {
    TokenKeyIsNoBrokerKey();
    assert forall i | 0 <= i < |hs| :: ValidHeader(hs[i], l) && hs[i].key != k;
  }

  lemma {:induction false} NoSummary(t: FieldTable, fs: seq<SummaryField>)
    requires forall i | 0 <= i < |fs| :: fs[i].key !in t
    ensures SummaryBytes(t, fs) == 0
  {
    if fs != [] {
      NoSummary(t, fs[..|fs| - 1]);
    }
  }

  lemma NoBrokerMetadata(t: FieldTable, l: Limits)
    requires forall k | IsBrokerKey(k) :: k !in t
    ensures ValidSummaries(t, SummaryFields, l) && SummaryBytes(t, SummaryFields) == 0
    ensures AcquiredCountKey !in t && DeliveryCountKey !in t && DeathKey !in t
  {
    assert forall i | 0 <= i < |SummaryFields| :: IsBrokerKey(SummaryFields[i].key);
    NoSummary(t, SummaryFields);
    assert IsBrokerKey(AcquiredCountKey) && IsBrokerKey(DeliveryCountKey) && IsBrokerKey(DeathKey);
  }

  lemma EncodedTableAcceptable(t: FieldTable, hs: seq<Header>, token: Bytes, l: Limits)
    requires IsHeaderTable(t, hs, token) && ValidHeaders(hs, l) && !InvalidIdentity(token, MaxTokenBytes)
    ensures AcceptableTable(t, l) && MetadataBytes(t, l) == HeadersBytes(hs)
    ensures CounterOf(t, AcquiredCountKey).None? && CounterOf(t, DeliveryCountKey).None? && Records(t) == []
  {
    EncodedAdmissible(t, hs, token, l);
    forall k | IsBrokerKey(k) ensures k !in t {
      EncodedHasNoBrokerKeys(t, hs, token, l, k);
    }
    NoBrokerMetadata(t, l);
  }

  /** The broker routes the publication as it was sent and adds facts of its own. */
  ghost predicate Carried(s: Incoming, p: Publication, token: Bytes, l: Limits)
    requires ValidPublication(p, l)
  {
    && IsPublishing(s.wire, p.message, p.mode, token)
    && s.exchange == p.exchange && s.routingKey == p.routingKey
    && s.deliveryTag > 0 && !InvalidIdentity(s.consumerTag, l.maxName)
  }

  /**
    A valid publication is accepted on delivery if and only if its exchange name has no control character: publishing
    refuses only NUL, CR and LF there, delivery refuses them all.
   */
  lemma DeliveredIff(p: Publication, l: Limits, session: Bytes, sequence: nat, s: Incoming)
    requires ValidPublication(p, l) && !InvalidIdentity(session, MaxSessionBytes) && sequence <= MaxSequence
    requires Carried(s, p, Token(session, sequence), l)
    ensures Acceptable(s, ConsumerPolicy(l, true)) <==> !ContainsControl(p.exchange)
  {
    TokenIsIdentity(session, sequence);
    EncodedTableAcceptable(s.wire.headers, p.message.headers, Token(session, sequence), l);
    ExpirationRoundTrip(p.message.expiration);
  }

  /** "a", tab, "b". */
  const TabName: Bytes := [97, 9, 98]

  /** An otherwise plain publication to an exchange with a tab inside its name. */
  const TabPublication: Publication :=
    Publication(TabName, Direct, [], false, Transient,
                Message([], [109], [], [], [], [], [], [], ZeroTime, None, None, []))

  /** What the broker delivers of it. */
  function TabDelivery(token: Bytes): Incoming {
    Incoming(1, [99], false, TabName, [],
             Publishing(map[TokenKey := Text(token)], [], [], Transient, 0, [], [], [], [109], ZeroTime, [], [], [], []))
  }

  lemma LetterIsIdentity(b: Byte, maximum: int)
    requires 97 <= b <= 122 && maximum >= 1
    ensures !InvalidIdentity([b], maximum) && !ContainsControl([b])
  {
    var s: Bytes := [b];
    forall n | 1 <= n <= 3 && n <= |s| ensures !IsSpace(s[..n]) {
      assert s[..n][0] == b;
    }
    forall n: nat | 1 <= n <= 3 && n <= |s| ensures !IsSpace(Last(s, n)) {
      assert Last(s, n)[n - 1] == b;
    }
  }

  lemma TabNameIsIdentity(maximum: int)
    requires maximum >= 3
    ensures !InvalidIdentity(TabName, maximum) && ContainsControl(TabName)
  {
    assert IsControl(TabName[1]);
    forall n | 1 <= n <= 3 ensures !IsSpace(TabName[..n]) {
      assert TabName[..n][0] == 97;
    }
    forall n: nat | 1 <= n <= 3 ensures !IsSpace(Last(TabName, n)) {
      assert Last(TabName, n)[n - 1] == 98;
    }
  }

  /** A valid publication, carried unchanged, that delivery refuses under the same limits. */
  lemma TabInExchange(l: Limits, session: Bytes, sequence: nat)
    requires ValidLimits(l) && l.maxName >= 3
    requires !InvalidIdentity(session, MaxSessionBytes) && sequence <= MaxSequence
    ensures ValidPublication(TabPublication, l)
    ensures Carried(TabDelivery(Token(session, sequence)), TabPublication, Token(session, sequence), l)
    ensures !Acceptable(TabDelivery(Token(session, sequence)), ConsumerPolicy(l, true))
  {
    TabNameIsIdentity(l.maxName);
    LetterIsIdentity(109, l.maxName);
    LetterIsIdentity(99, l.maxName);
    assert ValidPublication(TabPublication, l);
    DeliveredIff(TabPublication, l, session, sequence, TabDelivery(Token(session, sequence)));
  }

  predicate AllListed(sent: seq<Header>, hs: seq<Header>) {
    forall i | 0 <= i < |sent| :: Canonical(sent[i]) in hs
  }

  predicate AllSent(hs: seq<Header>, sent: seq<Header>) {
    forall i | 0 <= i < |hs| :: exists j | 0 <= j < |sent| :: hs[i] == Canonical(sent[j])
  }

  /** The same headers, each once, in canonical form and sorted by key. */
  predicate SameHeaders(hs: seq<Header>, sent: seq<Header>) {
    KeysIncrease(hs) && |hs| == |sent| && AllListed(sent, hs) && AllSent(hs, sent)
  }

  lemma SentIsListed(hs: seq<Header>, t: FieldTable, sent: seq<Header>, token: Bytes, l: Limits, i: nat)
    requires IsHeaderTable(t, sent, token) && ValidHeaders(sent, l) && IsHeaderList(hs, t) && i < |sent|
    ensures Canonical(sent[i]) in hs
  {
    EncodedEntry(t, sent, token, l, i);
    EncodedKeys(t, sent, token, l, sent[i].key);
    assert IsAppKey(t, sent[i].key);
    var j :| 0 <= j < |hs| && hs[j].key == sent[i].key;
    assert hs[j] == Canonical(sent[i]);
  }

  lemma ListedWasSent(hs: seq<Header>, t: FieldTable, sent: seq<Header>, token: Bytes, l: Limits, i: nat)
    requires IsHeaderTable(t, sent, token) && ValidHeaders(sent, l) && IsHeaderList(hs, t) && i < |hs|
    ensures exists j | 0 <= j < |sent| :: hs[i] == Canonical(sent[j])
  {
    EncodedKeys(t, sent, token, l, hs[i].key);
    assert hs[i].key in AppKeys(t);
    var j: nat :| j < |sent| && sent[j].key == hs[i].key;
    EncodedEntry(t, sent, token, l, j);
    assert hs[i] == Canonical(sent[j]);
  }

  lemma AllSurvive(hs: seq<Header>, t: FieldTable, sent: seq<Header>, token: Bytes, l: Limits)
    requires IsHeaderTable(t, sent, token) && ValidHeaders(sent, l) && IsHeaderList(hs, t)
    ensures AllListed(sent, hs)
  {
    forall i | 0 <= i < |sent| ensures Canonical(sent[i]) in hs {
      SentIsListed(hs, t, sent, token, l, i);
    }
  }

  lemma NoneAdded(hs: seq<Header>, t: FieldTable, sent: seq<Header>, token: Bytes, l: Limits)
    requires IsHeaderTable(t, sent, token) && ValidHeaders(sent, l) && IsHeaderList(hs, t)
    ensures AllSent(hs, sent)
  {
    forall i | 0 <= i < |hs| ensures exists j | 0 <= j < |sent| :: hs[i] == Canonical(sent[j]) {
      ListedWasSent(hs, t, sent, token, l, i);
    }
  }

  lemma HeadersSurvive(hs: seq<Header>, t: FieldTable, sent: seq<Header>, token: Bytes, l: Limits)
    requires IsHeaderTable(t, sent, token) && ValidHeaders(sent, l) && IsHeaderList(hs, t)
    ensures SameHeaders(hs, sent)
  {
    AllSurvive(hs, t, sent, token, l);
    NoneAdded(hs, t, sent, token, l);
    EncodedAdmissible(t, sent, token, l);
    HeaderListCost(hs, t);
  }

  ghost predicate SameProperties(d: Delivery, p: Publication) {
    var m := p.message;
    && d.body == m.body && d.messageId == m.messageId && d.correlationId == m.correlationId
    && d.contentType == m.contentType && d.contentEncoding == m.contentEncoding && d.replyTo == m.replyTo
    && d.kind == m.kind && d.appId == m.appId && d.userId == [] && d.timestamp == m.timestamp
    && d.expiration == m.expiration && d.priority == (if m.priority.Some? then m.priority.value else 0)
    && d.mode == p.mode && d.exchange == p.exchange && d.routingKey == p.routingKey
  }

  ghost predicate NoBrokerFacts(d: Delivery) {
    d.acquiredCount.None? && d.deliveryCount.None? && d.deaths == []
  }

  /** What the consumer sees of the publication. */
  ghost predicate SameMessage(d: Delivery, p: Publication) {
    SameProperties(d, p) && SameHeaders(d.headers, p.message.headers) && NoBrokerFacts(d)
  }

  lemma PropertiesSurvive(p: Publication, l: Limits, token: Bytes, s: Incoming, d: Delivery)
    requires ValidPublication(p, l) && Carried(s, p, token, l) && KeepsProperties(d, s)
    ensures SameProperties(d, p)
  {
    ExpirationRoundTrip(p.message.expiration);
  }

  lemma TableSurvives(p: Publication, l: Limits, token: Bytes, t: FieldTable, d: Delivery)
    requires ValidHeaders(p.message.headers, l) && !InvalidIdentity(token, MaxTokenBytes)
    requires IsHeaderTable(t, p.message.headers, token) && KeepsTable(d, t, l)
    ensures SameHeaders(d.headers, p.message.headers) && NoBrokerFacts(d)
    ensures forall i | 0 <= i < |d.headers| :: d.headers[i].key != TokenKey
  {
    EncodedTableAcceptable(t, p.message.headers, token, l);
    HeadersSurvive(d.headers, t, p.message.headers, token, l);
    assert d.deaths == [];
  }

  /** Any conversion of the carried publication is the publication, with headers sorted and the token hidden. */
  lemma ContentsSurvive(p: Publication, l: Limits, session: Bytes, sequence: nat, s: Incoming, d: Delivery)
    requires ValidPublication(p, l) && !InvalidIdentity(session, MaxSessionBytes) && sequence <= MaxSequence
    requires Carried(s, p, Token(session, sequence), l) && IsDeliveryOf(d, s, l)
    ensures SameMessage(d, p)
    ensures forall i | 0 <= i < |d.headers| :: d.headers[i].key != TokenKey
  {
    var token := Token(session, sequence);
    TokenIsIdentity(session, sequence);
    PropertiesSurvive(p, l, token, s, d);
    TableSurvives(p, l, token, s.wire.headers, d);
  }

  /** Publish, carry, deliver: nothing is lost for every valid publication with a control-free exchange name. */
  method PublishThenDeliver(p: Publication, l: Limits, session: Bytes, sequence: nat, tag: UInt64, consumer: Bytes,
                            redelivered: bool, order: seq<Bytes>, wire: Publishing)
    returns (r: Option<Delivery>)
    requires ValidPublication(p, l) && !InvalidIdentity(session, MaxSessionBytes) && sequence <= MaxSequence
    requires IsPublishing(wire, p.message, p.mode, Token(session, sequence)) && IsOrder(order, wire.headers)
    requires tag > 0 && !InvalidIdentity(consumer, l.maxName)
    ensures r.Some? <==> !ContainsControl(p.exchange)
    ensures r.Some? ==> SameMessage(r.value, p) && r.value.consumer == consumer && r.value.redelivered == redelivered
    ensures r.Some? ==> forall i | 0 <= i < |r.value.headers| :: r.value.headers[i].key != TokenKey
  {
    var s := Incoming(tag, consumer, redelivered, p.exchange, p.routingKey, wire);
    DeliveredIff(p, l, session, sequence, s);
    r := DeliveryFromAMQP(s, ConsumerPolicy(l, true), order);
    if r.Some? {
      ContentsSurvive(p, l, session, sequence, s, r.value);
    }
  }
}
