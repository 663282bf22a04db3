/** AbstractDispatcher: the machinery every dispatch strategy shares —
    inbound envelope construction, outbound routing by payload type through
    the write-topic index, the list of created subscriptions and their
    best-effort drain. The NATS connection is the Transport class below. */
module Dispatch {
  import opened Wrappers
  import opened Model
  import opened Payload
  import opened Metrics

  /** One transport publish: subject, headers, body. */
  datatype Publication = Publication(topic: string, headers: NatsHeaders, data: Bytes)

  /** A NATS dispatcher with its one subscription: the binding it serves, the
      queue group it subscribed with (None: subscribed without one) and the
      handler bean whose callback it runs. */
  datatype Subscription = Subscription(binding: TopicBinding, queueGroup: Option<string>, handler: string)

  /** One drain call on a subscription, and whether it completed or threw. */
  datatype DrainCall = DrainCall(subscription: Subscription, completed: bool)

  /** An exception that escapes a message callback to the transport's own thread. */
  datatype Escape = HeadersMissing | EnvelopeRejected(error: BuildError) | NullResultList

  /** How a message callback ended. */
  datatype CallbackEnd = Completed | Escaped(reason: Escape)

  /** What a callback leaves in the correlation-id slot of the logging context. */
  datatype ContextAfter = Untouched | Holds(correlationId: Option<string>)

  function ContextValue(c: ContextAfter, before: Option<string>): Option<string>
  {
    match c
    case Untouched => before
    case Holds(v) => v
  }

  /** The observable effect of one message callback or supplier step: how it
      ended, the counter increments it made in order, the transport
      publishes it made in order, and the logging context it leaves. */
  datatype Effect = Effect(end: CallbackEnd, keys: seq<string>, published: seq<Publication>, context: ContextAfter)

  /** The connection: its log of publishes, subscriptions and drains. When
      `failing` is set every publish and every drain throws. */
  class Transport {
    const failing: bool
    var published: seq<Publication>
    var subscriptions: seq<Subscription>
    var drains: seq<DrainCall>

    constructor (failing: bool)
      ensures this.failing == failing && published == [] && subscriptions == [] && drains == []
    {
      this.failing := failing;
      published, subscriptions, drains := [], [], [];
    }

    method Publish(topic: string, headers: NatsHeaders, data: Bytes) returns (ok: bool)
      modifies this
      ensures ok == !failing
      ensures published == if ok then old(published) + [Publication(topic, headers, data)] else old(published)
      ensures subscriptions == old(subscriptions) && drains == old(drains)
    {
      ok := !failing;
      if ok {
        published := published + [Publication(topic, headers, data)];
      }
    }

    method Subscribe(s: Subscription)
      modifies this
      ensures subscriptions == old(subscriptions) + [s]
      ensures published == old(published) && drains == old(drains)
    {
      subscriptions := subscriptions + [s];
    }

    method Drain(s: Subscription) returns (ok: bool)
      modifies this
      ensures ok == !failing
      ensures drains == old(drains) + [DrainCall(s, ok)]
      ensures published == old(published) && subscriptions == old(subscriptions)
    {
      ok := !failing;
      drains := drains + [DrainCall(s, ok)];
    }
  }

  /** StringUtils.isEmpty decides whether a binding subscribes with its queue group. */
  function QueueGroupArgument(b: TopicBinding): Option<string>
  {
    if b.queueGroup.None? || b.queueGroup.value == "" then None else b.queueGroup
  }

  /** The subscriptions that registering a handler on the bindings creates, in binding order. */
  function SubscriptionsFor(bindings: seq<TopicBinding>, handler: string): (subs: seq<Subscription>)
    ensures |subs| == |bindings|
    ensures forall i :: 0 <= i < |bindings| ==>
              && subs[i].binding == bindings[i] && subs[i].handler == handler
              && (subs[i].queueGroup.Some? <==> bindings[i].queueGroup.Some? && bindings[i].queueGroup.value != "")
              && (subs[i].queueGroup.Some? ==> subs[i].queueGroup == bindings[i].queueGroup)
  {
    if bindings == [] then []
    else
      var last := bindings[|bindings| - 1];
      SubscriptionsFor(bindings[..|bindings| - 1], handler) + [Subscription(last, QueueGroupArgument(last), handler)]
  }

  /** The transport headers built from the envelope headers named in ks,
      visited in that order, each added under its wire key. */
  function HeadersOver(hs: map<PayloadHeader, string>, ks: seq<PayloadHeader>): NatsHeaders
  {
    if ks == [] then map[]
    else
      var before, k := HeadersOver(hs, ks[..|ks| - 1]), ks[|ks| - 1];
      if k in hs then AddValue(before, WireKey(k), hs[k]) else before
  }

  /** toHeaders as a value: every envelope header visited once. */
  function WireHeaders(hs: map<PayloadHeader, string>): NatsHeaders
  {
    HeadersOver(hs, AllHeaders)
  }

  /** Over distinct header names, each present header sits under its own
      wire key with its one value, and nothing else is there. */
  lemma {:induction false} HeadersOverMeaning(hs: map<PayloadHeader, string>, ks: seq<PayloadHeader>)
    requires forall i, j :: 0 <= i < j < |ks| ==> ks[i] != ks[j]
    ensures forall k :: k in hs && k in ks ==> WireKey(k) in HeadersOver(hs, ks) && HeadersOver(hs, ks)[WireKey(k)] == [hs[k]]
    ensures forall s :: s in HeadersOver(hs, ks) ==> exists k :: k in hs && k in ks && WireKey(k) == s
  {
    if ks != [] {
      var init, last := ks[..|ks| - 1], ks[|ks| - 1];
      HeadersOverMeaning(hs, init);
      var before := HeadersOver(hs, init);
      assert last !in init;
      if last in hs {
        assert WireKey(last) !in before by {
          if WireKey(last) in before {
            var k :| k in hs && k in init && WireKey(k) == WireKey(last);
            WireKeyInjective(k, last);
          }
        }
        forall k | k in hs && k in init ensures WireKey(k) != WireKey(last) {
          if WireKey(k) == WireKey(last) { WireKeyInjective(k, last); }
        }
      }
    }
  }

  /** The transport headers of an envelope: a key is there exactly when its
      envelope header is, with that header's value as its only value. */
  lemma WireHeadersMeaning(hs: map<PayloadHeader, string>)
    ensures forall k :: WireKey(k) in WireHeaders(hs) <==> k in hs
    ensures forall k :: k in hs ==> WireHeaders(hs)[WireKey(k)] == [hs[k]]
    ensures forall s :: s in WireHeaders(hs) ==> exists k :: k in hs && WireKey(k) == s
  {
    HeadersOverMeaning(hs, AllHeaders);
    forall k ensures k in AllHeaders { AllHeadersComplete(k); }
    forall k | WireKey(k) in WireHeaders(hs) ensures k in hs {
      var k' :| k' in hs && k' in AllHeaders && WireKey(k') == WireKey(k);
      WireKeyInjective(k', k);
    }
  }

  /** The topic the write-topic index assigns to an envelope, by its payload type. */
  function Route(index: map<string, string>, w: Wrapper<Bytes>): Option<string>
  {
    var t := w.GetHeader(PAYLOAD_TYPE);
    if t.Some? && t.value in index then Some(index[t.value]) else None
  }

  /** The transport publishes one `publish` call makes. */
  function Emit(index: map<string, string>, failing: bool, w: Wrapper<Bytes>): seq<Publication>
  {
    match Route(index, w)
    case None => []
    case Some(topic) => if failing then [] else [Publication(topic, WireHeaders(w.payloadHeaders), w.payload)]
  }

  /** The sent-counter increments one `publish` call makes. */
  function SentKeys(index: map<string, string>, failing: bool, w: Wrapper<Bytes>): seq<string>
  {
    match Route(index, w)
    case None => []
    case Some(topic) => if failing then [] else [CounterKey(SENT, topic)]
  }

  /** The publishes of one `publish` call per envelope, in list order. */
  function EmitAll(index: map<string, string>, failing: bool, ws: seq<Wrapper<Bytes>>): seq<Publication>
  {
    if ws == [] then [] else EmitAll(index, failing, ws[..|ws| - 1]) + Emit(index, failing, ws[|ws| - 1])
  }

  function SentKeysAll(index: map<string, string>, failing: bool, ws: seq<Wrapper<Bytes>>): seq<string>
  {
    if ws == [] then [] else SentKeysAll(index, failing, ws[..|ws| - 1]) + SentKeys(index, failing, ws[|ws| - 1])
  }

  lemma PrefixStep(index: map<string, string>, failing: bool, ws: seq<Wrapper<Bytes>>, i: nat)
    requires i < |ws|
    ensures EmitAll(index, failing, ws[..i + 1]) == EmitAll(index, failing, ws[..i]) + Emit(index, failing, ws[i])
    ensures SentKeysAll(index, failing, ws[..i + 1]) == SentKeysAll(index, failing, ws[..i]) + SentKeys(index, failing, ws[i])
  {
    assert ws[..i + 1][..i] == ws[..i];
  }

  /** Publishing two lists one after the other is publishing their concatenation. */
  lemma {:induction false} EmitAllAppend(index: map<string, string>, failing: bool, a: seq<Wrapper<Bytes>>, b: seq<Wrapper<Bytes>>)
    ensures EmitAll(index, failing, a + b) == EmitAll(index, failing, a) + EmitAll(index, failing, b)
    ensures SentKeysAll(index, failing, a + b) == SentKeysAll(index, failing, a) + SentKeysAll(index, failing, b)
  {
    if b == [] {
      assert a + b == a;
    } else {
      var init, last := b[..|b| - 1], b[|b| - 1];
      assert (a + b)[..|a + b| - 1] == a + init;
      assert (a + b)[|a + b| - 1] == last;
      EmitAllAppend(index, failing, a, init);
      assert EmitAll(index, failing, a + b) == EmitAll(index, failing, a + init) + Emit(index, failing, last);
      assert SentKeysAll(index, failing, a + b) == SentKeysAll(index, failing, a + init) + SentKeys(index, failing, last);
      AppendAssoc(EmitAll(index, failing, a), EmitAll(index, failing, init), Emit(index, failing, last));
      AppendAssoc(SentKeysAll(index, failing, a), SentKeysAll(index, failing, init), SentKeys(index, failing, last));
    }
  }

  /** The logs after one more publish call are the logs of the one-longer prefix. */
  lemma LogStep(index: map<string, string>, failing: bool, enabled: bool, published0: seq<Publication>,
                increments0: seq<string>, ws: seq<Wrapper<Bytes>>, i: nat)
    requires i < |ws|
    ensures published0 + EmitAll(index, failing, ws[..i]) + Emit(index, failing, ws[i])
            == published0 + EmitAll(index, failing, ws[..i + 1])
    ensures increments0 + Gated(enabled, SentKeysAll(index, failing, ws[..i])) + Gated(enabled, SentKeys(index, failing, ws[i]))
            == increments0 + Gated(enabled, SentKeysAll(index, failing, ws[..i + 1]))
  {
    PrefixStep(index, failing, ws, i);
    GatedAppend(enabled, SentKeysAll(index, failing, ws[..i]), SentKeys(index, failing, ws[i]));
    AppendAssoc(published0, EmitAll(index, failing, ws[..i]), Emit(index, failing, ws[i]));
    AppendAssoc(increments0, Gated(enabled, SentKeysAll(index, failing, ws[..i])), Gated(enabled, SentKeys(index, failing, ws[i])));
  }

  /** An envelope whose payload type has no write topic is dropped silently:
      no publish and no sent increment. */
  lemma UnroutedIsDropped(index: map<string, string>, failing: bool, w: Wrapper<Bytes>)
    requires w.GetHeader(PAYLOAD_TYPE).None? || w.GetHeader(PAYLOAD_TYPE).value !in index
    ensures Emit(index, failing, w) == [] && SentKeys(index, failing, w) == []
  {
  }

  /** Every transport publish is followed by exactly one sent increment for
      its topic, and a failed publish counts nothing. */
  lemma {:induction false} SentMatchesPublished(index: map<string, string>, failing: bool, ws: seq<Wrapper<Bytes>>)
    ensures |SentKeysAll(index, failing, ws)| == |EmitAll(index, failing, ws)|
    ensures forall i :: 0 <= i < |EmitAll(index, failing, ws)| ==>
              SentKeysAll(index, failing, ws)[i] == CounterKey(SENT, EmitAll(index, failing, ws)[i].topic)
    ensures failing ==> EmitAll(index, failing, ws) == [] && SentKeysAll(index, failing, ws) == []
  {
    if ws != [] {
      SentMatchesPublished(index, failing, ws[..|ws| - 1]);
    }
  }

  /** When every envelope is routed and the transport works, each envelope
      is published once, to its write topic, in list order. */
  lemma {:induction false} EmitAllInOrder(index: map<string, string>, ws: seq<Wrapper<Bytes>>)
    requires forall i :: 0 <= i < |ws| ==> Route(index, ws[i]).Some?
    ensures |EmitAll(index, false, ws)| == |ws|
    ensures forall i :: 0 <= i < |ws| ==>
              EmitAll(index, false, ws)[i] == Publication(Route(index, ws[i]).value, WireHeaders(ws[i].payloadHeaders), ws[i].payload)
  {
    if ws != [] {
      EmitAllInOrder(index, ws[..|ws| - 1]);
    }
  }

  /** The builder map extractAndLogIncomingMessage fills: the binding's
      message type and the incoming correlation id and timestamp (null when absent). */
  function InboundHeaders(messageType: string, h: NatsHeaders): BuilderHeaders
  {
    map[PAYLOAD_TYPE := Some(messageType),
        CORRELATION_ID := GetFirst(h, WireKey(CORRELATION_ID)),
        CREATION_TS := GetFirst(h, WireKey(CREATION_TS))]
  }

  /** The inbound envelope: the message body, the binding's declared message
      type (never the incoming header) and the incoming correlation id and
      timestamp when present, fresh ones otherwise. A blank message type
      makes build throw. */
  function Inbound(messageType: string, data: Bytes, h: NatsHeaders, uuid: string, now: nat): (r: Result<Wrapper<Bytes>, Escape>)
    ensures r.Err? <==> IsBlank(messageType)
    ensures r.Err? ==> r.error == EnvelopeRejected(MissingRequiredHeader(PAYLOAD_TYPE))
    ensures r.Ok? ==> r.value.payload == data && WellFormed(r.value)
    ensures r.Ok? ==> r.value.payloadHeaders[PAYLOAD_TYPE] == messageType
    ensures r.Ok? ==> r.value.payloadHeaders[CORRELATION_ID] ==
                      match GetFirst(h, WireKey(CORRELATION_ID)) case Some(c) => c case None => uuid
    ensures r.Ok? ==> r.value.payloadHeaders[CREATION_TS] ==
                      match GetFirst(h, WireKey(CREATION_TS)) case Some(t) => t case None => DecimalString(now)
  {
    match BuildResult(Some(data), InboundHeaders(messageType, h), uuid, now)
    case Ok(w) => Ok(w)
    case Err(e) => Err(EnvelopeRejected(e))
  }

  /** The drain calls shutdown makes on a working or failing transport. */
  function DrainCallsFor(subs: seq<Subscription>, failing: bool): (calls: seq<DrainCall>)
    ensures |calls| == |subs|
    ensures forall i :: 0 <= i < |subs| ==> calls[i] == DrainCall(subs[i], !failing)
  {
    if subs == [] then [] else DrainCallsFor(subs[..|subs| - 1], failing) + [DrainCall(subs[|subs| - 1], !failing)]
  }

  class DispatchBase {
    const transport: Transport
    const metrics: MetricsRecorder
    /** writeTopicMap: message type to topic, fixed at construction. */
    const writeTopicMap: map<string, string>
    /** The dispatchers created so far, in creation order. */
    var dispatchers: seq<Subscription>
    /** The correlation id slot of the logging context (MDC). */
    var mdc: Option<string>

    constructor (transport: Transport, metrics: MetricsRecorder, writeTopicMap: map<string, string>)
      ensures this.transport == transport && this.metrics == metrics && this.writeTopicMap == writeTopicMap
      ensures dispatchers == [] && mdc == None
    {
      this.transport := transport;
      this.metrics := metrics;
      this.writeTopicMap := writeTopicMap;
      dispatchers := [];
      mdc := None;
    }

    /** extractAndLogIncomingMessage. A message without headers fails on its
        first line; otherwise the correlation id enters the context, the
        received counter is raised, then the envelope is built. */
    method ExtractIncoming(messageType: string, topicName: string, msg: Message, uuid: string, now: nat)
      returns (r: Result<Wrapper<Bytes>, Escape>)
      modifies this, metrics
      ensures dispatchers == old(dispatchers)
      ensures msg.headers.None? ==>
                r == Err(HeadersMissing) && mdc == old(mdc) && metrics.increments == old(metrics.increments)
      ensures msg.headers.Some? ==>
                && r == Inbound(messageType, msg.data, msg.headers.value, uuid, now)
                && mdc == GetFirst(msg.headers.value, WireKey(CORRELATION_ID))
                && metrics.increments == old(metrics.increments) + Gated(metrics.enabled, [CounterKey(RECEIVED, topicName)])
    {
      if msg.headers.None? {
        return Err(HeadersMissing);
      }
      var h := msg.headers.value;
      var correlationId := GetFirst(h, WireKey(CORRELATION_ID));
      mdc := correlationId;
      metrics.IncrementReceived(topicName);
      var builder := new Builder<Bytes>();
      builder.SetPayload(Some(msg.data));
      builder.SetPayloadType(Some(messageType));
      builder.SetCorrelationId(correlationId);
      builder.SetCreationTimestamp(GetFirst(h, WireKey(CREATION_TS)));
      assert builder.headers == InboundHeaders(messageType, h);
      var built := builder.Build(uuid, now);
      match built {
        case Ok(w) => r := Ok(w);
        case Err(e) => r := Err(EnvelopeRejected(e));
      }
    }

    /** publish: route by payload type, publish, count; a missing route drops
        the envelope, a transport failure is swallowed uncounted, and the
        correlation id leaves the context in every case. */
    method Publish(w: Wrapper<Bytes>)
      modifies this, metrics, transport
      ensures transport.published == old(transport.published) + Emit(writeTopicMap, transport.failing, w)
      ensures metrics.increments == old(metrics.increments) + Gated(metrics.enabled, SentKeys(writeTopicMap, transport.failing, w))
      ensures mdc == None
      ensures dispatchers == old(dispatchers)
      ensures transport.subscriptions == old(transport.subscriptions) && transport.drains == old(transport.drains)
    {
      var payloadType := w.GetHeader(PAYLOAD_TYPE);
      if payloadType.Some? && payloadType.value in writeTopicMap {
        var topic := writeTopicMap[payloadType.value];
        mdc := w.GetHeader(CORRELATION_ID);
        var headers := ToHeaders(w);
        var ok := transport.Publish(topic, headers, w.payload);
        if ok {
          metrics.IncrementSent(topic);
        }
      }
      mdc := None;
    }

    /** One publish call per envelope, in list order (the fan-out loops). */
    method PublishEach(ws: seq<Wrapper<Bytes>>)
      modifies this, metrics, transport
      ensures transport.published == old(transport.published) + EmitAll(writeTopicMap, transport.failing, ws)
      ensures metrics.increments == old(metrics.increments) + Gated(metrics.enabled, SentKeysAll(writeTopicMap, transport.failing, ws))
      ensures mdc == if ws == [] then old(mdc) else None
      ensures dispatchers == old(dispatchers)
      ensures transport.subscriptions == old(transport.subscriptions) && transport.drains == old(transport.drains)
    {
      ghost var published0, increments0 := transport.published, metrics.increments;
      ghost var index, failing, enabled := writeTopicMap, transport.failing, metrics.enabled;
      var i := 0;
      while i < |ws|
        invariant 0 <= i <= |ws|
        invariant transport.published == published0 + EmitAll(index, failing, ws[..i])
        invariant metrics.increments == increments0 + Gated(enabled, SentKeysAll(index, failing, ws[..i]))
        invariant mdc == if i == 0 then old(mdc) else None
        invariant dispatchers == old(dispatchers)
        invariant transport.subscriptions == old(transport.subscriptions) && transport.drains == old(transport.drains)
      {
        LogStep(index, failing, enabled, published0, increments0, ws, i);
        Publish(ws[i]);
        i := i + 1;
      }
      assert ws[..|ws|] == ws;
    }

    /** toHeaders: one transport header per envelope header, under its wire
        key (the map's entries are visited in the order of AllHeaders). */
    method ToHeaders(w: Wrapper<Bytes>) returns (h: NatsHeaders)
      ensures h == WireHeaders(w.payloadHeaders)
    {
      h := map[];
      var i := 0;
      while i < |AllHeaders|
        invariant 0 <= i <= |AllHeaders|
        invariant h == HeadersOver(w.payloadHeaders, AllHeaders[..i])
      {
        var key := AllHeaders[i];
        assert AllHeaders[..i + 1][..i] == AllHeaders[..i];
        if key in w.payloadHeaders {
          h := AddValue(h, WireKey(key), w.payloadHeaders[key]);
        }
        i := i + 1;
      }
      assert AllHeaders[..i] == AllHeaders;
    }

    /** registerDispatcher. */
    method RegisterDispatcher(s: Subscription)
      modifies this
      ensures dispatchers == old(dispatchers) + [s] && mdc == old(mdc)
    {
      dispatchers := dispatchers + [s];
    }

    /** The per-binding registration loop shared by the three push strategies:
        create a dispatcher, subscribe it (with the queue group unless it is
        null or empty) and record it, in binding order. */
    method SubscribeEach(bindings: seq<TopicBinding>, handler: string)
      modifies this, transport
      ensures dispatchers == old(dispatchers) + SubscriptionsFor(bindings, handler)
      ensures transport.subscriptions == old(transport.subscriptions) + SubscriptionsFor(bindings, handler)
      ensures transport.published == old(transport.published) && transport.drains == old(transport.drains)
      ensures mdc == old(mdc)
    {
      var i := 0;
      while i < |bindings|
        invariant 0 <= i <= |bindings|
        invariant dispatchers == old(dispatchers) + SubscriptionsFor(bindings[..i], handler)
        invariant transport.subscriptions == old(transport.subscriptions) + SubscriptionsFor(bindings[..i], handler)
        invariant transport.published == old(transport.published) && transport.drains == old(transport.drains)
        invariant mdc == old(mdc)
      {
        var binding := bindings[i];
        var s := Subscription(binding, QueueGroupArgument(binding), handler);
        transport.Subscribe(s);
        RegisterDispatcher(s);
        assert bindings[..i + 1][..i] == bindings[..i];
        i := i + 1;
      }
      assert bindings[..|bindings|] == bindings;
    }

    /** shutdown: one drain per dispatcher in creation order; a failing drain
        is logged and the loop goes on, so shutdown never throws. */
    method Shutdown()
      modifies transport
      ensures transport.drains == old(transport.drains) + DrainCallsFor(dispatchers, transport.failing)
      ensures transport.published == old(transport.published) && transport.subscriptions == old(transport.subscriptions)
    {
      var i := 0;
      while i < |dispatchers|
        invariant 0 <= i <= |dispatchers|
        invariant transport.drains == old(transport.drains) + DrainCallsFor(dispatchers[..i], transport.failing)
        invariant transport.published == old(transport.published) && transport.subscriptions == old(transport.subscriptions)
      {
        var completed := transport.Drain(dispatchers[i]);
        assert dispatchers[..i + 1][..i] == dispatchers[..i];
        i := i + 1;
      }
      assert dispatchers[..|dispatchers|] == dispatchers;
    }
  }
}
