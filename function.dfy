/** FunctionDispatcher: one subscription per read binding; the handler maps
    each envelope to at most one envelope, which is published by payload type. */
module Function {
  import opened Wrappers
  import opened Model
  import opened Payload
  import opened Metrics
  import opened WriteIndex
  import opened Dispatch

  /** The effect of the function callback for one message on binding b, with
      the write-topic index and the transport's failure mode. */
  function FunctionEffect(index: map<string, string>, failing: bool, b: TopicBinding, msg: Message,
                          outcome: HandlerOutcome<Option<Wrapper<Bytes>>>, uuid: string, now: nat): Effect
  {
    if msg.headers.None? then Effect(Escaped(HeadersMissing), [], [], Untouched)
    else
      var h := msg.headers.value;
      var received := [CounterKey(RECEIVED, b.topicName)];
      var incoming := Holds(GetFirst(h, WireKey(CORRELATION_ID)));
      match Inbound(b.messageType, msg.data, h, uuid, now)
      case Err(e) => Effect(Escaped(e), received, [], incoming)
      case Ok(_) =>
        match outcome
        case Threw => Effect(Completed, received + [CounterKey(ERROR, b.topicName)], [], incoming)
        case Returned(None) => Effect(Completed, received, [], incoming)
        case Returned(Some(w)) =>
          Effect(Completed, received + SentKeys(index, failing, w), Emit(index, failing, w), Holds(None))
  }

  /** The callback escapes exactly when the message has no headers or the
      binding's message type is blank, and then publishes nothing. */
  lemma FunctionEscapes(index: map<string, string>, failing: bool, b: TopicBinding, msg: Message,
                        outcome: HandlerOutcome<Option<Wrapper<Bytes>>>, uuid: string, now: nat)
    ensures var r := FunctionEffect(index, failing, b, msg, outcome, uuid, now);
            && (r.end.Escaped? <==> msg.headers.None? || IsBlank(b.messageType))
            && (r.end.Escaped? ==> r.published == [] && |r.keys| <= 1)
            && (msg.headers.Some? ==> r.keys != [] && r.keys[0] == CounterKey(RECEIVED, b.topicName))
            && multiset(r.keys)[CounterKey(RECEIVED, b.topicName)] == if msg.headers.Some? then 1 else 0
  {
    if msg.headers.Some? {
      FixedCounterKeysDistinct(ERROR, b.topicName, RECEIVED, b.topicName);
      var w := if outcome.Returned? && outcome.value.Some? then outcome.value.value else Wrapper([], map[]);
      if Route(index, w).Some? {
        FixedCounterKeysDistinct(SENT, Route(index, w).value, RECEIVED, b.topicName);
      }
    }
  }

  /** A handler exception is counted once, exactly when the handler ran and threw. */
  lemma FunctionThrowCountedOnce(index: map<string, string>, failing: bool, b: TopicBinding, msg: Message,
                                 outcome: HandlerOutcome<Option<Wrapper<Bytes>>>, uuid: string, now: nat)
    ensures var r := FunctionEffect(index, failing, b, msg, outcome, uuid, now);
            multiset(r.keys)[CounterKey(ERROR, b.topicName)] == if r.end == Completed && outcome.Threw? then 1 else 0
  {
    var r := FunctionEffect(index, failing, b, msg, outcome, uuid, now);
    if msg.headers.Some? {
      FixedCounterKeysDistinct(RECEIVED, b.topicName, ERROR, b.topicName);
      var w := if outcome.Returned? && outcome.value.Some? then outcome.value.value else Wrapper([], map[]);
      if Route(index, w).Some? {
        FixedCounterKeysDistinct(SENT, Route(index, w).value, ERROR, b.topicName);
      }
    }
  }

  /** At most one publish: the returned envelope, to its write topic, on a
      working transport, counted once under that topic. */
  lemma FunctionPublishesAtMostOnce(index: map<string, string>, failing: bool, b: TopicBinding, msg: Message,
                                    outcome: HandlerOutcome<Option<Wrapper<Bytes>>>, uuid: string, now: nat)
    ensures var r := FunctionEffect(index, failing, b, msg, outcome, uuid, now);
            && |r.published| <= 1
            && (r.published != [] ==>
                  && r.end == Completed && outcome.Returned? && outcome.value.Some?
                  && !failing && Route(index, outcome.value.value).Some?
                  && r.published[0] == Publication(Route(index, outcome.value.value).value,
                                                   WireHeaders(outcome.value.value.payloadHeaders), outcome.value.value.payload)
                  && r.keys == [CounterKey(RECEIVED, b.topicName), CounterKey(SENT, r.published[0].topic)])
  {
  }

  /** A non-null result of a delivered message is handed to publish: the
      callback completes, publishes what `publish` does for that envelope and
      counts received, then its sent increments. */
  lemma FunctionPublishesResult(index: map<string, string>, failing: bool, b: TopicBinding, msg: Message,
                                w: Wrapper<Bytes>, uuid: string, now: nat)
    requires msg.headers.Some? && !IsBlank(b.messageType)
    ensures var r := FunctionEffect(index, failing, b, msg, Returned(Some(w)), uuid, now);
            && r.end == Completed && r.context == Holds(None)
            && r.published == Emit(index, failing, w)
            && r.keys == [CounterKey(RECEIVED, b.topicName)] + SentKeys(index, failing, w)
            && (!failing && Route(index, w).Some? ==>
                  && r.published == [Publication(Route(index, w).value, WireHeaders(w.payloadHeaders), w.payload)]
                  && r.keys == [CounterKey(RECEIVED, b.topicName), CounterKey(SENT, Route(index, w).value)])
  {
  }

  /** The logging context is cleared only when publish ran; a null result or
      an exception leaves the incoming correlation id in place. */
  lemma FunctionContext(index: map<string, string>, failing: bool, b: TopicBinding, msg: Message,
                        outcome: HandlerOutcome<Option<Wrapper<Bytes>>>, uuid: string, now: nat)
    ensures var r := FunctionEffect(index, failing, b, msg, outcome, uuid, now);
            r.end == Completed ==>
              r.context == if outcome.Returned? && outcome.value.Some? then Holds(None)
                           else Holds(GetFirst(msg.headers.value, WireKey(CORRELATION_ID)))
  {
  }

  class FunctionDispatcher {
    const base: DispatchBase

    constructor (transport: Transport, metrics: MetricsRecorder, writeTopicMap: map<string, string>)
      ensures fresh(base) && base.transport == transport && base.metrics == metrics
      ensures base.writeTopicMap == writeTopicMap && base.dispatchers == [] && base.mdc == None
    {
      base := new DispatchBase(transport, metrics, writeTopicMap);
    }

    method Register(topics: Option<seq<TopicBinding>>, handler: string) returns (ok: bool)
      modifies base, base.transport
      ensures ok <==> topics.Some?
      ensures base.dispatchers == old(base.dispatchers) + if ok then SubscriptionsFor(topics.value, handler) else []
      ensures base.transport.subscriptions == old(base.transport.subscriptions) + if ok then SubscriptionsFor(topics.value, handler) else []
      ensures base.transport.published == old(base.transport.published) && base.transport.drains == old(base.transport.drains)
      ensures base.mdc == old(base.mdc)
    {
      if topics.None? {
        return false;
      }
      base.SubscribeEach(topics.value, handler);
      ok := true;
    }

    /** The callback of dispatcher i; outcome is what the handler's process does. */
    method OnMessage(i: nat, msg: Message, outcome: HandlerOutcome<Option<Wrapper<Bytes>>>, uuid: string, now: nat)
      returns (end: CallbackEnd)
      requires i < |base.dispatchers|
      modifies base, base.metrics, base.transport
      ensures base.dispatchers == old(base.dispatchers)
      ensures var eff := FunctionEffect(base.writeTopicMap, base.transport.failing, base.dispatchers[i].binding, msg, outcome, uuid, now);
              && end == eff.end
              && base.metrics.increments == old(base.metrics.increments) + Gated(base.metrics.enabled, eff.keys)
              && base.transport.published == old(base.transport.published) + eff.published
              && base.mdc == ContextValue(eff.context, old(base.mdc))
      ensures base.transport.subscriptions == old(base.transport.subscriptions) && base.transport.drains == old(base.transport.drains)
    {
      var binding := base.dispatchers[i].binding;
      var input := base.ExtractIncoming(binding.messageType, binding.topicName, msg, uuid, now);
      if input.Err? {
        return Escaped(input.error);
      }
      var received := [CounterKey(RECEIVED, binding.topicName)];
      var result: Option<Wrapper<Bytes>> := None;
      match outcome {
        case Threw =>
          base.metrics.IncrementError(binding.topicName);
          GatedAppend(base.metrics.enabled, received, [CounterKey(ERROR, binding.topicName)]);
          AppendAssoc(old(base.metrics.increments), Gated(base.metrics.enabled, received), Gated(base.metrics.enabled, [CounterKey(ERROR, binding.topicName)]));
        case Returned(v) =>
          result := v;
      }
      if result.Some? {
        base.Publish(result.value);
        GatedAppend(base.metrics.enabled, received, SentKeys(base.writeTopicMap, base.transport.failing, result.value));
        AppendAssoc(old(base.metrics.increments), Gated(base.metrics.enabled, received), Gated(base.metrics.enabled, SentKeys(base.writeTopicMap, base.transport.failing, result.value)));
      }
      end := Completed;
    }
  }

  /** The constructor's write-topic index over the FUNCTION entries; a FUNCTION
      entry with a null write list makes construction throw. */
  method NewFunctionDispatcher(transport: Transport, entries: seq<EventComponentEntry>, metrics: MetricsRecorder)
    returns (d: Option<FunctionDispatcher>)
    ensures d.None? <==> HasNullWrites(entries, FUNCTION)
    ensures d.Some? ==> fresh(d.value) && fresh(d.value.base)
    ensures d.Some? ==> d.value.base.transport == transport && d.value.base.metrics == metrics
    ensures d.Some? ==> d.value.base.writeTopicMap == IndexOf(WriteBindings(entries, FUNCTION))
    ensures d.Some? ==> d.value.base.dispatchers == [] && d.value.base.mdc == None
  {
    var index := BuildWriteTopicMap(entries, FUNCTION);
    if index.None? {
      return None;
    }
    var f := new FunctionDispatcher(transport, metrics, index.value);
    d := Some(f);
  }
}
