/** FunctionFanoutDispatcher: one subscription per read binding; the handler
    maps each envelope to a list of envelopes, each published by payload type. */
module FunctionFanout {
  import opened Wrappers
  import opened Model
  import opened Payload
  import opened Metrics
  import opened WriteIndex
  import opened Dispatch

  /** The effect of the fan-out callback for one message on binding b. A null
      or empty list returns early; an exception is counted and then the loop
      over the still-null list throws out of the callback. */
  function FanoutEffect(index: map<string, string>, failing: bool, b: TopicBinding, msg: Message,
                        outcome: HandlerOutcome<Option<seq<Wrapper<Bytes>>>>, uuid: string, now: nat): Effect
  {
    if msg.headers.None? then Effect(Escaped(HeadersMissing), [], [], Untouched)
    else
      var h := msg.headers.value;
      var received := [CounterKey(RECEIVED, b.topicName)];
      var incoming := Holds(GetFirst(h, WireKey(CORRELATION_ID)));
      match Inbound(b.messageType, msg.data, h, uuid, now)
      case Err(e) => Effect(Escaped(e), received, [], incoming)
      case Ok(_) =>
        match outcome
        case Threw => Effect(Escaped(NullResultList), received + [CounterKey(ERROR, b.topicName)], [], incoming)
        case Returned(None) => Effect(Completed, received, [], incoming)
        case Returned(Some(ws)) =>
          if ws == [] then Effect(Completed, received, [], incoming)
          else Effect(Completed, received + SentKeysAll(index, failing, ws), EmitAll(index, failing, ws), Holds(None))
  }

  /** The handler ran when the message had headers and the envelope built. */
  predicate Delivered(b: TopicBinding, msg: Message)
  {
    msg.headers.Some? && !IsBlank(b.messageType)
  }

  /** The callback escapes on a missing header block, a blank message type,
      or a handler exception; an escaping callback publishes nothing. */
  lemma FanoutEscapes(index: map<string, string>, failing: bool, b: TopicBinding, msg: Message,
                      outcome: HandlerOutcome<Option<seq<Wrapper<Bytes>>>>, uuid: string, now: nat)
    ensures var r := FanoutEffect(index, failing, b, msg, outcome, uuid, now);
            && (r.end.Escaped? <==> !Delivered(b, msg) || outcome.Threw?)
            && (r.end == Escaped(NullResultList) <==> Delivered(b, msg) && outcome.Threw?)
            && (r.end.Escaped? ==> r.published == [])
            && (msg.headers.Some? ==> r.keys != [] && r.keys[0] == CounterKey(RECEIVED, b.topicName))
            && multiset(r.keys)[CounterKey(RECEIVED, b.topicName)] == if msg.headers.Some? then 1 else 0
  {
    if Delivered(b, msg) {
      FixedCounterKeysDistinct(ERROR, b.topicName, RECEIVED, b.topicName);
      if outcome.Returned? && outcome.value.Some? {
        SentKeysOnlySent(index, failing, outcome.value.value, RECEIVED, b.topicName);
      }
    }
  }

  /** A handler exception is counted once, exactly when the handler ran and threw. */
  lemma FanoutThrowCountedOnce(index: map<string, string>, failing: bool, b: TopicBinding, msg: Message,
                               outcome: HandlerOutcome<Option<seq<Wrapper<Bytes>>>>, uuid: string, now: nat)
    ensures var r := FanoutEffect(index, failing, b, msg, outcome, uuid, now);
            multiset(r.keys)[CounterKey(ERROR, b.topicName)] == if Delivered(b, msg) && outcome.Threw? then 1 else 0
  {
    if Delivered(b, msg) {
      FixedCounterKeysDistinct(RECEIVED, b.topicName, ERROR, b.topicName);
      if outcome.Returned? && outcome.value.Some? {
        SentKeysOnlySent(index, failing, outcome.value.value, ERROR, b.topicName);
      }
    }
  }

  /** Publishing a list raises only sent counters, never a received or an error one. */
  lemma {:induction false} SentKeysOnlySent(index: map<string, string>, failing: bool, ws: seq<Wrapper<Bytes>>,
                                            name: string, topic: string)
    requires name == RECEIVED || name == ERROR
    ensures CounterKey(name, topic) !in SentKeysAll(index, failing, ws)
  {
    if ws != [] {
      SentKeysOnlySent(index, failing, ws[..|ws| - 1], name, topic);
      var w := ws[|ws| - 1];
      if Route(index, w).Some? {
        FixedCounterKeysDistinct(SENT, Route(index, w).value, name, topic);
      }
    }
  }

  /** A null or empty result publishes nothing and leaves the incoming
      correlation id in the logging context. */
  lemma FanoutNothingToDispatch(index: map<string, string>, failing: bool, b: TopicBinding, msg: Message,
                                outcome: HandlerOutcome<Option<seq<Wrapper<Bytes>>>>, uuid: string, now: nat)
    requires Delivered(b, msg)
    requires outcome == Returned(None) || outcome == Returned(Some([]))
    ensures var r := FanoutEffect(index, failing, b, msg, outcome, uuid, now);
            && r.end == Completed && r.published == [] && r.keys == [CounterKey(RECEIVED, b.topicName)]
            && r.context == Holds(GetFirst(msg.headers.value, WireKey(CORRELATION_ID)))
  {
  }

  /** On a working transport with every envelope routed, each returned
      envelope is published once, in list order, and counted under its topic. */
  lemma FanoutPublishesInOrder(index: map<string, string>, b: TopicBinding, msg: Message,
                               ws: seq<Wrapper<Bytes>>, uuid: string, now: nat)
    requires Delivered(b, msg) && ws != []
    requires forall i :: 0 <= i < |ws| ==> Route(index, ws[i]).Some?
    ensures var r := FanoutEffect(index, false, b, msg, Returned(Some(ws)), uuid, now);
            && r.end == Completed && |r.published| == |ws| && r.context == Holds(None)
            && (forall i :: 0 <= i < |ws| ==>
                  r.published[i] == Publication(Route(index, ws[i]).value, WireHeaders(ws[i].payloadHeaders), ws[i].payload))
            && |r.keys| == 1 + |ws|
            && (forall i :: 0 <= i < |ws| ==> r.keys[1 + i] == CounterKey(SENT, r.published[i].topic))
  {
    EmitAllInOrder(index, ws);
    SentMatchesPublished(index, false, ws);
  }

  class FunctionFanoutDispatcher {
    const base: DispatchBase

    constructor (transport: Transport, metrics: MetricsRecorder, writeTopicMap: map<string, string>)
      ensures fresh(base) && base.transport == transport && base.metrics == metrics
      ensures base.writeTopicMap == writeTopicMap && base.dispatchers == [] && base.mdc == None
    {
      base := new DispatchBase(transport, metrics, writeTopicMap);
    }

    method Register(topics: Option<seq<TopicBinding>>, handler: string) returns (ok: bool)
      modifies base, base.transport
      ensures ok <==> topics.Some?
      ensures base.dispatchers == old(base.dispatchers) + if ok then SubscriptionsFor(topics.value, handler) else []
      ensures base.transport.subscriptions == old(base.transport.subscriptions) + if ok then SubscriptionsFor(topics.value, handler) else []
      ensures base.transport.published == old(base.transport.published) && base.transport.drains == old(base.transport.drains)
      ensures base.mdc == old(base.mdc)
    {
      if topics.None? {
        return false;
      }
      base.SubscribeEach(topics.value, handler);
      ok := true;
    }

    /** The callback of dispatcher i; outcome is what the handler's process does. */
    method OnMessage(i: nat, msg: Message, outcome: HandlerOutcome<Option<seq<Wrapper<Bytes>>>>, uuid: string, now: nat)
      returns (end: CallbackEnd)
      requires i < |base.dispatchers|
      modifies base, base.metrics, base.transport
      ensures base.dispatchers == old(base.dispatchers)
      ensures var eff := FanoutEffect(base.writeTopicMap, base.transport.failing, base.dispatchers[i].binding, msg, outcome, uuid, now);
              && end == eff.end
              && base.metrics.increments == old(base.metrics.increments) + Gated(base.metrics.enabled, eff.keys)
              && base.transport.published == old(base.transport.published) + eff.published
              && base.mdc == ContextValue(eff.context, old(base.mdc))
      ensures base.transport.subscriptions == old(base.transport.subscriptions) && base.transport.drains == old(base.transport.drains)
    {
      var binding := base.dispatchers[i].binding;
      var input := base.ExtractIncoming(binding.messageType, binding.topicName, msg, uuid, now);
      if input.Err? {
        return Escaped(input.error);
      }
      var received := [CounterKey(RECEIVED, binding.topicName)];
      match outcome {
        case Threw =>
          base.metrics.IncrementError(binding.topicName);
          GatedAppend(base.metrics.enabled, received, [CounterKey(ERROR, binding.topicName)]);
          AppendAssoc(old(base.metrics.increments), Gated(base.metrics.enabled, received), Gated(base.metrics.enabled, [CounterKey(ERROR, binding.topicName)]));
          // iterating over the null list throws
          return Escaped(NullResultList);
        case Returned(payloads) =>
          if payloads.None? || payloads.value == [] {
            return Completed;
          }
          base.PublishEach(payloads.value);
          GatedAppend(base.metrics.enabled, received, SentKeysAll(base.writeTopicMap, base.transport.failing, payloads.value));
          AppendAssoc(old(base.metrics.increments), Gated(base.metrics.enabled, received), Gated(base.metrics.enabled, SentKeysAll(base.writeTopicMap, base.transport.failing, payloads.value)));
      }
      end := Completed;
    }
  }

  /** The constructor's write-topic index over the FUNCTION_FANOUT entries; a
      FUNCTION_FANOUT entry with a null write list makes construction throw. */
  method NewFunctionFanoutDispatcher(transport: Transport, entries: seq<EventComponentEntry>, metrics: MetricsRecorder)
    returns (d: Option<FunctionFanoutDispatcher>)
    ensures d.None? <==> HasNullWrites(entries, FUNCTION_FANOUT)
    ensures d.Some? ==> fresh(d.value) && fresh(d.value.base)
    ensures d.Some? ==> d.value.base.transport == transport && d.value.base.metrics == metrics
    ensures d.Some? ==> d.value.base.writeTopicMap == IndexOf(WriteBindings(entries, FUNCTION_FANOUT))
    ensures d.Some? ==> d.value.base.dispatchers == [] && d.value.base.mdc == None
  {
    var index := BuildWriteTopicMap(entries, FUNCTION_FANOUT);
    if index.None? {
      return None;
    }
    var f := new FunctionFanoutDispatcher(transport, metrics, index.value);
    d := Some(f);
  }
}
