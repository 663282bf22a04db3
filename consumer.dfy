/** ConsumerDispatcher: one subscription per read binding; each message is
    turned into an envelope and handed to the handler's one-way consume. */
module Consumer {
  import opened Wrappers
  import opened Model
  import opened Payload
  import opened Metrics
  import opened Dispatch

  /** The effect of the consumer callback for one message on binding b. */
  function ConsumerEffect(b: TopicBinding, msg: Message, outcome: HandlerOutcome<()>, uuid: string, now: nat): (r: Effect)
    // the consumer path never publishes
    ensures r.published == []
    // the received counter is raised first, before the handler runs
    ensures msg.headers.Some? ==> r.keys != [] && r.keys[0] == CounterKey(RECEIVED, b.topicName)
    // and exactly once, whatever the handler does
    ensures multiset(r.keys)[CounterKey(RECEIVED, b.topicName)] == if msg.headers.Some? then 1 else 0
    // a handler exception is counted once and does not escape
    ensures multiset(r.keys)[CounterKey(ERROR, b.topicName)] ==
            if msg.headers.Some? && !IsBlank(b.messageType) && outcome.Threw? then 1 else 0
    ensures r.end.Escaped? <==> msg.headers.None? || IsBlank(b.messageType)
    // the context is cleared after every message the handler saw, on success or failure
    ensures r.end == Completed ==> r.context == Holds(None)
  {
    if msg.headers.None? then Effect(Escaped(HeadersMissing), [], [], Untouched)
    else
      var h := msg.headers.value;
      var received := [CounterKey(RECEIVED, b.topicName)];
      match Inbound(b.messageType, msg.data, h, uuid, now)
      case Err(e) => Effect(Escaped(e), received, [], Holds(GetFirst(h, WireKey(CORRELATION_ID))))
      case Ok(_) =>
        var errors := if outcome.Threw? then [CounterKey(ERROR, b.topicName)] else [];
        FixedCounterKeysDistinct(RECEIVED, b.topicName, ERROR, b.topicName);
        Effect(Completed, received + errors, [], Holds(None))
  }

  class ConsumerDispatcher {
    const base: DispatchBase

    constructor (transport: Transport, metrics: MetricsRecorder)
      ensures fresh(base) && base.transport == transport && base.metrics == metrics
      ensures base.writeTopicMap == map[] && base.dispatchers == [] && base.mdc == None
    {
      base := new DispatchBase(transport, metrics, map[]);
    }

    /** register: one subscribed dispatcher per binding, in binding order; a
        null binding list throws before anything is created. */
    method Register(topics: Option<seq<TopicBinding>>, handler: string) returns (ok: bool)
      modifies base, base.transport
      ensures ok <==> topics.Some?
      ensures base.dispatchers == old(base.dispatchers) + if ok then SubscriptionsFor(topics.value, handler) else []
      ensures base.transport.subscriptions == old(base.transport.subscriptions) + if ok then SubscriptionsFor(topics.value, handler) else []
      ensures base.transport.published == old(base.transport.published) && base.transport.drains == old(base.transport.drains)
      ensures base.mdc == old(base.mdc)
    {
      if topics.None? {
        return false;
      }
      base.SubscribeEach(topics.value, handler);
      ok := true;
    }

    /** The callback of dispatcher i for one message; outcome is what the
        handler's consume does, uuid and now the fresh id and clock reading
        an auto-fill would use. */
    method OnMessage(i: nat, msg: Message, outcome: HandlerOutcome<()>, uuid: string, now: nat) returns (end: CallbackEnd)
      requires i < |base.dispatchers|
      modifies base, base.metrics
      ensures base.dispatchers == old(base.dispatchers)
      ensures var eff := ConsumerEffect(base.dispatchers[i].binding, msg, outcome, uuid, now);
              && end == eff.end
              && base.metrics.increments == old(base.metrics.increments) + Gated(base.metrics.enabled, eff.keys)
              && base.mdc == ContextValue(eff.context, old(base.mdc))
      ensures base.transport.published == old(base.transport.published)
    {
      var binding := base.dispatchers[i].binding;
      ghost var received := [CounterKey(RECEIVED, binding.topicName)];
      ghost var eff := ConsumerEffect(binding, msg, outcome, uuid, now);
      var input := base.ExtractIncoming(binding.messageType, binding.topicName, msg, uuid, now);
      if input.Err? {
        assert eff.end == Escaped(input.error);
        return Escaped(input.error);
      }
      assert eff.keys == received + if outcome.Threw? then [CounterKey(ERROR, binding.topicName)] else [];
      if outcome.Threw? {
        base.metrics.IncrementError(binding.topicName);
        GatedAppend(base.metrics.enabled, [CounterKey(RECEIVED, binding.topicName)], [CounterKey(ERROR, binding.topicName)]);
        AppendAssoc(old(base.metrics.increments), Gated(base.metrics.enabled, [CounterKey(RECEIVED, binding.topicName)]),
                    Gated(base.metrics.enabled, [CounterKey(ERROR, binding.topicName)]));
      }
      base.mdc := None;
      end := Completed;
    }
  }
}
