/** The data-only classes of the runtime: manifest records, the header enum,
    the transport's message and header shapes, and the handler contracts. */
module Model {
  import opened Wrappers

  /** A message body (byte[]). */
  type Bytes = seq<bv8>

  /** The closed set of handler kinds (HandlerType). */
  datatype HandlerType = CONSUMER | FUNCTION | FUNCTION_FANOUT | SUPPLIER | SUPPLIER_FANOUT

  /** One read or write edge between a handler and a topic (TopicBinding).
      The queue group is optional and may be null. */
  datatype TopicBinding = TopicBinding(topicName: string, messageType: string, queueGroup: Option<string>)

  /** One manifest entry (EventComponentEntry). A list or handler type that
      the manifest leaves out is null, here None. The manifest itself
      (EventComponentConfig) is a seq<EventComponentEntry>. */
  datatype EventComponentEntry = EventComponentEntry(
    handlerType: Option<HandlerType>,
    readTopics: Option<seq<TopicBinding>>,
    writeTopics: Option<seq<TopicBinding>>,
    handlerClass: string,
    disabled: bool)

  /** The header keys of an envelope (PayloadHeader). */
  datatype PayloadHeader = PAYLOAD_TYPE | CORRELATION_ID | CREATION_TS

  /** The key a header travels under on the wire. */
  function WireKey(h: PayloadHeader): string
  {
    match h
    case PAYLOAD_TYPE => "payloadType"
    case CORRELATION_ID => "correlationId"
    case CREATION_TS => "creationTs"
  }

  lemma WireKeyInjective(h1: PayloadHeader, h2: PayloadHeader)
    requires WireKey(h1) == WireKey(h2)
    ensures h1 == h2
  {
  }

  /** The headers in declaration order, which is the iteration order of an EnumMap. */
  const AllHeaders: seq<PayloadHeader> := [PAYLOAD_TYPE, CORRELATION_ID, CREATION_TS]

  lemma AllHeadersComplete(h: PayloadHeader)
    ensures h in AllHeaders
  {
  }

  /** Transport headers: every key carries a list of values. */
  type NatsHeaders = map<string, seq<string>>

  /** Headers.getFirst: the first value of a key, or null. */
  function GetFirst(h: NatsHeaders, key: string): Option<string>
  {
    if key in h && h[key] != [] then Some(h[key][0]) else None
  }

  /** Headers.add with one non-null value: appends it to the key's list. */
  function AddValue(h: NatsHeaders, key: string, value: string): NatsHeaders
  {
    h[key := (if key in h then h[key] else []) + [value]]
  }

  /** An inbound transport message; its headers are null when it carries none. */
  datatype Message = Message(data: Bytes, headers: Option<NatsHeaders>)

  /** What one call to a user handler did: returned a value (possibly null) or threw. */
  datatype HandlerOutcome<+T> = Returned(value: T) | Threw

  /** The handler interfaces a bean may implement (package contract). */
  datatype Contract = PayloadConsumer | PayloadFunction | PayloadFunctionFanout | PayloadSupplier | PayloadSupplierFanout
}
