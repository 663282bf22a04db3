# nats-core-components in Dafny

This project models the runtime core of nats-core-components. That library
wires user handlers to NATS subjects, using a manifest of event components.
Each manifest entry names a handler class, its handler type (consumer,
function, function fan-out, supplier, supplier fan-out) and the topics it
reads and writes. The model covers:

- **Loading the manifest** (`ConfigLoader`):
  - dropping disabled entries;
  - the read-side checks, which allow one handler type per topic and check the queue groups;
  - the read/write conflict check.
- **The envelope** (`Payload`): the payload wrapper and its builder, whose
  `build` checks the payload and the payload-type header and fills in a
  correlation id and a creation timestamp when they are missing.
- **Header conversions** (`NatsUtil`) and **the metrics recorder** (`Metrics`):
  lazily created counters keyed by `name:topic`, behind an enabled flag.
- **The write-topic indexes** (`WriteIndex`): the map from message type to
  topic that every publishing dispatcher builds in its constructor.
- **The dispatcher base class** (`Dispatch`):
  - the inbound envelope and the received counter;
  - routing a publish by payload type;
  - converting headers;
  - subscribing;
  - the drain loop at shutdown.
- **The five dispatch strategies** (`Consumer`, `Function`, `FunctionFanout`,
  `Supplier`, `SupplierFanout`):
  - the message callbacks of the three push strategies;
  - the loops of the two pull strategies.
- **The registrar** (`Registrar`): hands each enabled entry's bean to its
  dispatcher, and stops at the first entry that cannot be registered.
- **The startup contract validator** (`ContractValidator`): registers each
  topic's protobuf descriptor with the schema registry and compares the
  fingerprint fetched back.

How the model represents the program:

- **Nulls and exceptions.** Java's null is `Option`. An exception that
  aborts an operation is an `Err` or a `Fail` value.
- **State.** Objects whose fields change are classes:
  - **The connection (`Transport`)** logs what is published, subscribed and drained.
  - **The metrics recorder** is the log of increments it has made. Its counter
    cache is `Tally` of that log.
  - **The dispatcher base** holds the dispatcher list and the correlation-id
    slot of the logging context.
  - **The builder** holds its payload and header map.
- **Callbacks.** Each callback is specified by a pure function. It returns
  the counters raised, the publications, how the callback ended and what it
  leaves in the logging context, and the callback method is proved to do
  exactly that.
- **What the user handler does** on each call is a parameter: it returns a
  value, or it throws.
- **Supplier loops** run over a script of turns. Each turn either finds the
  thread interrupted or makes one supply call with a given outcome.

## Behaviour of the code worth knowing

- **Duplicate queue groups.** The doc comment of `validateReadTopicBindings`
  says that handlers of one type may share a topic only with distinct queue
  groups, and that several handlers without a group are disallowed
  (config/EventComponentConfigLoader.java:67-75). The code does not do this.
  It collects a topic's groups in a `HashSet`, so a repeated group, or a
  second handler without one, collapses and passes (`SameGroupTwiceAccepted`).
  - **The one error the loop can raise.** The duplicate-group exception fires
    only when a null group, recorded as the string `"null"`, is met before a
    literal `"null"` group (`GroupsVerdictMeaning`).
  - **Iteration order.** The set's contract does not fix its iteration order,
    so the model leaves it open, and the verdict depends on it
    (`IterationOrderDecides`). On OpenJDK,
    `HashMap.hash` puts a null element in bucket 0, which is visited first.
    The spread hash of `"null"` ends in the bits `0100`, so it never lands in
    bucket 0. In that implementation a group set holding both null and
    `"null"` would always be rejected. This follows from reading the
    library's hashing and is not part of the model.
  - **The null-count check.** It can never fire (`NullCountAtMostOne`).
- **Function fan-out exceptions.** When the handler throws, the error counter
  is raised, and the loop over the still-null result list then throws out of
  the callback (`FanoutEscapes`).
- **Supplier fan-out null results.** Only an empty list ends the loop. A null
  list throws at `payloads.getClass()` inside the `try`. That exception is
  logged and the loop goes on (`RunsToEnd`).
- **Null message headers.** A message with no headers throws at
  `msg.getHeaders().getFirst` before anything is counted, and the exception
  escapes the callback.

## Model

| member | source | states |
|---|---|---|
| Model.WireKeyInjective | src/main/java/com/sougata/natscore/model/PayloadHeader.java:7-14 | Distinct envelope headers travel under distinct wire keys (`payloadType`, `correlationId`, `creationTs`). |
| Model.AllHeadersComplete | src/main/java/com/sougata/natscore/model/PayloadHeader.java:6-9 | The enum order that `toHeaders` visits lists every header. |
| Payload.Wrapper.GetHeader | src/main/java/com/sougata/natscore/model/PayloadWrapper.java:25-27 | A header is present exactly when the envelope carries it, and then it is that value. |
| Payload.PutIfAbsent | src/main/java/com/sougata/natscore/model/PayloadWrapper.java:90-91 | A header that holds a non-null value keeps it. An absent or null one takes the default. Every other header is unchanged. |
| Payload.DecimalString | src/main/java/com/sougata/natscore/model/PayloadWrapper.java:91 | The timestamp text is a non-empty string of decimal digits. |
| Payload.DecimalStringParses | src/main/java/com/sougata/natscore/model/PayloadWrapper.java:91 | Reading the timestamp text back as a decimal gives the clock value. |
| Payload.BuildResult | src/main/java/com/sougata/natscore/model/PayloadWrapper.java:77-94 | `build` fails exactly when the payload is null (payload error) or the payload type is null or blank (missing-header error). A built envelope carries the payload and all three headers. Given values are kept; otherwise the correlation id is the fresh UUID and the timestamp is the clock. |
| Payload.AutoFilledIsIdempotent | src/main/java/com/sougata/natscore/model/PayloadWrapper.java:90-91 | Filling defaults twice changes nothing beyond the first fill. |
| Payload.SecondBuildReusesAutoFill | src/main/java/com/sougata/natscore/model/PayloadWrapper.java:88-93 | A second `build` on the same builder returns the same envelope as the first. The defaults were written into the builder and are not drawn again. |
| Payload.ToBuilderBuildRoundTrip | src/main/java/com/sougata/natscore/model/PayloadWrapper.java:33-35 | `toBuilder().build()` of a well-formed envelope gives back the same envelope. |
| Payload.Builder.constructor | src/main/java/com/sougata/natscore/model/PayloadWrapper.java:45 | A new builder has no payload and no headers. |
| Payload.Builder.FromWrapper | src/main/java/com/sougata/natscore/model/PayloadWrapper.java:47-50 | A builder made from an envelope holds its payload and a copy of its headers. |
| Payload.Builder.SetPayload | src/main/java/com/sougata/natscore/model/PayloadWrapper.java:52-55 | Sets the payload and leaves the headers alone. |
| Payload.Builder.SetPayloadType | src/main/java/com/sougata/natscore/model/PayloadWrapper.java:57-60 | Puts the payload-type header and leaves the rest alone. |
| Payload.Builder.SetCorrelationId | src/main/java/com/sougata/natscore/model/PayloadWrapper.java:62-65 | Puts the correlation-id header and leaves the rest alone. |
| Payload.Builder.SetCreationTimestamp | src/main/java/com/sougata/natscore/model/PayloadWrapper.java:67-70 | Puts the timestamp header and leaves the rest alone. |
| Payload.Builder.AddHeader | src/main/java/com/sougata/natscore/model/PayloadWrapper.java:72-75 | Puts one header, null included, and leaves the rest alone. |
| Payload.Builder.Build | src/main/java/com/sougata/natscore/model/PayloadWrapper.java:77-94 | Returns `BuildResult` of the builder's state. On success the builder keeps the defaults it filled in; on failure it is unchanged. |
| NatsUtil.SingletonsRoundTrip | src/main/java/com/sougata/natscore/util/NatsUtil.java:12-31 | Flattening the headers that `mapToHeaders` builds from a map gives back the map. |
| NatsUtil.HeadersToMap | src/main/java/com/sougata/natscore/util/NatsUtil.java:12-24 | Null headers give an empty map. Otherwise a key is kept exactly when it has at least one value, and it maps to its first value. |
| NatsUtil.MapToHeaders | src/main/java/com/sougata/natscore/util/NatsUtil.java:26-31 | Null stays null. Otherwise the headers have the map's keys, each with a one-element list holding its value. |
| Metrics.FirstColonOfKey | src/main/java/com/sougata/natscore/monitoring/NatsMetricsRecorder.java:24-26 | In a counter key built from a colon-free name, the first colon sits right after the name. |
| Metrics.CounterKeyInjective | src/main/java/com/sougata/natscore/monitoring/NatsMetricsRecorder.java:24-26 | For colon-free names, equal counter keys mean equal name and topic. |
| Metrics.FixedCounterKeysDistinct | src/main/java/com/sougata/natscore/monitoring/NatsMetricsRecorder.java:36-46 | The sent, received and error counters of any topics never share a cache entry unless name and topic are both equal. |
| Metrics.Bump | src/main/java/com/sougata/natscore/monitoring/NatsMetricsRecorder.java:28-34 | One increment creates the counter if it is missing and raises it by one. Every other counter is unchanged. |
| Metrics.TallyAppend | src/main/java/com/sougata/natscore/monitoring/NatsMetricsRecorder.java:28-34 | Increments made in two batches leave the cache as one batch would. |
| Metrics.TallyCounts | src/main/java/com/sougata/natscore/monitoring/NatsMetricsRecorder.java:28-46 | Each counter ends up equal to the number of increments of its key. |
| Metrics.TallyKeys | src/main/java/com/sougata/natscore/monitoring/NatsMetricsRecorder.java:18-34 | The cache holds a counter exactly for each key incremented at least once. |
| Metrics.GatedAppend | src/main/java/com/sougata/natscore/monitoring/NatsMetricsRecorder.java:15-16 | The enabled flag gates a run of calls as it gates each call. |
| Metrics.MetricsRecorder.constructor | src/main/java/com/sougata/natscore/monitoring/NatsMetricsRecorder.java:15-22 | A new recorder has the given enabled flag and no counters. |
| Metrics.MetricsRecorder.Increment | src/main/java/com/sougata/natscore/monitoring/NatsMetricsRecorder.java:28-34 | Records one increment of the key `name:topic` when enabled, and nothing otherwise. |
| Metrics.MetricsRecorder.IncrementSent | src/main/java/com/sougata/natscore/monitoring/NatsMetricsRecorder.java:36-38 | Records one increment of the sent key for the topic, when enabled. |
| Metrics.MetricsRecorder.IncrementReceived | src/main/java/com/sougata/natscore/monitoring/NatsMetricsRecorder.java:40-42 | Records one increment of the received key for the topic, when enabled. |
| Metrics.MetricsRecorder.IncrementError | src/main/java/com/sougata/natscore/monitoring/NatsMetricsRecorder.java:44-46 | Records one increment of the error key for the topic, when enabled. |
| ConfigLoader.EnabledOnly | src/main/java/com/sougata/natscore/config/EventComponentConfigLoader.java:57 | An entry is kept exactly when it is in the manifest and not disabled, so the list never grows. |
| ConfigLoader.EnabledOnlyAppend | src/main/java/com/sougata/natscore/config/EventComponentConfigLoader.java:57 | The filter keeps manifest order: it distributes over concatenation. |
| ConfigLoader.AddMeaning | src/main/java/com/sougata/natscore/config/EventComponentConfigLoader.java:91-94 | `computeIfAbsent(...).computeIfAbsent(...).add(group)` records exactly one more (topic, type, group) triple. It never leaves an empty inner map or set. |
| ConfigLoader.AddBindingsMeaning | src/main/java/com/sougata/natscore/config/EventComponentConfigLoader.java:86-95 | The inner loop records exactly the triples of the entry's bindings. |
| ConfigLoader.ReadIndexMeaning | src/main/java/com/sougata/natscore/config/EventComponentConfigLoader.java:83-96 | The index holds a triple exactly when some entry with a non-null read list reads that topic with that type and group. |
| ConfigLoader.ReadIndexWellShaped | src/main/java/com/sougata/natscore/config/EventComponentConfigLoader.java:91-94 | No topic of the index maps to an empty type map, and no type to an empty group set. |
| ConfigLoader.AddAll | src/main/java/com/sougata/natscore/config/EventComponentConfigLoader.java:86-95 | The loop over one entry's read bindings builds `AddBindings` of them. |
| ConfigLoader.BuildReadIndex | src/main/java/com/sougata/natscore/config/EventComponentConfigLoader.java:81-96 | The first loop builds `ReadIndexOf` the entries, skipping null read lists. |
| ConfigLoader.RenderedMembers | src/main/java/com/sougata/natscore/config/EventComponentConfigLoader.java:109-119 | `nonNullGroups` holds exactly the rendered groups met so far, with null rendered as "null". |
| ConfigLoader.LiteralClash | src/main/java/com/sougata/natscore/config/EventComponentConfigLoader.java:109-119 | Over a set's iteration, a non-null group is already in `nonNullGroups` exactly when it is the literal "null" and a null group came earlier. |
| ConfigLoader.ScanFromMeaning | src/main/java/com/sougata/natscore/config/EventComponentConfigLoader.java:109-119 | The scan throws exactly when a literal "null" follows a null group. The message then names the duplicate `null` and the topic. |
| ConfigLoader.NullCountAtMostOne | src/main/java/com/sougata/natscore/config/EventComponentConfigLoader.java:121-125 | A set holds null at most once, so the count of null groups is at most one. It is zero when null is absent, so this check never throws. |
| ConfigLoader.GroupsVerdictMeaning | src/main/java/com/sougata/natscore/config/EventComponentConfigLoader.java:108-125 | For any iteration order of a set, the group block fails exactly when a null group is met before the literal "null". |
| ConfigLoader.IterationOrderDecides | src/main/java/com/sougata/natscore/config/EventComponentConfigLoader.java:108-125 | The set {null, "null"} fails in one iteration order and passes in the other. |
| ConfigLoader.Enumerate | src/main/java/com/sougata/natscore/config/EventComponentConfigLoader.java:108-109 | Iterating a set visits every member exactly once. |
| ConfigLoader.CheckQueueGroups | src/main/java/com/sougata/natscore/config/EventComponentConfigLoader.java:108-125 | The loop filling `nonNullGroups`, followed by the null-count check, computes `GroupsVerdict` of the iteration order. |
| ConfigLoader.SameGroupTwiceAccepted | src/main/java/com/sougata/natscore/config/EventComponentConfigLoader.java:91-94 | Two handlers of one type reading a topic with the same group, null or not, pass, because the set keeps the group once. |
| ConfigLoader.ValidateReadTopicBindings | src/main/java/com/sougata/natscore/config/EventComponentConfigLoader.java:79-127 | Passing means every indexed topic has exactly one handler type. An index without mixed types and without both null and "null" in one group set always passes. Any failure names a topic with several types, or the `null` duplicate on a topic whose groups hold both. |
| ConfigLoader.CheckTopic | src/main/java/com/sougata/natscore/config/EventComponentConfigLoader.java:98-126 | One topic passes only with a single handler type, always passes when acceptable, and fails only with a message the index explains. |
| ConfigLoader.TopicNamesMembers | src/main/java/com/sougata/natscore/config/EventComponentConfigLoader.java:140-148 | A topic is collected exactly when some entry has a binding with that name on that side, treating a null list as empty. |
| ConfigLoader.ValidateReadWriteConflicts | src/main/java/com/sougata/natscore/config/EventComponentConfigLoader.java:138-158 | Any failure carries a non-empty overlap of written and read topics. |
| ConfigLoader.ConflictMeaning | src/main/java/com/sougata/natscore/config/EventComponentConfigLoader.java:138-158 | The check fails exactly when some topic is both written and read. The reported overlap is exactly the set of such topics. |
| ConfigLoader.Load | src/main/java/com/sougata/natscore/config/EventComponentConfigLoader.java:55-63 | The result is the enabled entries, and only when they pass both read-side checks and the conflict check. Entries that pass both always load. Each error is one that the enabled entries explain. The read-side check runs first: a conflict is reported only after it passed, and a topic with two handler types is reported as such even when topics also conflict. |
| WriteIndex.HasNullWritesMeaning | src/main/java/com/sougata/natscore/dispatcher/FunctionDispatcher.java:28-31 | The constructor throws exactly when some entry of its kind has a null write list. |
| WriteIndex.NullWritesPrefix | src/main/java/com/sougata/natscore/dispatcher/FunctionDispatcher.java:28-31 | A null write list in a prefix of the manifest is one in the whole manifest. |
| WriteIndex.WriteBindingsOfKind | src/main/java/com/sougata/natscore/dispatcher/FunctionDispatcher.java:28-31 | A binding is indexed exactly when it is a write binding of some entry of that kind. |
| WriteIndex.IndexOfKeys | src/main/java/com/sougata/natscore/dispatcher/FunctionDispatcher.java:28-31 | A message type is a key of the index exactly when some write binding declares it. |
| WriteIndex.IndexOfLastWins | src/main/java/com/sougata/natscore/dispatcher/FunctionDispatcher.java:28-31 | Among bindings with the same message type, the last one wins. It decides the topic. |
| WriteIndex.PutAll | src/main/java/com/sougata/natscore/dispatcher/FunctionDispatcher.java:30 | One entry's `forEach(put)` extends the index by its bindings, in order. |
| WriteIndex.BuildWriteTopicMap | src/main/java/com/sougata/natscore/dispatcher/FunctionDispatcher.java:24-32 | Returns None exactly when construction would throw, and otherwise the last-wins index of the kind's write bindings. |
| Dispatch.Transport.constructor | src/main/java/com/sougata/natscore/dispatcher/AbstractDispatcher.java:26 | A fresh connection with empty publish, subscribe and drain logs. |
| Dispatch.Transport.Publish | src/main/java/com/sougata/natscore/dispatcher/AbstractDispatcher.java:59-63 | A working connection logs the publication. A failing one throws and logs nothing. |
| Dispatch.Transport.Subscribe | src/main/java/com/sougata/natscore/dispatcher/ConsumerDispatcher.java:42-45 | Logs the subscription and nothing else. |
| Dispatch.Transport.Drain | src/main/java/com/sougata/natscore/dispatcher/AbstractDispatcher.java:92-98 | Logs the drain call and whether it completed. |
| Dispatch.SubscriptionsFor | src/main/java/com/sougata/natscore/dispatcher/ConsumerDispatcher.java:28-46 | One subscription per binding, in binding order. A queue group is passed exactly when it is non-empty. |
| Dispatch.HeadersOverMeaning | src/main/java/com/sougata/natscore/dispatcher/AbstractDispatcher.java:69-73 | Over distinct header names, each present header is added once, as a one-element list under its wire key. Nothing else is added. |
| Dispatch.WireHeadersMeaning | src/main/java/com/sougata/natscore/dispatcher/AbstractDispatcher.java:69-73 | A wire key is present exactly when its header is in the envelope, it holds that value alone, and no other key is present. |
| Dispatch.EmitAllAppend | src/main/java/com/sougata/natscore/dispatcher/FunctionFanoutDispatcher.java:50-52 | Publishing two lists one after the other makes the publishes and sent increments of their concatenation. |
| Dispatch.UnroutedIsDropped | src/main/java/com/sougata/natscore/dispatcher/AbstractDispatcher.java:51-67 | An envelope whose payload type has no write topic is neither published nor counted. |
| Dispatch.SentMatchesPublished | src/main/java/com/sougata/natscore/dispatcher/AbstractDispatcher.java:51-67 | Each publish is followed by exactly one sent increment, for its topic. A failing connection publishes and counts nothing. |
| Dispatch.EmitAllInOrder | src/main/java/com/sougata/natscore/dispatcher/FunctionFanoutDispatcher.java:50-52 | With every envelope routed and a working connection, each envelope is published once, in list order, to its write topic, with its wire headers and body. |
| Dispatch.Inbound | src/main/java/com/sougata/natscore/dispatcher/AbstractDispatcher.java:35-48 | The inbound envelope fails exactly when the binding's message type is blank. Otherwise it carries the body and the declared type, plus the incoming correlation id and creation time when present, else fresh ones. |
| Dispatch.DrainCallsFor | src/main/java/com/sougata/natscore/dispatcher/AbstractDispatcher.java:89-100 | One drain per subscription, in order, each completing exactly when the connection works. |
| Dispatch.DispatchBase.constructor | src/main/java/com/sougata/natscore/dispatcher/AbstractDispatcher.java:30-33 | Holds the connection, the recorder and the write-topic index. There are no dispatchers yet and the logging slot is empty. |
| Dispatch.DispatchBase.ExtractIncoming | src/main/java/com/sougata/natscore/dispatcher/AbstractDispatcher.java:35-48 | A message without headers throws before anything is counted. Otherwise the received counter is raised, the logging slot takes the incoming correlation id, and the result is `Inbound`. |
| Dispatch.DispatchBase.Publish | src/main/java/com/sougata/natscore/dispatcher/AbstractDispatcher.java:51-67 | Publishes and counts exactly `Emit`/`SentKeys` of the envelope, and always clears the logging slot. |
| Dispatch.DispatchBase.PublishEach | src/main/java/com/sougata/natscore/dispatcher/FunctionFanoutDispatcher.java:50-52 | One publish call per envelope, in order: the logs grow by `EmitAll`/`SentKeysAll`. |
| Dispatch.DispatchBase.ToHeaders | src/main/java/com/sougata/natscore/dispatcher/AbstractDispatcher.java:69-73 | The loop over the header names builds `WireHeaders`, whose meaning `WireHeadersMeaning` states. |
| Dispatch.DispatchBase.RegisterDispatcher | src/main/java/com/sougata/natscore/dispatcher/AbstractDispatcher.java:85-87 | Appends the dispatcher to the list. |
| Dispatch.DispatchBase.SubscribeEach | src/main/java/com/sougata/natscore/dispatcher/ConsumerDispatcher.java:28-47 | Creates and subscribes one dispatcher per binding, in order, as `SubscriptionsFor` says. |
| Dispatch.DispatchBase.Shutdown | src/main/java/com/sougata/natscore/dispatcher/AbstractDispatcher.java:89-100 | Drains every dispatcher once, in creation order. A failing drain does not stop the rest. |
| Consumer.ConsumerEffect | src/main/java/com/sougata/natscore/dispatcher/ConsumerDispatcher.java:29-40 | A consumer callback never publishes, raises `received` first and exactly once whatever the handler does, and counts a handler exception once without letting it escape. It escapes only for missing headers or a blank message type, and clears the logging slot after every message the handler saw. |
| Consumer.ConsumerDispatcher.constructor | src/main/java/com/sougata/natscore/dispatcher/ConsumerDispatcher.java:23-25 | A consumer dispatcher over the connection and recorder, with no write topics. |
| Consumer.ConsumerDispatcher.Register | src/main/java/com/sougata/natscore/dispatcher/ConsumerDispatcher.java:27-48 | A null topic list throws. Otherwise there is one subscription per binding, in order. |
| Consumer.ConsumerDispatcher.OnMessage | src/main/java/com/sougata/natscore/dispatcher/ConsumerDispatcher.java:29-40 | The callback's counters, end and logging slot are those of `ConsumerEffect`, and nothing is published. |
| Function.FunctionEscapes | src/main/java/com/sougata/natscore/dispatcher/FunctionDispatcher.java:36-46 | The callback escapes exactly on missing headers or a blank message type, and then publishes nothing. A message with headers raises `received` first and exactly once, whatever the handler does. |
| Function.FunctionThrowCountedOnce | src/main/java/com/sougata/natscore/dispatcher/FunctionDispatcher.java:39-44 | An error is counted once, exactly when the handler ran and threw. |
| Function.FunctionPublishesAtMostOnce | src/main/java/com/sougata/natscore/dispatcher/FunctionDispatcher.java:36-46 | At most one publish: the returned envelope, to its write topic, on a working connection, counted once under that topic. |
| Function.FunctionPublishesResult | src/main/java/com/sougata/natscore/dispatcher/FunctionDispatcher.java:37-45 | A non-null result of a delivered message is published: the callback completes, clears the logging slot, publishes what `publish` does for that envelope, and counts received and then sent. With a routed payload type on a working connection, that is exactly one publication to the write topic with the envelope's wire headers and body, and one sent increment for that topic. |
| Function.FunctionContext | src/main/java/com/sougata/natscore/dispatcher/FunctionDispatcher.java:36-46 | The logging slot is cleared only when publish ran. A null result or an exception leaves the incoming correlation id. |
| Function.FunctionDispatcher.constructor | src/main/java/com/sougata/natscore/dispatcher/FunctionDispatcher.java:24-32 | A function dispatcher over the connection, recorder and write-topic index. |
| Function.FunctionDispatcher.Register | src/main/java/com/sougata/natscore/dispatcher/FunctionDispatcher.java:34-54 | A null topic list throws. Otherwise there is one subscription per binding, in order. |
| Function.FunctionDispatcher.OnMessage | src/main/java/com/sougata/natscore/dispatcher/FunctionDispatcher.java:36-46 | The counters, publishes, end and logging slot are those of `FunctionEffect`. |
| Function.NewFunctionDispatcher | src/main/java/com/sougata/natscore/dispatcher/FunctionDispatcher.java:24-32 | Construction fails exactly when a FUNCTION entry has a null write list. Otherwise the index is that of the FUNCTION write bindings. |
| FunctionFanout.FanoutEscapes | src/main/java/com/sougata/natscore/dispatcher/FunctionFanoutDispatcher.java:37-53 | The callback escapes on missing headers, a blank message type, or a handler exception (the loop then meets the null list). An escaping callback publishes nothing. A message with headers raises `received` first and exactly once, whatever the handler does. |
| FunctionFanout.FanoutThrowCountedOnce | src/main/java/com/sougata/natscore/dispatcher/FunctionFanoutDispatcher.java:46-49 | An error is counted once, exactly when the handler ran and threw. |
| FunctionFanout.SentKeysOnlySent | src/main/java/com/sougata/natscore/dispatcher/FunctionFanoutDispatcher.java:50-52 | Publishing a list raises only sent counters: never a received or an error counter of any topic. |
| FunctionFanout.FanoutNothingToDispatch | src/main/java/com/sougata/natscore/dispatcher/FunctionFanoutDispatcher.java:42-45 | A null or empty result publishes nothing, counts only `received`, and leaves the incoming correlation id. |
| FunctionFanout.FanoutPublishesInOrder | src/main/java/com/sougata/natscore/dispatcher/FunctionFanoutDispatcher.java:50-52 | With a working connection and every envelope routed, each returned envelope is published once, in order, counted under its topic. |
| FunctionFanout.FunctionFanoutDispatcher.constructor | src/main/java/com/sougata/natscore/dispatcher/FunctionFanoutDispatcher.java:25-33 | A fan-out function dispatcher over the connection, recorder and index. |
| FunctionFanout.FunctionFanoutDispatcher.Register | src/main/java/com/sougata/natscore/dispatcher/FunctionFanoutDispatcher.java:35-61 | A null topic list throws. Otherwise there is one subscription per binding, in order. |
| FunctionFanout.FunctionFanoutDispatcher.OnMessage | src/main/java/com/sougata/natscore/dispatcher/FunctionFanoutDispatcher.java:37-53 | The counters, publishes, end and logging slot are those of `FanoutEffect`. |
| FunctionFanout.NewFunctionFanoutDispatcher | src/main/java/com/sougata/natscore/dispatcher/FunctionFanoutDispatcher.java:25-33 | Construction fails exactly when a FUNCTION_FANOUT entry has a null write list. Otherwise the index is that of its write bindings. |
| Supplier.LeadingCalls | src/main/java/com/sougata/natscore/dispatcher/SupplierDispatcher.java:51-61 | The loop calls supply on every turn before the first interrupt and stops there. |
| Supplier.SuppliedMembers | src/main/java/com/sougata/natscore/dispatcher/SupplierDispatcher.java:51-61 | An envelope is handed to publish exactly when some call returned it. Null results and exceptions are skipped and the loop goes on. |
| Supplier.SupplierDispatcher.constructor | src/main/java/com/sougata/natscore/dispatcher/SupplierDispatcher.java:26-44 | A supplier dispatcher with no submitted loops and a live executor. |
| Supplier.SupplierDispatcher.Register | src/main/java/com/sougata/natscore/dispatcher/SupplierDispatcher.java:46-49 | Submits the supplier's loop unless the executor was shut down. |
| Supplier.SupplierDispatcher.Shutdown | src/main/java/com/sougata/natscore/dispatcher/SupplierDispatcher.java:63-66 | Shuts the executor down and keeps the submitted list. |
| Supplier.SupplierDispatcher.SupplyOnce | src/main/java/com/sougata/natscore/dispatcher/SupplierDispatcher.java:53-59 | One turn publishes the supplied envelope, or nothing for null or an exception. |
| Supplier.SupplierDispatcher.RunSupplierLoop | src/main/java/com/sougata/natscore/dispatcher/SupplierDispatcher.java:51-61 | Makes `LeadingCalls` supply calls and publishes and counts exactly the envelopes they return, in order. |
| Supplier.NewSupplierDispatcher | src/main/java/com/sougata/natscore/dispatcher/SupplierDispatcher.java:26-44 | Construction fails exactly when a SUPPLIER entry has a null write list. Otherwise the index is that of its write bindings. |
| SupplierFanout.FirstStop | src/main/java/com/sougata/natscore/dispatcher/SupplierFanoutDispatcher.java:54-68 | The first turn at or after i that ends the loop lies between i and the end of the script. |
| SupplierFanout.FirstStopMeaning | src/main/java/com/sougata/natscore/dispatcher/SupplierFanoutDispatcher.java:54-68 | No turn before the stop ends the loop, and the stop, if inside the script, does. |
| SupplierFanout.FirstStopAt | src/main/java/com/sougata/natscore/dispatcher/SupplierFanoutDispatcher.java:54-68 | Any position with those two properties is the stop. |
| SupplierFanout.CallsOf | src/main/java/com/sougata/natscore/dispatcher/SupplierFanoutDispatcher.java:54-68 | The loop never makes more calls than there are turns. |
| SupplierFanout.StopIsFirst | src/main/java/com/sougata/natscore/dispatcher/SupplierFanoutDispatcher.java:55-61 | The loop ends at the first interrupt or empty list, and at no earlier turn. |
| SupplierFanout.BatchesMembers | src/main/java/com/sougata/natscore/dispatcher/SupplierFanoutDispatcher.java:57-63 | An envelope is published exactly when some call before the stop returned a list holding it. |
| SupplierFanout.BatchesAtExit | src/main/java/com/sougata/natscore/dispatcher/SupplierFanoutDispatcher.java:58-61 | The empty list that ends the loop publishes nothing. |
| SupplierFanout.StopHere | src/main/java/com/sougata/natscore/dispatcher/SupplierFanoutDispatcher.java:55-61 | A scan that reaches the end, or a turn ending the loop, before or at the stop, is at the stop. |
| SupplierFanout.RunsToEnd | src/main/java/com/sougata/natscore/dispatcher/SupplierFanoutDispatcher.java:55-67 | Without interrupts and empty lists, the loop calls supply on every turn. A null result or an exception does not end it. |
| SupplierFanout.SupplierFanoutDispatcher.constructor | src/main/java/com/sougata/natscore/dispatcher/SupplierFanoutDispatcher.java:28-47 | A fan-out supplier dispatcher with no submitted loops and a live executor. |
| SupplierFanout.SupplierFanoutDispatcher.Register | src/main/java/com/sougata/natscore/dispatcher/SupplierFanoutDispatcher.java:49-52 | Submits the supplier's loop unless the executor was shut down. |
| SupplierFanout.SupplierFanoutDispatcher.Shutdown | src/main/java/com/sougata/natscore/dispatcher/SupplierFanoutDispatcher.java:70-73 | Shuts the executor down and keeps the submitted list. |
| SupplierFanout.SupplierFanoutDispatcher.RunFanoutSupplierLoop | src/main/java/com/sougata/natscore/dispatcher/SupplierFanoutDispatcher.java:54-68 | The calls and the way the loop ends are `CallsOf`/`ExitOf`. Exactly the returned lists before the stop are published and counted, in order. |
| SupplierFanout.SupplierFanoutDispatcher.SupplyUntilStop | src/main/java/com/sougata/natscore/dispatcher/SupplierFanoutDispatcher.java:55-67 | Runs turns up to the stop, publishing each batch, and returns the stop. |
| SupplierFanout.SupplierFanoutDispatcher.SupplyTurn | src/main/java/com/sougata/natscore/dispatcher/SupplierFanoutDispatcher.java:57-63 | One turn extends the logs by that turn's batch. |
| SupplierFanout.NewSupplierFanoutDispatcher | src/main/java/com/sougata/natscore/dispatcher/SupplierFanoutDispatcher.java:28-47 | Construction fails exactly when a SUPPLIER_FANOUT entry has a null write list. Otherwise the index is that of its write bindings. |
| Registrar.Route | src/main/java/com/sougata/natscore/registry/NatsEventComponentRegistrar.java:21-30 | An entry registers exactly when its bean exists, its type is known, the bean implements that type's contract, and read-side types have a read list. The registration goes to the dispatcher of its type with the entry's topics. Otherwise the matching error is raised. |
| Registrar.AllRoutedAllRegistered | src/main/java/com/sougata/natscore/registry/NatsEventComponentRegistrar.java:20-31 | When every entry routes, each is registered once, in manifest order, and nothing escapes. |
| Registrar.PlanAbsorbs | src/main/java/com/sougata/natscore/registry/NatsEventComponentRegistrar.java:20-31 | Once an exception escaped, later entries are not registered. |
| Registrar.StopsAtFirstFailure | src/main/java/com/sougata/natscore/registry/NatsEventComponentRegistrar.java:20-31 | The first failing entry's error escapes, after one register call for each earlier entry. |
| Registrar.RegisterAll | src/main/java/com/sougata/natscore/registry/NatsEventComponentRegistrar.java:20-31 | The loop makes exactly the calls of `Plan` and stops with its error. |
| ContractValidator.SchemaRegistryClient.constructor | src/main/java/com/sougata/natscore/schema/SchemaRegistryClient.java:30-51 | A client over a registry that rejects some topics and stores some records, with no calls made yet. |
| ContractValidator.SchemaRegistryClient.RegisterSchema | src/main/java/com/sougata/natscore/schema/SchemaRegistryClient.java:30-41 | Logs the call. It fails exactly for a rejecting topic. |
| ContractValidator.SchemaRegistryClient.FetchSchema | src/main/java/com/sougata/natscore/schema/SchemaRegistryClient.java:43-51 | Logs the call. It returns the stored record or empty, and never throws. |
| ContractValidator.EntryBindingsMembers | src/main/java/com/sougata/natscore/schema/StartupContractValidator.java:35-39 | An entry contributes exactly its read and write bindings, treating a null list as empty. |
| ContractValidator.AllBindingsMembers | src/main/java/com/sougata/natscore/schema/StartupContractValidator.java:33-40 | A binding is considered exactly when some enabled entry reads or writes it. |
| ContractValidator.DedupTopics | src/main/java/com/sougata/natscore/schema/StartupContractValidator.java:53-54 | The validated bindings have distinct topics, and every topic is validated. |
| ContractValidator.DedupFirstWins | src/main/java/com/sougata/natscore/schema/StartupContractValidator.java:53-54 | The first binding of each topic is the one validated. |
| ContractValidator.ProcessTopicShape | src/main/java/com/sougata/natscore/schema/StartupContractValidator.java:56-88 | A missing class fails without calls, and a non-Message class is skipped. Otherwise the local record is registered, and after a successful registration the topic is fetched. Only a different remote fingerprint then fails. |
| ContractValidator.ProcessAbsorbs | src/main/java/com/sougata/natscore/schema/StartupContractValidator.java:42-44 | After an exception, no later binding is validated. |
| ContractValidator.ProcessAllPass | src/main/java/com/sougata/natscore/schema/StartupContractValidator.java:42-44 | When no validated binding fails, every one makes its calls, in order. |
| ContractValidator.StopsAtFirstFailure | src/main/java/com/sougata/natscore/schema/StartupContractValidator.java:42-44 | The first failing topic's error escapes, after the calls of all earlier topics and its own. |
| ContractValidator.Validate | src/main/java/com/sougata/natscore/schema/StartupContractValidator.java:49-89 | A topic seen before makes no calls. A first one is marked seen and makes exactly its `ProcessTopic` calls and error. |
| ContractValidator.ValidateContracts | src/main/java/com/sougata/natscore/schema/StartupContractValidator.java:29-47 | The registry calls and the escaping error are those of processing the first binding of each topic, in manifest order. |

## Left out

- **Parsing and infrastructure.** Reading and parsing the manifest file (Jackson), and the missing-file error, are not part of this model. The model starts from the parsed entry list. TLS setup (`NatsSslUtils`), the health indicator, connection configuration and Spring wiring are not part of this model either.
- **Logging.** Log output is left out. The correlation-id slot of the logging context is kept as one value per dispatcher base.
- **Supplier threads.** The logging slot is not tracked in the supplier loops, which run on executor threads with their own thread-local context.
- **Concurrency.** Threads, the executor's pool size and interleavings are left out. A supplier loop is one sequential run over a finite script of turns, and an interrupt delivered by `shutdownNow` is an `Interrupt` turn. The unbounded loop is covered only up to the length of the script.
- **Connection failures.** A failing connection is a fixed `failing` flag on `Transport`: every publish and every drain throws, or none does. jnats subject validation and subscribe failures are not modelled.
- **Protobuf and encodings.** Protobuf reflection, the descriptor's SHA-256 and its Base64 encoding are uninterpreted functions in `Protobuf`. The `getDefaultInstance` reflection failure is not modelled separately from a missing class.
- **Schema registry.** The registry server is abstract: a set of topics whose registration fails, and a map of stored records. HTTP is not modelled.
- **Registrar.** The registrar records the register call it would make on each dispatcher, and does not run the dispatchers' register methods itself. Bean lookup is a map from handler class to the contracts the bean implements.
- **Null names.** Null `topicName` and `messageType` are not modelled: both are plain strings.
- **Unknown handler types.** A null handler type stands for any value outside the enum.
- **Null list elements.** Null elements inside a returned fan-out list are not modelled.
- **Micrometer.** Counters are counts under their key. Micrometer's meter registry and tags are not modelled.
- **Iteration order.** The iteration order of the `HashMap` over topics and of each queue-group `HashSet` is left open. The set order is an arbitrary enumeration, and the topics are visited in an arbitrary order.
- **toHeaders.** `toHeaders` visits the envelope's `EnumMap` in enum order, which is the order `AllHeaders` lists.
- **Timestamps.** The clock reading and the random UUID used when a header is filled in are parameters (`now`, `uuid`). `String.valueOf(long)` is `DecimalString` on a natural number, so there are no negative times or 64-bit wrap-around.
- SupplierFanout.FirstStop: its own contract states only the bounds. That the result is the first turn ending the loop is stated separately by `FirstStopMeaning` and `FirstStopAt`.
- ConfigLoader.ValidateReadWriteConflicts: its own contract states only that a failure has a non-empty overlap. The if-and-only-if, and the exact overlap, are stated by `ConflictMeaning`.
