/** StartupContractValidator: for every topic of the enabled entries, the
    first binding naming it registers the protobuf schema of its message
    type with the schema registry and compares the registry's fingerprint
    with the local one. Any failure aborts startup. */
module ContractValidator {
  import opened Wrappers
  import opened Model

  /** What Class.forName and the Message check find for a message type. */
  datatype MessageClass = Missing | NotAMessage | ProtoMessage

  /** The protobuf side, left uninterpreted: the class lookup, the SHA-256 of
      the descriptor and its Base64 encoding, each a function of the type name. */
  datatype Protobuf = Protobuf(classify: string -> MessageClass, fingerprint: string -> string, encode: string -> string)

  /** The record sent to the registry (SchemaBinding). */
  datatype SchemaBinding = SchemaBinding(topic: string, protoMessageType: string, descriptorSha256: string, descriptorBase64: string)

  /** One call on the registry client. */
  datatype RegistryCall = Register(record: SchemaBinding) | Fetch(topic: string)

  /** The exceptions validate rethrows. */
  datatype ValidationError = ClassNotFound(topic: string) | RegisterFailed(topic: string) | ContractMismatch(topic: string)

  /** SchemaRegistryClient over an abstract registry: a registration of a
      topic in rejects throws; a fetch answers with the stored record, and
      an absent entry stands for both an empty body and a failed request. */
  class SchemaRegistryClient {
    const rejects: set<string>
    const remote: map<string, SchemaBinding>
    var calls: seq<RegistryCall>

    constructor (rejects: set<string>, remote: map<string, SchemaBinding>)
      ensures this.rejects == rejects && this.remote == remote && calls == []
    {
      this.rejects, this.remote, calls := rejects, remote, [];
    }

    /** registerSchema: posts the record; a failure is rethrown (ok false). */
    method RegisterSchema(record: SchemaBinding) returns (ok: bool)
      modifies this
      ensures calls == old(calls) + [Register(record)]
      ensures ok <==> record.topic !in rejects
    {
      calls := calls + [Register(record)];
      ok := record.topic !in rejects;
    }

    /** fetchSchema: the stored record, or empty; it never throws. */
    method FetchSchema(topic: string) returns (r: Option<SchemaBinding>)
      modifies this
      ensures calls == old(calls) + [Fetch(topic)]
      ensures r == if topic in remote then Some(remote[topic]) else None
    {
      calls := calls + [Fetch(topic)];
      r := if topic in remote then Some(remote[topic]) else None;
    }
  }

  // ---------------------------------------------------------------------
  // The bindings considered.

  /** The read then write bindings of one entry, a null list counting as empty. */
  function EntryBindings(e: EventComponentEntry): seq<TopicBinding>
  {
    (if e.readTopics.None? then [] else e.readTopics.value) + (if e.writeTopics.None? then [] else e.writeTopics.value)
  }

  /** The bindings of the enabled entries, in manifest order. */
  function AllBindings(entries: seq<EventComponentEntry>): seq<TopicBinding>
  {
    if entries == [] then []
    else
      var e := entries[|entries| - 1];
      AllBindings(entries[..|entries| - 1]) + (if e.disabled then [] else EntryBindings(e))
  }

  lemma EntryBindingsMembers(e: EventComponentEntry, b: TopicBinding)
    ensures b in EntryBindings(e) <==>
            (e.readTopics.Some? && b in e.readTopics.value) || (e.writeTopics.Some? && b in e.writeTopics.value)
  {
  }

  /** The entry is enabled and reads or writes the binding. */
  predicate Uses(e: EventComponentEntry, b: TopicBinding)
  {
    !e.disabled && ((e.readTopics.Some? && b in e.readTopics.value) || (e.writeTopics.Some? && b in e.writeTopics.value))
  }

  lemma AllBindingsLast(entries: seq<EventComponentEntry>, b: TopicBinding)
    requires entries != []
    ensures b in AllBindings(entries) <==> b in AllBindings(entries[..|entries| - 1]) || Uses(entries[|entries| - 1], b)
  {
    EntryBindingsMembers(entries[|entries| - 1], b);
  }

  /** A binding is considered exactly when some enabled entry reads or writes it. */
  lemma AllBindingsMembers(entries: seq<EventComponentEntry>, b: TopicBinding)
    ensures b in AllBindings(entries) <==> exists i :: 0 <= i < |entries| && Uses(entries[i], b)
  {
    if b in AllBindings(entries) {
      AllBindingsFound(entries, b);
    }
    forall i | 0 <= i < |entries| && Uses(entries[i], b) ensures b in AllBindings(entries) {
      AllBindingsComplete(entries, b, i);
    }
  }

  lemma {:induction false} AllBindingsFound(entries: seq<EventComponentEntry>, b: TopicBinding)
    requires b in AllBindings(entries)
    ensures exists i :: 0 <= i < |entries| && Uses(entries[i], b)
  {
    var n := |entries| - 1;
    var init := entries[..n];
    AllBindingsLast(entries, b);
    if b in AllBindings(init) {
      AllBindingsFound(init, b);
      var i :| 0 <= i < n && Uses(init[i], b);
      assert init[i] == entries[i];
    } else {
      assert Uses(entries[n], b);
    }
  }

  lemma {:induction false} AllBindingsComplete(entries: seq<EventComponentEntry>, b: TopicBinding, i: nat)
    requires i < |entries| && Uses(entries[i], b)
    ensures b in AllBindings(entries)
  {
    var n := |entries| - 1;
    AllBindingsLast(entries, b);
    if i < n {
      var init := entries[..n];
      assert init[i] == entries[i];
      AllBindingsComplete(init, b, i);
      assert b in AllBindings(init);
    } else {
      assert Uses(entries[n], b);
    }
  }

  // ---------------------------------------------------------------------
  // Deduplication: the first binding of each topic.

  function TopicsOf(bs: seq<TopicBinding>): set<string>
  {
    set b | b in bs :: b.topicName
  }

  /** The bindings whose topic was not seen before, in order. */
  function Dedup(bs: seq<TopicBinding>): seq<TopicBinding>
  {
    if bs == [] then []
    else
      var init := bs[..|bs| - 1];
      var b := bs[|bs| - 1];
      Dedup(init) + (if b.topicName in TopicsOf(init) then [] else [b])
  }

  /** b is the first binding of its topic in bs. */
  ghost predicate FirstOfTopic(bs: seq<TopicBinding>, b: TopicBinding)
  {
    exists j :: 0 <= j < |bs| && bs[j] == b && forall k :: 0 <= k < j ==> bs[k].topicName != b.topicName
  }

  /** The kept bindings have distinct topics and cover every topic. */
  lemma {:induction false} DedupTopics(bs: seq<TopicBinding>)
    ensures forall i, j :: 0 <= i < j < |Dedup(bs)| ==> Dedup(bs)[i].topicName != Dedup(bs)[j].topicName
    ensures TopicsOf(Dedup(bs)) == TopicsOf(bs)
  {
    if bs != [] {
      var n := |bs| - 1;
      var init := bs[..n];
      var b := bs[n];
      DedupTopics(init);
      assert bs == init + [b];
      assert TopicsOf(bs) == TopicsOf(init) + {b.topicName};
      if b.topicName !in TopicsOf(init) {
        forall i | 0 <= i < |Dedup(init)|
          ensures Dedup(init)[i].topicName != b.topicName
        {
          assert Dedup(init)[i] in Dedup(init);
        }
      }
    }
  }

  /** First occurrence wins: each kept binding is the first of its topic. */
  lemma {:induction false} DedupFirstWins(bs: seq<TopicBinding>)
    ensures forall b :: b in Dedup(bs) ==> FirstOfTopic(bs, b)
  {
    if bs != [] {
      var n := |bs| - 1;
      var init := bs[..n];
      var b := bs[n];
      DedupFirstWins(init);
      forall c | c in Dedup(bs)
        ensures FirstOfTopic(bs, c)
      {
        if c in Dedup(init) {
          var j :| 0 <= j < |init| && init[j] == c && forall k :: 0 <= k < j ==> init[k].topicName != c.topicName;
          assert bs[j] == c;
          assert forall k :: 0 <= k < j ==> bs[k] == init[k];
        } else {
          assert c == b && b.topicName !in TopicsOf(init);
          forall k | 0 <= k < n
            ensures bs[k].topicName != b.topicName
          {
            assert bs[k] == init[k] && init[k] in init;
          }
        }
      }
    }
  }

  /** Dedup of a prefix is a prefix of Dedup. */
  lemma {:induction false} DedupPrefix(bs: seq<TopicBinding>, i: nat)
    requires i <= |bs|
    ensures exists rest :: Dedup(bs) == Dedup(bs[..i]) + rest
    decreases |bs|
  {
    if i == |bs| {
      assert bs[..i] == bs;
      assert Dedup(bs) == Dedup(bs[..i]) + [];
    } else {
      var n := |bs| - 1;
      var init := bs[..n];
      DedupPrefix(init, i);
      assert init[..i] == bs[..i];
      var rest :| Dedup(init) == Dedup(bs[..i]) + rest;
      var tail := if bs[n].topicName in TopicsOf(init) then [] else [bs[n]];
      assert Dedup(bs) == Dedup(bs[..i]) + (rest + tail);
    }
  }

  lemma DedupStep(bs: seq<TopicBinding>, i: nat)
    requires i < |bs|
    ensures Dedup(bs[..i + 1]) == Dedup(bs[..i]) + (if bs[i].topicName in TopicsOf(bs[..i]) then [] else [bs[i]])
    ensures TopicsOf(bs[..i + 1]) == TopicsOf(bs[..i]) + {bs[i].topicName}
  {
    assert bs[..i + 1][..i] == bs[..i];
    assert bs[..i + 1] == bs[..i] + [bs[i]];
  }

  // ---------------------------------------------------------------------
  // Processing the kept bindings.

  /** The calls one validate makes for a topic it has not seen, and the
      exception it rethrows, if any. */
  datatype Step = Step(calls: seq<RegistryCall>, error: Option<ValidationError>)

  /** The record validate builds for a binding. */
  function RecordFor(proto: Protobuf, b: TopicBinding): SchemaBinding
  {
    SchemaBinding(b.topicName, b.messageType, proto.fingerprint(b.messageType), proto.encode(b.messageType))
  }

  /** validate on a first binding: a missing class is fatal, a class that is
      not a Message is skipped, otherwise register, then fetch and compare. */
  function ProcessTopic(proto: Protobuf, rejects: set<string>, remote: map<string, SchemaBinding>, b: TopicBinding): Step
  {
    match proto.classify(b.messageType)
    case Missing => Step([], Some(ClassNotFound(b.topicName)))
    case NotAMessage => Step([], None)
    case ProtoMessage =>
      var record := RecordFor(proto, b);
      if b.topicName in rejects then Step([Register(record)], Some(RegisterFailed(b.topicName)))
      else if b.topicName in remote && remote[b.topicName].descriptorSha256 != record.descriptorSha256 then
        Step([Register(record), Fetch(b.topicName)], Some(ContractMismatch(b.topicName)))
      else Step([Register(record), Fetch(b.topicName)], None)
  }

  /** What the calls of one topic look like: nothing, a bare registration that
      failed, or the registration of the local record followed by the fetch
      of the same topic; mismatch is the only fetched outcome that fails. */
  lemma ProcessTopicShape(proto: Protobuf, rejects: set<string>, remote: map<string, SchemaBinding>, b: TopicBinding)
    ensures var s := ProcessTopic(proto, rejects, remote, b);
            && (proto.classify(b.messageType) != ProtoMessage <==> s.calls == [])
            && (proto.classify(b.messageType) == NotAMessage ==> s.error.None?)
            && (s.calls != [] ==> s.calls[0] == Register(RecordFor(proto, b)))
            && (|s.calls| == 2 <==> proto.classify(b.messageType) == ProtoMessage && b.topicName !in rejects)
            && (|s.calls| == 2 ==> s.calls[1] == Fetch(b.topicName))
            && (|s.calls| == 2 && s.error.Some? <==>
                  |s.calls| == 2 && b.topicName in remote && remote[b.topicName].descriptorSha256 != proto.fingerprint(b.messageType))
  {
  }

  /** The registry calls made and the exception that escaped, if any. */
  datatype Report = Report(calls: seq<RegistryCall>, stop: Option<ValidationError>)

  /** Processing the kept bindings in order, stopping at the first exception. */
  function Process(proto: Protobuf, rejects: set<string>, remote: map<string, SchemaBinding>, ds: seq<TopicBinding>): Report
  {
    if ds == [] then Report([], None)
    else
      var before := Process(proto, rejects, remote, ds[..|ds| - 1]);
      if before.stop.Some? then before
      else
        var s := ProcessTopic(proto, rejects, remote, ds[|ds| - 1]);
        Report(before.calls + s.calls, s.error)
  }

  /** Once an exception escaped, later bindings are not processed. */
  lemma {:induction false} ProcessAbsorbs(proto: Protobuf, rejects: set<string>, remote: map<string, SchemaBinding>,
                                          ds: seq<TopicBinding>, rest: seq<TopicBinding>)
    requires Process(proto, rejects, remote, ds).stop.Some?
    ensures Process(proto, rejects, remote, ds + rest) == Process(proto, rejects, remote, ds)
    decreases |rest|
  {
    if rest == [] {
      assert ds + rest == ds;
    } else {
      var init := rest[..|rest| - 1];
      assert (ds + rest)[..|ds + rest| - 1] == ds + init;
      ProcessAbsorbs(proto, rejects, remote, ds, init);
    }
  }

  /** The calls of the first k kept bindings' steps, concatenated. */
  function StepsCalls(proto: Protobuf, rejects: set<string>, remote: map<string, SchemaBinding>, ds: seq<TopicBinding>, k: nat): seq<RegistryCall>
    requires k <= |ds|
  {
    if k == 0 then [] else StepsCalls(proto, rejects, remote, ds, k - 1) + ProcessTopic(proto, rejects, remote, ds[k - 1]).calls
  }

  lemma {:induction false} StepsCallsPrefix(proto: Protobuf, rejects: set<string>, remote: map<string, SchemaBinding>,
                                            ds: seq<TopicBinding>, n: nat, k: nat)
    requires k <= n <= |ds|
    ensures StepsCalls(proto, rejects, remote, ds[..n], k) == StepsCalls(proto, rejects, remote, ds, k)
  {
    if k > 0 {
      StepsCallsPrefix(proto, rejects, remote, ds, n, k - 1);
      assert ds[..n][k - 1] == ds[k - 1];
    }
  }

  /** When no kept binding fails, every one is processed, in order. */
  lemma {:induction false} ProcessAllPass(proto: Protobuf, rejects: set<string>, remote: map<string, SchemaBinding>, ds: seq<TopicBinding>)
    requires forall j :: 0 <= j < |ds| ==> ProcessTopic(proto, rejects, remote, ds[j]).error.None?
    ensures Process(proto, rejects, remote, ds) == Report(StepsCalls(proto, rejects, remote, ds, |ds|), None)
  {
    if ds != [] {
      var n := |ds| - 1;
      ProcessAllPass(proto, rejects, remote, ds[..n]);
      StepsCallsPrefix(proto, rejects, remote, ds, n, n);
    }
  }

  /** The first kept binding that fails ends validation: its calls are the
      last ones made, its exception escapes, and no later topic is processed. */
  lemma StopsAtFirstFailure(proto: Protobuf, rejects: set<string>, remote: map<string, SchemaBinding>, ds: seq<TopicBinding>, k: nat)
    requires k < |ds| && ProcessTopic(proto, rejects, remote, ds[k]).error.Some?
    requires forall j :: 0 <= j < k ==> ProcessTopic(proto, rejects, remote, ds[j]).error.None?
    ensures Process(proto, rejects, remote, ds) ==
            Report(StepsCalls(proto, rejects, remote, ds, k + 1), ProcessTopic(proto, rejects, remote, ds[k]).error)
  {
    var head, init := ds[..k + 1], ds[..k];
    assert forall j :: 0 <= j < k ==> init[j] == ds[j];
    ProcessAllPass(proto, rejects, remote, init);
    StepsCallsPrefix(proto, rejects, remote, ds, k, k);
    var before := Report(StepsCalls(proto, rejects, remote, ds, k), None);
    assert Process(proto, rejects, remote, init) == before;
    assert head[..k] == init && head[k] == ds[k];
    var s := ProcessTopic(proto, rejects, remote, ds[k]);
    assert Process(proto, rejects, remote, head) == Report(before.calls + s.calls, s.error);
    assert ds == head + ds[k + 1..];
    ProcessAbsorbs(proto, rejects, remote, head, ds[k + 1..]);
  }

  /** One more binding: the report grows by that topic's step if the topic is new. */
  lemma ProcessStep(proto: Protobuf, rejects: set<string>, remote: map<string, SchemaBinding>, bs: seq<TopicBinding>, i: nat)
    requires i < |bs| && Process(proto, rejects, remote, Dedup(bs[..i])).stop.None?
    ensures var before := Process(proto, rejects, remote, Dedup(bs[..i]));
            var s := ProcessTopic(proto, rejects, remote, bs[i]);
            Process(proto, rejects, remote, Dedup(bs[..i + 1])) ==
              if bs[i].topicName in TopicsOf(bs[..i]) then before else Report(before.calls + s.calls, s.error)
  {
    DedupStep(bs, i);
    var prev := Dedup(bs[..i]);
    if bs[i].topicName !in TopicsOf(bs[..i]) {
      ProcessSnoc(proto, rejects, remote, prev, bs[i]);
    } else {
      assert prev + [] == prev;
    }
  }

  lemma ProcessSnoc(proto: Protobuf, rejects: set<string>, remote: map<string, SchemaBinding>, ds: seq<TopicBinding>, d: TopicBinding)
    ensures var before := Process(proto, rejects, remote, ds);
            var s := ProcessTopic(proto, rejects, remote, d);
            Process(proto, rejects, remote, ds + [d]) == if before.stop.Some? then before else Report(before.calls + s.calls, s.error)
  {
    assert (ds + [d])[..|ds|] == ds;
  }

  /** An exception on a prefix is the exception of the whole list. */
  lemma StopPropagates(proto: Protobuf, rejects: set<string>, remote: map<string, SchemaBinding>, bs: seq<TopicBinding>, i: nat)
    requires i <= |bs| && Process(proto, rejects, remote, Dedup(bs[..i])).stop.Some?
    ensures Process(proto, rejects, remote, Dedup(bs)) == Process(proto, rejects, remote, Dedup(bs[..i]))
  {
    DedupPrefix(bs, i);
    var rest :| Dedup(bs) == Dedup(bs[..i]) + rest;
    ProcessAbsorbs(proto, rejects, remote, Dedup(bs[..i]), rest);
  }

  // ---------------------------------------------------------------------
  // The validator.

  /** validate: skip a topic already seen, otherwise mark it first and then
      process it. */
  method Validate(proto: Protobuf, registry: SchemaRegistryClient, binding: TopicBinding, seen: set<string>)
    returns (seen': set<string>, error: Option<ValidationError>)
    modifies registry
    ensures seen' == seen + {binding.topicName}
    ensures binding.topicName in seen ==> registry.calls == old(registry.calls) && error.None?
    ensures binding.topicName !in seen ==>
              var s := ProcessTopic(proto, registry.rejects, registry.remote, binding);
              registry.calls == old(registry.calls) + s.calls && error == s.error
  {
    var topic := binding.topicName;
    var messageType := binding.messageType;
    if topic in seen {
      return seen, None;
    }
    seen' := seen + {topic};
    match proto.classify(messageType) {
      case Missing =>
        return seen', Some(ClassNotFound(topic));
      case NotAMessage =>
        return seen', None;
      case ProtoMessage =>
    }
    var record := SchemaBinding(topic, messageType, proto.fingerprint(messageType), proto.encode(messageType));
    var registered := registry.RegisterSchema(record);
    if !registered {
      return seen', Some(RegisterFailed(topic));
    }
    var fetched := registry.FetchSchema(topic);
    if fetched.Some? && fetched.value.descriptorSha256 != record.descriptorSha256 {
      return seen', Some(ContractMismatch(topic));
    }
    error := None;
  }

  /** validateContracts: validate every binding of the enabled entries in
      order; the first exception escapes. */
  method ValidateContracts(proto: Protobuf, registry: SchemaRegistryClient, entries: seq<EventComponentEntry>)
    returns (failure: Option<ValidationError>)
    modifies registry
    ensures var r := Process(proto, registry.rejects, registry.remote, Dedup(AllBindings(entries)));
            registry.calls == old(registry.calls) + r.calls && failure == r.stop
  {
    var bindings := AllBindings(entries);
    ghost var calls0 := registry.calls;
    ghost var rejects, remote := registry.rejects, registry.remote;
    var alreadyRegistered: set<string> := {};
    var i := 0;
    while i < |bindings|
      invariant i <= |bindings|
      invariant alreadyRegistered == TopicsOf(bindings[..i])
      invariant Process(proto, rejects, remote, Dedup(bindings[..i])).stop.None?
      invariant registry.calls == calls0 + Process(proto, rejects, remote, Dedup(bindings[..i])).calls
    {
      ghost var before := Process(proto, rejects, remote, Dedup(bindings[..i]));
      ProcessStep(proto, rejects, remote, bindings, i);
      DedupStep(bindings, i);
      AppendAssoc(calls0, before.calls, ProcessTopic(proto, rejects, remote, bindings[i]).calls);
      var error;
      alreadyRegistered, error := Validate(proto, registry, bindings[i], alreadyRegistered);
      if error.Some? {
        StopPropagates(proto, rejects, remote, bindings, i + 1);
        return error;
      }
      i := i + 1;
    }
    assert bindings[..i] == bindings;
    failure := None;
  }
}
