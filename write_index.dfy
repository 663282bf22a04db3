/** The write-topic index each publishing strategy builds in its constructor
    (FunctionDispatcher, FunctionFanoutDispatcher, SupplierDispatcher,
    SupplierFanoutDispatcher): message type to topic, over the write bindings
    of the entries of that strategy's own handler type, later bindings
    overwriting earlier ones. */
module WriteIndex {
  import opened Wrappers
  import opened Model

  /** An entry of the kind whose write list is null. */
  predicate NullWrites(e: EventComponentEntry, kind: HandlerType)
  {
    e.handlerType == Some(kind) && e.writeTopics.None?
  }

  /** Some entry of the kind has a null write list: the constructor's
      `getWriteTopics().stream()` throws. */
  predicate HasNullWrites(entries: seq<EventComponentEntry>, kind: HandlerType)
  {
    entries != [] && (HasNullWrites(entries[..|entries| - 1], kind) || NullWrites(entries[|entries| - 1], kind))
  }

  lemma {:induction false} HasNullWritesMeaning(entries: seq<EventComponentEntry>, kind: HandlerType)
    ensures HasNullWrites(entries, kind) <==> exists i :: 0 <= i < |entries| && NullWrites(entries[i], kind)
  {
    if entries != [] {
      var n := |entries| - 1;
      var init := entries[..n];
      HasNullWritesMeaning(init, kind);
      assert forall i :: 0 <= i < n ==> init[i] == entries[i];
      if HasNullWrites(init, kind) {
        var i :| 0 <= i < n && NullWrites(init[i], kind);
        assert NullWrites(entries[i], kind);
      }
    }
  }

  /** A null write list in a prefix is one in the whole manifest. */
  lemma NullWritesPrefix(entries: seq<EventComponentEntry>, kind: HandlerType, k: nat)
    requires k <= |entries| && HasNullWrites(entries[..k], kind)
    ensures HasNullWrites(entries, kind)
  {
    HasNullWritesMeaning(entries[..k], kind);
    HasNullWritesMeaning(entries, kind);
    var i :| 0 <= i < k && NullWrites(entries[..k][i], kind);
    assert entries[..k][i] == entries[i];
  }

  /** The write bindings of the entries of one kind, in manifest order. */
  function WriteBindings(entries: seq<EventComponentEntry>, kind: HandlerType): seq<TopicBinding>
  {
    if entries == [] then []
    else
      var e := entries[|entries| - 1];
      WriteBindings(entries[..|entries| - 1], kind)
      + (if e.handlerType == Some(kind) && e.writeTopics.Some? then e.writeTopics.value else [])
  }

  /** The map that `put(messageType, topicName)` for each binding in order leaves. */
  function IndexOf(bindings: seq<TopicBinding>): map<string, string>
  {
    if bindings == [] then map[]
    else
      var b := bindings[|bindings| - 1];
      IndexOf(bindings[..|bindings| - 1])[b.messageType := b.topicName]
  }

  /** A binding is indexed exactly when it is a write binding of an entry of the kind. */
  lemma {:induction false} WriteBindingsOfKind(entries: seq<EventComponentEntry>, kind: HandlerType, b: TopicBinding)
    ensures b in WriteBindings(entries, kind) <==>
            exists i :: 0 <= i < |entries| && entries[i].handlerType == Some(kind)
                        && entries[i].writeTopics.Some? && b in entries[i].writeTopics.value
  {
    if entries != [] {
      var init := entries[..|entries| - 1];
      WriteBindingsOfKind(init, kind, b);
      assert forall i :: 0 <= i < |init| ==> init[i] == entries[i];
    }
  }

  /** A message type is indexed exactly when some binding declares it. */
  lemma {:induction false} IndexOfKeys(bindings: seq<TopicBinding>, messageType: string)
    ensures messageType in IndexOf(bindings) <==> exists i :: 0 <= i < |bindings| && bindings[i].messageType == messageType
  {
    if bindings != [] {
      var n := |bindings| - 1;
      var init := bindings[..n];
      IndexOfKeys(init, messageType);
      assert forall i :: 0 <= i < n ==> init[i] == bindings[i];
      assert messageType in IndexOf(bindings) <==> messageType in IndexOf(init) || bindings[n].messageType == messageType;
    }
  }

  /** Last write wins: the binding after which no other declares its
      message type decides that type's topic. */
  lemma {:induction false} IndexOfLastWins(bindings: seq<TopicBinding>, i: nat)
    requires i < |bindings|
    requires forall j :: i < j < |bindings| ==> bindings[j].messageType != bindings[i].messageType
    ensures bindings[i].messageType in IndexOf(bindings)
    ensures IndexOf(bindings)[bindings[i].messageType] == bindings[i].topicName
  {
    var n := |bindings| - 1;
    if i < n {
      var init := bindings[..n];
      assert init[i] == bindings[i];
      assert forall j :: i < j < n ==> init[j] == bindings[j];
      IndexOfLastWins(init, i);
    }
  }

  lemma IndexOfSnoc(bindings: seq<TopicBinding>, b: TopicBinding)
    ensures IndexOf(bindings + [b]) == IndexOf(bindings)[b.messageType := b.topicName]
  {
    assert (bindings + [b])[..|bindings|] == bindings;
  }

  lemma WriteBindingsStep(entries: seq<EventComponentEntry>, kind: HandlerType, i: nat)
    requires i < |entries|
    ensures WriteBindings(entries[..i + 1], kind)
            == WriteBindings(entries[..i], kind)
               + (if entries[i].handlerType == Some(kind) && entries[i].writeTopics.Some? then entries[i].writeTopics.value else [])
    ensures HasNullWrites(entries[..i + 1], kind) == (HasNullWrites(entries[..i], kind) || NullWrites(entries[i], kind))
  {
    assert entries[..i + 1][..i] == entries[..i];
  }

  /** One entry's `forEach(put)`: the index after `done` extended by `bindings`. */
  method PutAll(index: map<string, string>, ghost done: seq<TopicBinding>, bindings: seq<TopicBinding>)
    returns (r: map<string, string>)
    requires index == IndexOf(done)
    ensures r == IndexOf(done + bindings)
  {
    r := index;
    assert done + bindings[..0] == done;
    var j := 0;
    while j < |bindings|
      invariant 0 <= j <= |bindings|
      invariant r == IndexOf(done + bindings[..j])
    {
      IndexOfSnoc(done + bindings[..j], bindings[j]);
      assert (done + bindings[..j]) + [bindings[j]] == done + bindings[..j + 1];
      r := r[bindings[j].messageType := bindings[j].topicName];
      j := j + 1;
    }
    assert bindings[..j] == bindings;
  }

  /** The constructor's index: None when it would throw, otherwise the map
      its `forEach(put)` fills. */
  method BuildWriteTopicMap(entries: seq<EventComponentEntry>, kind: HandlerType) returns (r: Option<map<string, string>>)
    ensures r.None? <==> HasNullWrites(entries, kind)
    ensures r.Some? ==> r.value == IndexOf(WriteBindings(entries, kind))
  {
    var index: map<string, string> := map[];
    var i := 0;
    while i < |entries|
      invariant 0 <= i <= |entries|
      invariant !HasNullWrites(entries[..i], kind)
      invariant index == IndexOf(WriteBindings(entries[..i], kind))
    {
      var entry := entries[i];
      WriteBindingsStep(entries, kind, i);
      if entry.handlerType == Some(kind) {
        if entry.writeTopics.None? {
          NullWritesPrefix(entries, kind, i + 1);
          return None;
        }
        index := PutAll(index, WriteBindings(entries[..i], kind), entry.writeTopics.value);
      } else {
        assert WriteBindings(entries[..i], kind) + [] == WriteBindings(entries[..i], kind);
      }
      i := i + 1;
    }
    assert entries[..i] == entries;
    r := Some(index);
  }
}
