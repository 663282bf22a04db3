/** EventComponentConfigLoader: after parsing the manifest it keeps the
    enabled entries and validates their topic bindings, the read side
    first, then read-write conflicts. */
module ConfigLoader {
  import opened Wrappers
  import opened Model

  /** The IllegalStateException messages the loader can raise. */
  datatype LoadError =
    | MultipleHandlerTypes(topic: string, types: set<Option<HandlerType>>)
    | DuplicateQueueGroup(group: string, topic: string)
    | MultipleNullGroups(topic: string)
    | ReadWriteConflict(overlap: set<string>)

  // ---------------------------------------------------------------------
  // The disabled filter.

  /** The entries whose disabled flag is false, in manifest order. */
  function EnabledOnly(entries: seq<EventComponentEntry>): (r: seq<EventComponentEntry>)
    ensures forall e :: e in r <==> e in entries && !e.disabled
    ensures |r| <= |entries|
  {
    if entries == [] then []
    else
      var last := entries[|entries| - 1];
      EnabledOnly(entries[..|entries| - 1]) + (if last.disabled then [] else [last])
  }

  /** The filter keeps order: it distributes over concatenation. */
  lemma {:induction false} EnabledOnlyAppend(a: seq<EventComponentEntry>, b: seq<EventComponentEntry>)
    ensures EnabledOnly(a + b) == EnabledOnly(a) + EnabledOnly(b)
    decreases |b|
  {
    if b == [] {
      assert a + b == a;
    } else {
      var init := b[..|b| - 1];
      var last := b[|b| - 1];
      assert (a + b)[..|a + b| - 1] == a + init;
      EnabledOnlyAppend(a, init);
      var tail: seq<EventComponentEntry> := if last.disabled then [] else [last];
      assert EnabledOnly(a) + EnabledOnly(init) + tail == EnabledOnly(a) + (EnabledOnly(init) + tail);
    }
  }

  // ---------------------------------------------------------------------
  // The read index of validateReadTopicBindings: topic to handler type to
  // the set of queue groups (null groups are None).

  type ReadIndex = map<string, map<Option<HandlerType>, set<Option<string>>>>

  /** Some enabled entry of the given type reads the topic with the given group. */
  ghost predicate ReadBy(entries: seq<EventComponentEntry>, topic: string, kind: Option<HandlerType>, group: Option<string>)
  {
    exists i, b :: && 0 <= i < |entries| && entries[i].readTopics.Some? && b in entries[i].readTopics.value
                   && entries[i].handlerType == kind && b.topicName == topic && b.queueGroup == group
  }

  predicate Indexed(idx: ReadIndex, topic: string, kind: Option<HandlerType>, group: Option<string>)
  {
    topic in idx && kind in idx[topic] && group in idx[topic][kind]
  }

  /** computeIfAbsent leaves no empty inner map or set behind. */
  predicate WellShaped(idx: ReadIndex)
  {
    forall topic :: topic in idx ==> idx[topic] != map[] && forall kind :: kind in idx[topic] ==> idx[topic][kind] != {}
  }

  /** computeIfAbsent(topic).computeIfAbsent(type).add(queueGroup). */
  function Add(idx: ReadIndex, topic: string, kind: Option<HandlerType>, group: Option<string>): ReadIndex
  {
    var forTopic := if topic in idx then idx[topic] else map[];
    var groups := if kind in forTopic then forTopic[kind] else {};
    idx[topic := forTopic[kind := groups + {group}]]
  }

  /** The index after adding every binding of one entry, in order. */
  function AddBindings(idx: ReadIndex, kind: Option<HandlerType>, bindings: seq<TopicBinding>): ReadIndex
  {
    if bindings == [] then idx
    else
      var b := bindings[|bindings| - 1];
      Add(AddBindings(idx, kind, bindings[..|bindings| - 1]), b.topicName, kind, b.queueGroup)
  }

  /** The index the nested loops fill; entries with a null read list are skipped. */
  function ReadIndexOf(entries: seq<EventComponentEntry>): ReadIndex
  {
    if entries == [] then map[]
    else
      var e := entries[|entries| - 1];
      var before := ReadIndexOf(entries[..|entries| - 1]);
      if e.readTopics.None? then before else AddBindings(before, e.handlerType, e.readTopics.value)
  }

  lemma AddMeaning(idx: ReadIndex, topic: string, kind: Option<HandlerType>, group: Option<string>,
                   t: string, k: Option<HandlerType>, g: Option<string>)
    ensures Indexed(Add(idx, topic, kind, group), t, k, g) <==> Indexed(idx, t, k, g) || (t == topic && k == kind && g == group)
    ensures WellShaped(idx) ==> WellShaped(Add(idx, topic, kind, group))
  {
  }

  lemma {:induction false} AddBindingsMeaning(idx: ReadIndex, kind: Option<HandlerType>, bindings: seq<TopicBinding>,
                                              t: string, k: Option<HandlerType>, g: Option<string>)
    ensures Indexed(AddBindings(idx, kind, bindings), t, k, g) <==>
            Indexed(idx, t, k, g) || (k == kind && exists b :: b in bindings && b.topicName == t && b.queueGroup == g)
    ensures WellShaped(idx) ==> WellShaped(AddBindings(idx, kind, bindings))
  {
    if bindings != [] {
      var init := bindings[..|bindings| - 1];
      var b := bindings[|bindings| - 1];
      AddBindingsMeaning(idx, kind, init, t, k, g);
      AddMeaning(AddBindings(idx, kind, init), b.topicName, kind, b.queueGroup, t, k, g);
      assert forall c :: c in bindings <==> c in init || c == b;
    }
  }

  /** The index records exactly the (topic, type, group) triples the enabled
      entries read, and holds no empty inner map or set. */
  lemma {:induction false} ReadIndexMeaning(entries: seq<EventComponentEntry>, t: string, k: Option<HandlerType>, g: Option<string>)
    ensures Indexed(ReadIndexOf(entries), t, k, g) <==> ReadBy(entries, t, k, g)
    ensures WellShaped(ReadIndexOf(entries))
  {
    if entries != [] {
      var n := |entries| - 1;
      var init := entries[..n];
      var e := entries[n];
      ReadIndexMeaning(init, t, k, g);
      assert forall i :: 0 <= i < n ==> init[i] == entries[i];
      if e.readTopics.Some? {
        AddBindingsMeaning(ReadIndexOf(init), e.handlerType, e.readTopics.value, t, k, g);
        if ReadBy(entries, t, k, g) && !ReadBy(init, t, k, g) {
          var i, b :| && 0 <= i < |entries| && entries[i].readTopics.Some? && b in entries[i].readTopics.value
                      && entries[i].handlerType == k && b.topicName == t && b.queueGroup == g;
          assert i == n;
        }
      } else if ReadBy(entries, t, k, g) {
        var i, b :| && 0 <= i < |entries| && entries[i].readTopics.Some? && b in entries[i].readTopics.value
                    && entries[i].handlerType == k && b.topicName == t && b.queueGroup == g;
        assert i < n;
      }
    }
  }

  lemma ReadIndexWellShaped(entries: seq<EventComponentEntry>)
    ensures WellShaped(ReadIndexOf(entries))
  {
    ReadIndexMeaning(entries, "", None, None);
  }

  lemma ReadIndexStep(entries: seq<EventComponentEntry>, i: nat)
    requires i < |entries|
    ensures ReadIndexOf(entries[..i + 1]) ==
            if entries[i].readTopics.None? then ReadIndexOf(entries[..i])
            else AddBindings(ReadIndexOf(entries[..i]), entries[i].handlerType, entries[i].readTopics.value)
  {
    assert entries[..i + 1][..i] == entries[..i];
  }

  /** The inner loop: add each binding of one entry. */
  method AddAll(idx: ReadIndex, kind: Option<HandlerType>, bindings: seq<TopicBinding>) returns (r: ReadIndex)
    ensures r == AddBindings(idx, kind, bindings)
  {
    r := idx;
    var j := 0;
    while j < |bindings|
      invariant 0 <= j <= |bindings|
      invariant r == AddBindings(idx, kind, bindings[..j])
    {
      assert bindings[..j + 1][..j] == bindings[..j];
      var binding := bindings[j];
      var forTopic := if binding.topicName in r then r[binding.topicName] else map[];
      var groups := if kind in forTopic then forTopic[kind] else {};
      r := r[binding.topicName := forTopic[kind := groups + {binding.queueGroup}]];
      j := j + 1;
    }
    assert bindings[..j] == bindings;
  }

  /** The first loop of validateReadTopicBindings. */
  method BuildReadIndex(entries: seq<EventComponentEntry>) returns (idx: ReadIndex)
    ensures idx == ReadIndexOf(entries)
  {
    idx := map[];
    var i := 0;
    while i < |entries|
      invariant 0 <= i <= |entries|
      invariant idx == ReadIndexOf(entries[..i])
    {
      ReadIndexStep(entries, i);
      var entry := entries[i];
      if entry.readTopics.Some? {
        idx := AddAll(idx, entry.handlerType, entry.readTopics.value);
      }
      i := i + 1;
    }
    assert entries[..i] == entries;
  }

  // ---------------------------------------------------------------------
  // The queue groups of one topic, in the iteration order of their HashSet.

  /** How a group is recorded in nonNullGroups: a null group as the literal "null". */
  function Render(g: Option<string>): string
  {
    if g.None? then "null" else g.value
  }

  /** nonNullGroups after the first n groups of the iteration. */
  function Rendered(order: seq<Option<string>>, n: nat): seq<string>
    requires n <= |order|
  {
    if n == 0 then [] else Rendered(order, n - 1) + [Render(order[n - 1])]
  }

  /** The scan from position i on: a non-null group already in nonNullGroups
      is a duplicate; nothing is checked for a null group. */
  function ScanFrom(topic: string, order: seq<Option<string>>, i: nat): Outcome<LoadError>
    requires i <= |order|
    decreases |order| - i
  {
    if i == |order| then Pass
    else if order[i].Some? && order[i].value in Rendered(order, i) then Fail(DuplicateQueueGroup(order[i].value, topic))
    else ScanFrom(topic, order, i + 1)
  }

  /** The stream count of null groups. */
  function NullCount(order: seq<Option<string>>): nat
  {
    if order == [] then 0
    else NullCount(order[..|order| - 1]) + (if order[|order| - 1].None? then 1 else 0)
  }

  /** The verdict of the per-topic block for one iteration order. */
  function GroupsVerdict(topic: string, order: seq<Option<string>>): Outcome<LoadError>
  {
    var scan := ScanFrom(topic, order, 0);
    if scan.Fail? then scan
    else if NullCount(order) > 1 then Fail(MultipleNullGroups(topic))
    else Pass
  }

  predicate Distinct<T(==)>(s: seq<T>)
  {
    forall i, j :: 0 <= i < j < |s| ==> s[i] != s[j]
  }

  /** The iteration meets a null group before the literal group "null". */
  predicate NullBeforeLiteral(order: seq<Option<string>>)
  {
    exists i, j :: 0 <= i < j < |order| && order[i] == None && order[j] == Some("null")
  }

  lemma {:induction false} RenderedMembers(order: seq<Option<string>>, n: nat, q: string)
    requires n <= |order|
    ensures q in Rendered(order, n) <==> exists k :: 0 <= k < n && Render(order[k]) == q
  {
    if n > 0 {
      RenderedMembers(order, n - 1, q);
    }
  }

  /** In a set's iteration a non-null group can only meet the "null" a null
      group left behind. */
  lemma LiteralClash(order: seq<Option<string>>, j: nat)
    requires Distinct(order) && j < |order| && order[j].Some?
    ensures order[j].value in Rendered(order, j) <==> order[j].value == "null" && exists k :: 0 <= k < j && order[k] == None
  {
    var q := order[j].value;
    RenderedMembers(order, j, q);
    if q in Rendered(order, j) {
      var k :| 0 <= k < j && Render(order[k]) == q;
      assert order[k] != order[j];
    }
    if q == "null" && exists k :: 0 <= k < j && order[k] == None {
      var k :| 0 <= k < j && order[k] == None;
      assert Render(order[k]) == q;
    }
  }

  lemma {:induction false} ScanFromMeaning(topic: string, order: seq<Option<string>>, i: nat)
    requires Distinct(order) && i <= |order|
    ensures ScanFrom(topic, order, i).Fail? <==>
            exists j, k :: i <= j < |order| && 0 <= k < j && order[j] == Some("null") && order[k] == None
    ensures ScanFrom(topic, order, i).Fail? ==> ScanFrom(topic, order, i).error == DuplicateQueueGroup("null", topic)
    decreases |order| - i
  {
    if i < |order| {
      ScanFromMeaning(topic, order, i + 1);
      if order[i].Some? {
        LiteralClash(order, i);
      }
      if order[i].None? || order[i].value != "null" {
        if exists j, k :: i <= j < |order| && 0 <= k < j && order[j] == Some("null") && order[k] == None {
          var j, k :| i <= j < |order| && 0 <= k < j && order[j] == Some("null") && order[k] == None;
          assert j != i;
        }
      }
    }
  }

  /** A set holds null at most once, so the null-count rule never fires. */
  lemma {:induction false} NullCountAtMostOne(order: seq<Option<string>>)
    requires Distinct(order)
    ensures NullCount(order) <= 1
    ensures None !in order ==> NullCount(order) == 0
  {
    if order != [] {
      var init := order[..|order| - 1];
      assert forall i, j :: 0 <= i < j < |init| ==> init[i] == order[i] && init[j] == order[j];
      NullCountAtMostOne(init);
      if order[|order| - 1].None? {
        assert None !in init by {
          assert forall i :: 0 <= i < |init| ==> init[i] == order[i];
        }
      }
    }
  }

  /** What the per-topic block rejects, for any iteration order of a set:
      exactly a null group met before the literal "null", reported as a
      duplicate "null"; the null-count error never arises. */
  lemma GroupsVerdictMeaning(topic: string, order: seq<Option<string>>)
    requires Distinct(order)
    ensures GroupsVerdict(topic, order).Fail? <==> NullBeforeLiteral(order)
    ensures GroupsVerdict(topic, order).Fail? ==> GroupsVerdict(topic, order).error == DuplicateQueueGroup("null", topic)
  {
    ScanFromMeaning(topic, order, 0);
    NullCountAtMostOne(order);
    if NullBeforeLiteral(order) {
      var i, j :| 0 <= i < j < |order| && order[i] == None && order[j] == Some("null");
      assert 0 <= j < |order| && 0 <= i < j;
    }
  }

  /** The same set of groups passes or fails depending on iteration order. */
  lemma IterationOrderDecides()
    ensures GroupsVerdict("t", [None, Some("null")]) == Fail(DuplicateQueueGroup("null", "t"))
    ensures GroupsVerdict("t", [Some("null"), None]) == Pass
  {
    assert Rendered([None, Some("null")], 1) == ["null"];
    assert Rendered([Some("null"), None], 1) == ["null"];
    assert NullCount([Some("null"), None]) == 1 by {
      assert [Some("null"), None][..1] == [Some("null")];
      assert [Some("null")][..0] == [];
    }
  }

  /** The HashSet's iteration: every group once, in some order. */
  method Enumerate(groups: set<Option<string>>) returns (order: seq<Option<string>>)
    ensures Distinct(order)
    ensures forall g :: g in order <==> g in groups
  {
    order := [];
    var rest := groups;
    while rest != {}
      invariant rest <= groups
      invariant Distinct(order)
      invariant forall g :: g in order <==> g in groups - rest
      decreases |rest|
    {
      var g :| g in rest;
      forall i | 0 <= i < |order|
        ensures order[i] != g
      {
        assert order[i] in order;
      }
      order := order + [g];
      rest := rest - {g};
    }
  }

  /** The per-topic block: the loop over the groups filling nonNullGroups,
      then the null count. */
  method CheckQueueGroups(topic: string, order: seq<Option<string>>) returns (r: Outcome<LoadError>)
    ensures r == GroupsVerdict(topic, order)
  {
    var nonNullGroups: seq<string> := [];
    var i := 0;
    while i < |order|
      invariant i <= |order|
      invariant nonNullGroups == Rendered(order, i)
      invariant ScanFrom(topic, order, 0) == ScanFrom(topic, order, i)
    {
      var q := order[i];
      if q.None? {
        nonNullGroups := nonNullGroups + ["null"];
      } else if q.value in nonNullGroups {
        return Fail(DuplicateQueueGroup(q.value, topic));
      } else {
        nonNullGroups := nonNullGroups + [q.value];
      }
      i := i + 1;
    }
    if NullCount(order) > 1 {
      return Fail(MultipleNullGroups(topic));
    }
    r := Pass;
  }

  // ---------------------------------------------------------------------
  // validateReadTopicBindings.

  /** No topic has two handler types, and no type's group set holds both a
      null group and the literal "null": no iteration order can fail. */
  predicate Acceptable(idx: ReadIndex)
  {
    forall t :: t in idx ==> AcceptableAt(idx, t)
  }

  /** The topic has at most one handler type, and no group set of it holds
      both a null group and the literal "null". */
  predicate AcceptableAt(idx: ReadIndex, t: string)
    requires t in idx
  {
    |idx[t]| <= 1 && forall k :: k in idx[t] ==> !(None in idx[t][k] && Some("null") in idx[t][k])
  }

  /** What a read-side error says about the index. */
  predicate Explains(idx: ReadIndex, e: LoadError)
  {
    match e
    case MultipleHandlerTypes(t, types) => t in idx && types == idx[t].Keys && |types| > 1
    case DuplicateQueueGroup(g, t) =>
      g == "null" && t in idx && |idx[t]| == 1 && exists k :: k in idx[t] && None in idx[t][k] && Some("null") in idx[t][k]
    case _ => false
  }

  /** Two handlers of one type reading a topic with the same group (null or
      not) collapse into one set element and are accepted. */
  lemma SameGroupTwiceAccepted(kind: Option<HandlerType>, b: TopicBinding, h1: string, h2: string)
    ensures Acceptable(ReadIndexOf([EventComponentEntry(kind, Some([b]), None, h1, false),
                                    EventComponentEntry(kind, Some([b]), None, h2, false)]))
  {
    var e1 := EventComponentEntry(kind, Some([b]), None, h1, false);
    var e2 := EventComponentEntry(kind, Some([b]), None, h2, false);
    var single := map[b.topicName := map[kind := {b.queueGroup}]];
    assert [b][..0] == [];
    assert [e1, e2][..1] == [e1] && [e1][..0] == [];
    var none: set<Option<string>> := {};
    var noTopic: ReadIndex := map[];
    assert none + {b.queueGroup} == {b.queueGroup};
    assert {b.queueGroup} + {b.queueGroup} == {b.queueGroup};
    assert Add(noTopic, b.topicName, kind, b.queueGroup) == single;
    assert AddBindings(noTopic, kind, [b]) == Add(noTopic, b.topicName, kind, b.queueGroup);
    assert ReadIndexOf([e1]) == AddBindings(ReadIndexOf([]), kind, [b]);
    assert AddBindings(single, kind, [b]) == Add(single, b.topicName, kind, b.queueGroup);
    assert single[b.topicName][kind := {b.queueGroup}] == single[b.topicName];
    assert single[b.topicName := single[b.topicName]] == single;
    assert Add(single, b.topicName, kind, b.queueGroup) == single;
    assert ReadIndexOf([e1, e2]) == AddBindings(ReadIndexOf([e1]), kind, [b]);
  }

  /** validateReadTopicBindings, visiting the topics in some order. */
  method ValidateReadTopicBindings(entries: seq<EventComponentEntry>) returns (r: Outcome<LoadError>)
    ensures r.Pass? ==> forall t :: t in ReadIndexOf(entries) ==> |ReadIndexOf(entries)[t]| == 1
    ensures Acceptable(ReadIndexOf(entries)) ==> r.Pass?
    ensures r.Fail? ==> Explains(ReadIndexOf(entries), r.error)
  {
    var idx := BuildReadIndex(entries);
    ReadIndexWellShaped(entries);
    var remaining := idx.Keys;
    while remaining != {}
      invariant remaining <= idx.Keys
      invariant forall t :: t in idx.Keys - remaining ==> |idx[t]| == 1
      decreases |remaining|
    {
      var topic :| topic in remaining;
      var verdict := CheckTopic(idx, topic);
      if verdict.Fail? {
        return verdict;
      }
      remaining := remaining - {topic};
    }
    r := Pass;
  }

  /** The body of the topic loop: one handler type, then its groups. */
  method CheckTopic(idx: ReadIndex, topic: string) returns (r: Outcome<LoadError>)
    requires topic in idx && idx[topic] != map[]
    ensures r.Pass? ==> |idx[topic]| == 1
    ensures AcceptableAt(idx, topic) ==> r.Pass?
    ensures r.Fail? ==> Explains(idx, r.error)
  {
    var handlers := idx[topic];
    if |handlers| > 1 {
      return Fail(MultipleHandlerTypes(topic, handlers.Keys));
    }
    var kind :| kind in handlers;
    var order := Enumerate(handlers[kind]);
    r := CheckQueueGroups(topic, order);
    GroupsVerdictMeaning(topic, order);
    if r.Fail? {
      ghost var i, j :| 0 <= i < j < |order| && order[i] == None && order[j] == Some("null");
      assert None in handlers[kind] && Some("null") in handlers[kind];
    }
  }

  // ---------------------------------------------------------------------
  // validateReadWriteConflicts.

  datatype Side = ReadSide | WriteSide

  /** The bindings of one side of an entry; a null list counts as empty. */
  function Bindings(e: EventComponentEntry, side: Side): seq<TopicBinding>
  {
    var list := if side == ReadSide then e.readTopics else e.writeTopics;
    if list.None? then [] else list.value
  }

  /** The set of topic names on one side over all entries. */
  function TopicNames(entries: seq<EventComponentEntry>, side: Side): set<string>
  {
    if entries == [] then {}
    else TopicNames(entries[..|entries| - 1], side) + set b | b in Bindings(entries[|entries| - 1], side) :: b.topicName
  }

  lemma {:induction false} TopicNamesMembers(entries: seq<EventComponentEntry>, side: Side, t: string)
    ensures t in TopicNames(entries, side) <==>
            exists i, b :: 0 <= i < |entries| && b in Bindings(entries[i], side) && b.topicName == t
  {
    if entries != [] {
      var n := |entries| - 1;
      var init := entries[..n];
      TopicNamesMembers(init, side, t);
      assert forall i :: 0 <= i < n ==> init[i] == entries[i];
      if t in TopicNames(entries, side) && t !in TopicNames(init, side) {
        var b :| b in Bindings(entries[n], side) && b.topicName == t;
        assert 0 <= n < |entries| && b in Bindings(entries[n], side);
      }
    }
  }

  /** The written topics retained to the read ones; any overlap is an error
      listing it. */
  function ValidateReadWriteConflicts(entries: seq<EventComponentEntry>): (r: Outcome<LoadError>)
    ensures r.Fail? ==> r.error.ReadWriteConflict? && r.error.overlap != {}
  {
    var overlap := TopicNames(entries, WriteSide) * TopicNames(entries, ReadSide);
    if overlap != {} then Fail(ReadWriteConflict(overlap)) else Pass
  }

  /** Some entry writes a topic that some entry reads. */
  ghost predicate ReadAndWritten(entries: seq<EventComponentEntry>, t: string)
  {
    && (exists i, b :: 0 <= i < |entries| && b in Bindings(entries[i], WriteSide) && b.topicName == t)
    && (exists i, b :: 0 <= i < |entries| && b in Bindings(entries[i], ReadSide) && b.topicName == t)
  }

  /** The check fails exactly when some topic is both read and written, and
      the error lists exactly those topics. */
  lemma ConflictMeaning(entries: seq<EventComponentEntry>)
    ensures ValidateReadWriteConflicts(entries).Fail? <==> exists t :: ReadAndWritten(entries, t)
    ensures ValidateReadWriteConflicts(entries).Fail? ==>
              forall t :: t in ValidateReadWriteConflicts(entries).error.overlap <==> ReadAndWritten(entries, t)
  {
    forall t
      ensures t in TopicNames(entries, WriteSide) * TopicNames(entries, ReadSide) <==> ReadAndWritten(entries, t)
    {
      TopicNamesMembers(entries, WriteSide, t);
      TopicNamesMembers(entries, ReadSide, t);
    }
  }

  // ---------------------------------------------------------------------
  // The bean method.

  /** eventComponentConfig after parsing: filter, then the read-side check,
      then the read-write check. */
  method Load(entries: seq<EventComponentEntry>) returns (r: Result<seq<EventComponentEntry>, LoadError>)
    ensures r.Ok? ==> r.value == EnabledOnly(entries)
    ensures r.Ok? ==> forall t :: t in ReadIndexOf(EnabledOnly(entries)) ==> |ReadIndexOf(EnabledOnly(entries))[t]| == 1
    ensures r.Ok? ==> ValidateReadWriteConflicts(EnabledOnly(entries)).Pass?
    ensures Acceptable(ReadIndexOf(EnabledOnly(entries))) && ValidateReadWriteConflicts(EnabledOnly(entries)).Pass? ==> r.Ok?
    ensures r.Err? && !r.error.ReadWriteConflict? ==> Explains(ReadIndexOf(EnabledOnly(entries)), r.error)
    ensures r.Err? && r.error.ReadWriteConflict? ==> ValidateReadWriteConflicts(EnabledOnly(entries)) == Fail(r.error)
    // the read-side check runs first: a conflict is reported only after it passed,
    ensures r.Err? && r.error.ReadWriteConflict? ==>
              forall t :: t in ReadIndexOf(EnabledOnly(entries)) ==> |ReadIndexOf(EnabledOnly(entries))[t]| == 1
    // and a topic with two handler types is reported as such even when topics also conflict
    ensures (exists t :: t in ReadIndexOf(EnabledOnly(entries)) && |ReadIndexOf(EnabledOnly(entries))[t]| > 1) ==>
              r.Err? && !r.error.ReadWriteConflict?
  {
    var enabled := EnabledOnly(entries);
    var readSide := ValidateReadTopicBindings(enabled);
    if readSide.Fail? {
      return Err(readSide.error);
    }
    var conflicts := ValidateReadWriteConflicts(enabled);
    if conflicts.Fail? {
      return Err(conflicts.error);
    }
    r := Ok(enabled);
  }
}
