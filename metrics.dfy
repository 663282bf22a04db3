/** NatsMetricsRecorder: lazily created counters keyed by event name and
    topic, all three increments gated by one enabled flag. A Micrometer
    counter is represented by its count in a map from counter key to count. */
module Metrics {

  const SENT := "nats.message.sent"
  const RECEIVED := "nats.message.received"
  const ERROR := "nats.message.error"

  type Counters = map<string, nat>

  /** counterKey: the event name and the topic joined by a colon. */
  function CounterKey(name: string, topic: string): string
  {
    name + ":" + topic
  }

  /** The index of the first colon of s, or |s| if there is none. */
  function FirstColon(s: string): nat
  {
    if s == [] || s[0] == ':' then 0 else 1 + FirstColon(s[1..])
  }

  lemma {:induction false} FirstColonOfKey(name: string, topic: string)
    requires ':' !in name
    ensures FirstColon(CounterKey(name, topic)) == |name|
  {
    if name != [] {
      assert CounterKey(name, topic)[1..] == CounterKey(name[1..], topic);
      FirstColonOfKey(name[1..], topic);
    }
  }

  /** Names without a colon give an injective key: the first colon of the
      key marks where the name ends. */
  lemma {:induction false} CounterKeyInjective(n1: string, t1: string, n2: string, t2: string)
    requires ':' !in n1 && ':' !in n2
    requires CounterKey(n1, t1) == CounterKey(n2, t2)
    ensures n1 == n2 && t1 == t2
  {
    var k := CounterKey(n1, t1);
    FirstColonOfKey(n1, t1);
    FirstColonOfKey(n2, t2);
    assert n1 == k[..|n1|] == n2;
    assert t1 == k[|n1| + 1..] == t2;
  }

  /** For the three event names, distinct (name, topic) pairs never share a counter. */
  lemma FixedCounterKeysDistinct(n1: string, t1: string, n2: string, t2: string)
    requires n1 == SENT || n1 == RECEIVED || n1 == ERROR
    requires n2 == SENT || n2 == RECEIVED || n2 == ERROR
    requires n1 != n2 || t1 != t2
    ensures CounterKey(n1, t1) != CounterKey(n2, t2)
  {
    assert ':' !in SENT && ':' !in RECEIVED && ':' !in ERROR;
    if CounterKey(n1, t1) == CounterKey(n2, t2) {
      CounterKeyInjective(n1, t1, n2, t2);
    }
  }

  /** The count of a counter, zero before it is created. */
  function Count(c: Counters, k: string): nat
  {
    if k in c then c[k] else 0
  }

  /** One increment of counter k, creating it first if needed. */
  function Bump(c: Counters, k: string): (r: Counters)
    ensures r.Keys == c.Keys + {k}
    ensures Count(r, k) == Count(c, k) + 1
    ensures forall k' :: k' != k ==> Count(r, k') == Count(c, k')
  {
    c[k := Count(c, k) + 1]
  }

  /** The counter cache after the increments ks, in order, starting from c. */
  function Tally(c: Counters, ks: seq<string>): Counters
  {
    if ks == [] then c else Bump(Tally(c, ks[..|ks| - 1]), ks[|ks| - 1])
  }

  lemma {:induction false} TallyAppend(c: Counters, a: seq<string>, b: seq<string>)
    ensures Tally(c, a + b) == Tally(Tally(c, a), b)
  {
    if b != [] {
      assert (a + b)[..|a + b| - 1] == a + b[..|b| - 1];
      TallyAppend(c, a, b[..|b| - 1]);
    } else {
      assert a + b == a;
    }
  }

  /** Each counter is raised by the number of increments of its key. */
  lemma {:induction false} TallyCounts(c: Counters, ks: seq<string>, k: string)
    ensures Count(Tally(c, ks), k) == Count(c, k) + multiset(ks)[k]
  {
    if ks != [] {
      var init := ks[..|ks| - 1];
      TallyCounts(c, init, k);
      assert ks == init + [ks[|ks| - 1]];
      assert multiset(ks) == multiset(init) + multiset{ks[|ks| - 1]};
    }
  }

  /** getOrCreateCounter creates a counter exactly for the keys that are
      incremented, and never removes one. */
  lemma {:induction false} TallyKeys(c: Counters, ks: seq<string>)
    ensures Tally(c, ks).Keys == c.Keys + set k | k in ks
  {
    if ks != [] {
      var init := ks[..|ks| - 1];
      TallyKeys(c, init);
      assert ks == init + [ks[|ks| - 1]];
      assert (set k | k in ks) == (set k | k in init) + {ks[|ks| - 1]};
    }
  }

  /** The increments a sequence of gated calls makes. */
  function Gated(enabled: bool, ks: seq<string>): seq<string>
  {
    if enabled then ks else []
  }

  lemma GatedAppend(enabled: bool, a: seq<string>, b: seq<string>)
    ensures Gated(enabled, a + b) == Gated(enabled, a) + Gated(enabled, b)
  {
    if !enabled {
      var none: seq<string> := [];
      assert none + none == none;
    }
  }

  /** The recorder is represented by the increments it has made, by counter
      key and in order; the counter cache with its counts is their tally. */
  class MetricsRecorder {
    const enabled: bool
    var increments: seq<string>

    /** counterCache, with each cached counter's count. */
    function Counters(): Counters
      reads this
    {
      Tally(map[], increments)
    }

    constructor (enabled: bool)
      ensures this.enabled == enabled && increments == []
    {
      this.enabled := enabled;
      increments := [];
    }

    /** getOrCreateCounter(name, topic).increment() behind the enabled flag. */
    method Increment(name: string, topic: string)
      modifies this
      ensures increments == old(increments) + Gated(enabled, [CounterKey(name, topic)])
    {
      if enabled {
        increments := increments + [CounterKey(name, topic)];
      }
    }

    method IncrementSent(topic: string)
      modifies this
      ensures increments == old(increments) + Gated(enabled, [CounterKey(SENT, topic)])
    {
      Increment(SENT, topic);
    }

    method IncrementReceived(topic: string)
      modifies this
      ensures increments == old(increments) + Gated(enabled, [CounterKey(RECEIVED, topic)])
    {
      Increment(RECEIVED, topic);
    }

    method IncrementError(topic: string)
      modifies this
      ensures increments == old(increments) + Gated(enabled, [CounterKey(ERROR, topic)])
    {
      Increment(ERROR, topic);
    }
  }
}
