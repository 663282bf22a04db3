/** SupplierDispatcher: each registered supplier runs in a loop on the
    executor until its thread is interrupted, publishing every non-null
    envelope it supplies. */
module Supplier {
  import opened Wrappers
  import opened Model
  import opened Payload
  import opened Metrics
  import opened WriteIndex
  import opened Dispatch

  /** One turn of a supplier loop: the interrupt flag is found set, or the
      loop calls supply with the given outcome. */
  datatype Tick<+T> = Interrupt | Call(outcome: HandlerOutcome<T>)

  /** How many supply calls the loop makes: every tick up to the first interrupt. */
  function LeadingCalls<T>(ticks: seq<Tick<T>>): (n: nat)
    ensures n <= |ticks|
    ensures forall k :: 0 <= k < n ==> ticks[k].Call?
    ensures n < |ticks| ==> ticks[n].Interrupt?
  {
    if ticks == [] || ticks[0].Interrupt? then 0 else 1 + LeadingCalls(ticks[1..])
  }

  /** What one supply call hands to publish. */
  function Produced(t: Tick<Option<Wrapper<Bytes>>>): seq<Wrapper<Bytes>>
  {
    if t.Call? && t.outcome.Returned? && t.outcome.value.Some? then [t.outcome.value.value] else []
  }

  /** The envelopes handed to publish over the first n turns, in order. */
  function Supplied(ticks: seq<Tick<Option<Wrapper<Bytes>>>>, n: nat): seq<Wrapper<Bytes>>
    requires n <= |ticks|
  {
    if n == 0 then [] else Supplied(ticks, n - 1) + Produced(ticks[n - 1])
  }

  /** Exactly the non-null envelopes are published; null results and
      exceptions are skipped and the loop goes on. */
  lemma {:induction false} SuppliedMembers(ticks: seq<Tick<Option<Wrapper<Bytes>>>>, n: nat, w: Wrapper<Bytes>)
    requires n <= |ticks|
    ensures w in Supplied(ticks, n) <==> exists k :: 0 <= k < n && ticks[k] == Call(Returned(Some(w)))
    ensures |Supplied(ticks, n)| <= n
  {
    if n > 0 {
      SuppliedMembers(ticks, n - 1, w);
      if w in Supplied(ticks, n) && w !in Supplied(ticks, n - 1) {
        assert ticks[n - 1] == Call(Returned(Some(w)));
      }
    }
  }

  lemma LeadingCallsStep<T>(ticks: seq<Tick<T>>, i: nat)
    requires i < |ticks| && ticks[i].Call?
    ensures LeadingCalls(ticks[i..]) == 1 + LeadingCalls(ticks[i + 1..])
  {
    assert ticks[i..][1..] == ticks[i + 1..];
  }

  lemma LeadingCallsStop<T>(ticks: seq<Tick<T>>, i: nat)
    requires i == |ticks| || (i < |ticks| && ticks[i].Interrupt?)
    ensures LeadingCalls(ticks[i..]) == 0
  {
    if i < |ticks| {
      assert ticks[i..][0] == ticks[i];
    }
  }

  lemma EmitSingle(index: map<string, string>, failing: bool, w: Wrapper<Bytes>)
    ensures EmitAll(index, failing, [w]) == Emit(index, failing, w)
    ensures SentKeysAll(index, failing, [w]) == SentKeys(index, failing, w)
  {
    assert [w][..0] == [];
  }

  /** The logs after one more turn's publish are the logs of one more turn. */
  lemma SupplyStep(index: map<string, string>, failing: bool, enabled: bool, published0: seq<Publication>,
                   increments0: seq<string>, ticks: seq<Tick<Option<Wrapper<Bytes>>>>, n: nat)
    requires n < |ticks|
    ensures published0 + EmitAll(index, failing, Supplied(ticks, n)) + EmitAll(index, failing, Produced(ticks[n]))
            == published0 + EmitAll(index, failing, Supplied(ticks, n + 1))
    ensures increments0 + Gated(enabled, SentKeysAll(index, failing, Supplied(ticks, n))) + Gated(enabled, SentKeysAll(index, failing, Produced(ticks[n])))
            == increments0 + Gated(enabled, SentKeysAll(index, failing, Supplied(ticks, n + 1)))
  {
    var produced := Produced(ticks[n]);
    var out := Supplied(ticks, n);
    EmitAllAppend(index, failing, out, produced);
    GatedAppend(enabled, SentKeysAll(index, failing, out), SentKeysAll(index, failing, produced));
    AppendAssoc(published0, EmitAll(index, failing, out), EmitAll(index, failing, produced));
    AppendAssoc(increments0, Gated(enabled, SentKeysAll(index, failing, out)), Gated(enabled, SentKeysAll(index, failing, produced)));
  }

  class SupplierDispatcher {
    const base: DispatchBase
    /** The supplier beans submitted to the executor, in order. */
    var submitted: seq<string>
    /** Whether shutdownNow has been called on the executor. */
    var shutdownRequested: bool

    constructor (transport: Transport, metrics: MetricsRecorder, writeTopicMap: map<string, string>)
      ensures fresh(base) && base.transport == transport && base.metrics == metrics
      ensures base.writeTopicMap == writeTopicMap && base.dispatchers == [] && base.mdc == None
      ensures submitted == [] && !shutdownRequested
    {
      base := new DispatchBase(transport, metrics, writeTopicMap);
      submitted, shutdownRequested := [], false;
    }

    /** register: submit the supplier's loop; an executor that was shut down
        rejects the submission. */
    method Register(handler: string) returns (ok: bool)
      modifies this
      ensures ok == !shutdownRequested && shutdownRequested == old(shutdownRequested)
      ensures submitted == if ok then old(submitted) + [handler] else old(submitted)
    {
      ok := !shutdownRequested;
      if ok {
        submitted := submitted + [handler];
      }
    }

    /** shutdown: shutdownNow on the executor, which interrupts every loop;
        nothing is drained. */
    method Shutdown()
      modifies this
      ensures shutdownRequested && submitted == old(submitted)
    {
      shutdownRequested := true;
    }

    /** One turn of the loop body: call supply and publish the envelope
        unless it is null; an exception from supply is logged and nothing is
        published. */
    method SupplyOnce(t: Tick<Option<Wrapper<Bytes>>>)
      modifies base, base.metrics, base.transport
      ensures base.transport.published == old(base.transport.published) + EmitAll(base.writeTopicMap, base.transport.failing, Produced(t))
      ensures base.metrics.increments == old(base.metrics.increments) + Gated(base.metrics.enabled, SentKeysAll(base.writeTopicMap, base.transport.failing, Produced(t)))
      ensures base.dispatchers == old(base.dispatchers)
      ensures base.transport.subscriptions == old(base.transport.subscriptions) && base.transport.drains == old(base.transport.drains)
    {
      if t.Call? && t.outcome.Returned? && t.outcome.value.Some? {
        var w := t.outcome.value.value;
        EmitSingle(base.writeTopicMap, base.transport.failing, w);
        base.Publish(w);
      }
    }

    /** runSupplierLoop, the loop register submits to the executor, over a script of turns:
        supply until the thread is interrupted, publishing each non-null envelope. */
    method RunSupplierLoop(ticks: seq<Tick<Option<Wrapper<Bytes>>>>) returns (calls: nat)
      modifies base, base.metrics, base.transport
      ensures calls == LeadingCalls(ticks)
      ensures base.transport.published == old(base.transport.published) + EmitAll(base.writeTopicMap, base.transport.failing, Supplied(ticks, calls))
      ensures base.metrics.increments == old(base.metrics.increments) + Gated(base.metrics.enabled, SentKeysAll(base.writeTopicMap, base.transport.failing, Supplied(ticks, calls)))
      ensures base.dispatchers == old(base.dispatchers)
      ensures base.transport.subscriptions == old(base.transport.subscriptions) && base.transport.drains == old(base.transport.drains)
    {
      ghost var published0, increments0 := base.transport.published, base.metrics.increments;
      ghost var index, failing, enabled := base.writeTopicMap, base.transport.failing, base.metrics.enabled;
      calls := 0;
      while calls < |ticks|
        invariant calls <= |ticks|
        invariant calls + LeadingCalls(ticks[calls..]) == LeadingCalls(ticks)
        invariant base.transport.published == published0 + EmitAll(index, failing, Supplied(ticks, calls))
        invariant base.metrics.increments == increments0 + Gated(enabled, SentKeysAll(index, failing, Supplied(ticks, calls)))
        invariant base.dispatchers == old(base.dispatchers)
        invariant base.transport.subscriptions == old(base.transport.subscriptions) && base.transport.drains == old(base.transport.drains)
        decreases |ticks| - calls
      {
        if ticks[calls].Interrupt? {
          LeadingCallsStop(ticks, calls);
          break;
        }
        LeadingCallsStep(ticks, calls);
        SupplyStep(index, failing, enabled, published0, increments0, ticks, calls);
        SupplyOnce(ticks[calls]);
        calls := calls + 1;
      }
      if calls == |ticks| {
        LeadingCallsStop(ticks, calls);
      }
    }
  }

  /** The constructor's write-topic index over the SUPPLIER entries. */
  method NewSupplierDispatcher(transport: Transport, entries: seq<EventComponentEntry>, metrics: MetricsRecorder)
    returns (d: Option<SupplierDispatcher>)
    ensures d.None? <==> HasNullWrites(entries, SUPPLIER)
    ensures d.Some? ==> fresh(d.value) && fresh(d.value.base)
    ensures d.Some? ==> d.value.base.transport == transport && d.value.base.metrics == metrics
    ensures d.Some? ==> d.value.base.writeTopicMap == IndexOf(WriteBindings(entries, SUPPLIER))
    ensures d.Some? ==> d.value.base.dispatchers == [] && d.value.base.mdc == None
    ensures d.Some? ==> d.value.submitted == [] && !d.value.shutdownRequested
  {
    var index := BuildWriteTopicMap(entries, SUPPLIER);
    if index.None? {
      return None;
    }
    var s := new SupplierDispatcher(transport, metrics, index.value);
    d := Some(s);
  }
}
