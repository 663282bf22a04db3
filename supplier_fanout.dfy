/** SupplierFanoutDispatcher: each registered supplier runs in a loop on the
    executor, publishing every envelope of every batch it supplies, until
    its thread is interrupted or it hands back an empty batch. */
module SupplierFanout {
  import opened Wrappers
  import opened Model
  import opened Payload
  import opened Metrics
  import opened WriteIndex
  import opened Dispatch
  import opened Supplier

  type BatchTick = Tick<Option<seq<Wrapper<Bytes>>>>

  /** How the loop ended: the interrupt flag was found set, supply returned
      an empty list (the loop returns), or the script of turns ran out. */
  datatype LoopExit = Interrupted | NoMorePayloads | ScriptEnded

  /** A turn after which no further supply call is made. A null list is not
      one of them: logging its class throws, the exception is caught and the
      loop goes on. */
  predicate EndsLoop(t: BatchTick)
  {
    match t
    case Interrupt => true
    case Call(outcome) => outcome.Returned? && outcome.value.Some? && |outcome.value.value| == 0
  }

  /** The first turn at or after i that ends the loop, or |ticks|. */
  function FirstStop(ticks: seq<BatchTick>, i: nat): (r: nat)
    requires i <= |ticks|
    ensures i <= r <= |ticks|
    decreases |ticks| - i
  {
    if i == |ticks| || EndsLoop(ticks[i]) then i else FirstStop(ticks, i + 1)
  }

  /** No turn from i up to the first stop ends the loop, and the stop, when
      inside the script, does. */
  lemma {:induction false} FirstStopMeaning(ticks: seq<BatchTick>, i: nat)
    requires i <= |ticks|
    ensures forall k :: i <= k < FirstStop(ticks, i) ==> !EndsLoop(ticks[k])
    ensures FirstStop(ticks, i) < |ticks| ==> EndsLoop(ticks[FirstStop(ticks, i)])
    decreases |ticks| - i
  {
    if i < |ticks| && !EndsLoop(ticks[i]) {
      FirstStopMeaning(ticks, i + 1);
    }
  }

  /** Any n that no earlier turn from i passes over, and that ends the loop
      or the script, is the first stop from i. */
  lemma {:induction false} FirstStopAt(ticks: seq<BatchTick>, i: nat, n: nat)
    requires i <= n <= |ticks|
    requires forall k :: i <= k < n ==> !EndsLoop(ticks[k])
    requires n < |ticks| ==> EndsLoop(ticks[n])
    ensures FirstStop(ticks, i) == n
    decreases n - i
  {
    if i < n {
      FirstStopAt(ticks, i + 1, n);
    }
  }

  /** The turn that ends the loop (or |ticks| when none does). */
  function Stop(ticks: seq<BatchTick>): nat
  {
    FirstStop(ticks, 0)
  }

  /** How the loop over the script ends. */
  function ExitOf(ticks: seq<BatchTick>): LoopExit
  {
    var s := Stop(ticks);
    if s == |ticks| then ScriptEnded
    else if ticks[s].Interrupt? then Interrupted
    else NoMorePayloads
  }

  /** How many times supply is called: every turn before the stop, plus the
      call that returned the empty list. */
  function CallsOf(ticks: seq<BatchTick>): (n: nat)
    ensures n <= |ticks|
  {
    var s := Stop(ticks);
    if ExitOf(ticks) == NoMorePayloads then s + 1 else s
  }

  /** What one supply call hands to publish: the list it returned, nothing
      for a null list or an exception. */
  function Batch(t: BatchTick): seq<Wrapper<Bytes>>
  {
    if t.Call? && t.outcome.Returned? && t.outcome.value.Some? then t.outcome.value.value else []
  }

  /** The envelopes handed to publish over the first n turns, in order. */
  function Batches(ticks: seq<BatchTick>, n: nat): seq<Wrapper<Bytes>>
    requires n <= |ticks|
  {
    if n == 0 then [] else Batches(ticks, n - 1) + Batch(ticks[n - 1])
  }

  /** The stop is the first turn that ends the loop: any n with that
      property is it. */
  lemma StopIsFirst(ticks: seq<BatchTick>, n: nat)
    requires n <= |ticks|
    requires forall k :: 0 <= k < n ==> !EndsLoop(ticks[k])
    requires n < |ticks| ==> EndsLoop(ticks[n])
    ensures Stop(ticks) == n
  {
    FirstStopAt(ticks, 0, n);
  }

  /** An envelope is published exactly when some call before the stop
      returned a list holding it. */
  lemma {:induction false} BatchesMembers(ticks: seq<BatchTick>, n: nat, w: Wrapper<Bytes>)
    requires n <= |ticks|
    ensures w in Batches(ticks, n) <==>
            exists k, ws :: 0 <= k < n && ticks[k] == Call(Returned(Some(ws))) && w in ws
  {
    if n > 0 {
      BatchesMembers(ticks, n - 1, w);
      var t := ticks[n - 1];
      if w in Batches(ticks, n) && w !in Batches(ticks, n - 1) {
        assert t == Call(Returned(Some(t.outcome.value.value)));
      }
      if t.Call? && t.outcome.Returned? && t.outcome.value.Some? && w in t.outcome.value.value {
        assert w in Batch(t);
      }
    }
  }

  /** The empty batch that ends the loop adds nothing, so what is published
      is the batches before the stop whatever the exit. */
  lemma BatchesAtExit(ticks: seq<BatchTick>)
    ensures Batches(ticks, CallsOf(ticks)) == Batches(ticks, Stop(ticks))
  {
    var s := Stop(ticks);
    FirstStopMeaning(ticks, 0);
    if ExitOf(ticks) == NoMorePayloads {
      assert Batch(ticks[s]) == [];
      assert Batches(ticks, s) + [] == Batches(ticks, s);
    }
  }

  /** A scan that reached the end or a turn that ends the loop has found the stop. */
  lemma StopHere(ticks: seq<BatchTick>, n: nat)
    requires n <= |ticks| && n <= Stop(ticks)
    requires n < |ticks| ==> EndsLoop(ticks[n])
    ensures Stop(ticks) == n
  {
    FirstStopMeaning(ticks, 0);
  }

  /** A script with no interrupt and no empty list makes a call on every
      turn and runs to its end. */
  lemma {:induction false} RunsToEnd(ticks: seq<BatchTick>)
    requires forall k :: 0 <= k < |ticks| ==> !EndsLoop(ticks[k])
    ensures ExitOf(ticks) == ScriptEnded && CallsOf(ticks) == |ticks|
  {
    StopIsFirst(ticks, |ticks|);
  }

  /** The logs after one more batch is published are the logs of one more turn. */
  lemma BatchStep(index: map<string, string>, failing: bool, enabled: bool, published0: seq<Publication>,
                  increments0: seq<string>, ticks: seq<BatchTick>, n: nat)
    requires n < |ticks|
    ensures published0 + EmitAll(index, failing, Batches(ticks, n)) + EmitAll(index, failing, Batch(ticks[n]))
            == published0 + EmitAll(index, failing, Batches(ticks, n + 1))
    ensures increments0 + Gated(enabled, SentKeysAll(index, failing, Batches(ticks, n))) + Gated(enabled, SentKeysAll(index, failing, Batch(ticks[n])))
            == increments0 + Gated(enabled, SentKeysAll(index, failing, Batches(ticks, n + 1)))
  {
    var out, batch := Batches(ticks, n), Batch(ticks[n]);
    EmitAllAppend(index, failing, out, batch);
    GatedAppend(enabled, SentKeysAll(index, failing, out), SentKeysAll(index, failing, batch));
    AppendAssoc(published0, EmitAll(index, failing, out), EmitAll(index, failing, batch));
    AppendAssoc(increments0, Gated(enabled, SentKeysAll(index, failing, out)), Gated(enabled, SentKeysAll(index, failing, batch)));
  }

  class SupplierFanoutDispatcher {
    const base: DispatchBase
    /** The supplier beans submitted to the executor, in order. */
    var submitted: seq<string>
    /** Whether shutdownNow has been called on the executor. */
    var shutdownRequested: bool

    constructor (transport: Transport, metrics: MetricsRecorder, writeTopicMap: map<string, string>)
      ensures fresh(base) && base.transport == transport && base.metrics == metrics
      ensures base.writeTopicMap == writeTopicMap && base.dispatchers == [] && base.mdc == None
      ensures submitted == [] && !shutdownRequested
    {
      base := new DispatchBase(transport, metrics, writeTopicMap);
      submitted, shutdownRequested := [], false;
    }

    /** register: submit the supplier's loop; an executor that was shut down
        rejects the submission. */
    method Register(handler: string) returns (ok: bool)
      modifies this
      ensures ok == !shutdownRequested && shutdownRequested == old(shutdownRequested)
      ensures submitted == if ok then old(submitted) + [handler] else old(submitted)
    {
      ok := !shutdownRequested;
      if ok {
        submitted := submitted + [handler];
      }
    }

    /** shutdown: shutdownNow on the executor, which interrupts every loop. */
    method Shutdown()
      modifies this
      ensures shutdownRequested && submitted == old(submitted)
    {
      shutdownRequested := true;
    }

    /** runFanoutSupplierLoop over a script of turns: supply until the
        thread is interrupted or an empty list comes back, publishing each
        envelope of each non-empty list in order. */
    method RunFanoutSupplierLoop(ticks: seq<BatchTick>) returns (calls: nat, exit: LoopExit)
      modifies base, base.metrics, base.transport
      ensures calls == CallsOf(ticks) && exit == ExitOf(ticks)
      ensures base.transport.published == old(base.transport.published) + EmitAll(base.writeTopicMap, base.transport.failing, Batches(ticks, calls))
      ensures base.metrics.increments == old(base.metrics.increments) + Gated(base.metrics.enabled, SentKeysAll(base.writeTopicMap, base.transport.failing, Batches(ticks, calls)))
      ensures base.dispatchers == old(base.dispatchers)
      ensures base.transport.subscriptions == old(base.transport.subscriptions) && base.transport.drains == old(base.transport.drains)
    {
      var stop := SupplyUntilStop(ticks);
      BatchesAtExit(ticks);
      if stop == |ticks| {
        calls, exit := stop, ScriptEnded;
      } else if ticks[stop].Interrupt? {
        calls, exit := stop, Interrupted;
      } else {
        calls, exit := stop + 1, NoMorePayloads;
      }
    }

    /** The loop itself: one supply call and one publish per envelope on
        each turn, up to the turn that ends the loop. */
    method SupplyUntilStop(ticks: seq<BatchTick>) returns (calls: nat)
      modifies base, base.metrics, base.transport
      ensures calls == Stop(ticks)
      ensures base.transport.published == old(base.transport.published) + EmitAll(base.writeTopicMap, base.transport.failing, Batches(ticks, calls))
      ensures base.metrics.increments == old(base.metrics.increments) + Gated(base.metrics.enabled, SentKeysAll(base.writeTopicMap, base.transport.failing, Batches(ticks, calls)))
      ensures base.dispatchers == old(base.dispatchers)
      ensures base.transport.subscriptions == old(base.transport.subscriptions) && base.transport.drains == old(base.transport.drains)
    {
      ghost var published0, increments0 := base.transport.published, base.metrics.increments;
      ghost var index, failing, enabled := base.writeTopicMap, base.transport.failing, base.metrics.enabled;
      FirstStopMeaning(ticks, 0);
      calls := 0;
      while calls < |ticks|
        invariant calls <= |ticks|
        invariant calls <= Stop(ticks)
        invariant Stop(ticks) < |ticks| ==> EndsLoop(ticks[Stop(ticks)])
        invariant base.transport.published == published0 + EmitAll(index, failing, Batches(ticks, calls))
        invariant base.metrics.increments == increments0 + Gated(enabled, SentKeysAll(index, failing, Batches(ticks, calls)))
        invariant base.dispatchers == old(base.dispatchers)
        invariant base.transport.subscriptions == old(base.transport.subscriptions) && base.transport.drains == old(base.transport.drains)
        decreases |ticks| - calls
      {
        if EndsLoop(ticks[calls]) {
          break;
        }
        SupplyTurn(published0, increments0, ticks, calls);
        calls := calls + 1;
      }
      StopHere(ticks, calls);
    }

    /** One turn of the loop: publish the batch supply returned. */
    method SupplyTurn(ghost published0: seq<Publication>, ghost increments0: seq<string>, ticks: seq<BatchTick>, n: nat)
      requires n < |ticks|
      requires base.transport.published == published0 + EmitAll(base.writeTopicMap, base.transport.failing, Batches(ticks, n))
      requires base.metrics.increments == increments0 + Gated(base.metrics.enabled, SentKeysAll(base.writeTopicMap, base.transport.failing, Batches(ticks, n)))
      modifies base, base.metrics, base.transport
      ensures base.transport.published == published0 + EmitAll(base.writeTopicMap, base.transport.failing, Batches(ticks, n + 1))
      ensures base.metrics.increments == increments0 + Gated(base.metrics.enabled, SentKeysAll(base.writeTopicMap, base.transport.failing, Batches(ticks, n + 1)))
      ensures base.dispatchers == old(base.dispatchers)
      ensures base.transport.subscriptions == old(base.transport.subscriptions) && base.transport.drains == old(base.transport.drains)
    {
      BatchStep(base.writeTopicMap, base.transport.failing, base.metrics.enabled, published0, increments0, ticks, n);
      base.PublishEach(Batch(ticks[n]));
    }
  }

  /** The constructor's write-topic index over the SUPPLIER_FANOUT entries. */
  method NewSupplierFanoutDispatcher(transport: Transport, entries: seq<EventComponentEntry>, metrics: MetricsRecorder)
    returns (d: Option<SupplierFanoutDispatcher>)
    ensures d.None? <==> HasNullWrites(entries, SUPPLIER_FANOUT)
    ensures d.Some? ==> fresh(d.value) && fresh(d.value.base)
    ensures d.Some? ==> d.value.base.transport == transport && d.value.base.metrics == metrics
    ensures d.Some? ==> d.value.base.writeTopicMap == IndexOf(WriteBindings(entries, SUPPLIER_FANOUT))
    ensures d.Some? ==> d.value.base.dispatchers == [] && d.value.base.mdc == None
    ensures d.Some? ==> d.value.submitted == [] && !d.value.shutdownRequested
  {
    var index := BuildWriteTopicMap(entries, SUPPLIER_FANOUT);
    if index.None? {
      return None;
    }
    var s := new SupplierFanoutDispatcher(transport, metrics, index.value);
    d := Some(s);
  }
}
