/** NatsEventComponentRegistrar: walks the enabled manifest entries in order
    and hands each handler bean to the dispatcher of its handler type,
    stopping at the first entry that cannot be registered. */
module Registrar {
  import opened Wrappers
  import opened Model

  /** One register call on one of the five dispatchers, with the bean (named by
      its handler class) and, for the read-side kinds, the entry's read topics. */
  datatype Registration =
    | ConsumerRegistered(topics: seq<TopicBinding>, bean: string)
    | SupplierRegistered(bean: string)
    | SupplierFanoutRegistered(bean: string)
    | FunctionRegistered(topics: seq<TopicBinding>, bean: string)
    | FunctionFanoutRegistered(topics: seq<TopicBinding>, bean: string)

  /** What aborts the constructor: Class.forName or getBean fails, the switch
      meets a null handler type, the cast to the contract fails, or the
      dispatcher's register iterates a null topic list. */
  datatype RegistrarError =
    | HandlerNotFound(handlerClass: string)
    | UnknownType(handlerClass: string)
    | NotAContract(handlerClass: string, required: Contract)
    | NullReadTopics(handlerClass: string)

  /** The beans of the application context: handler class to the contracts
      the bean implements; a class that is absent cannot be looked up. */
  type Beans = map<string, set<Contract>>

  /** The contract each handler type casts its bean to. */
  function Required(kind: HandlerType): Contract
  {
    match kind
    case CONSUMER => PayloadConsumer
    case SUPPLIER => PayloadSupplier
    case SUPPLIER_FANOUT => PayloadSupplierFanout
    case FUNCTION => PayloadFunction
    case FUNCTION_FANOUT => PayloadFunctionFanout
  }

  /** The dispatcher a registration goes to. */
  function Kind(reg: Registration): HandlerType
  {
    match reg
    case ConsumerRegistered(_, _) => CONSUMER
    case SupplierRegistered(_) => SUPPLIER
    case SupplierFanoutRegistered(_) => SUPPLIER_FANOUT
    case FunctionRegistered(_, _) => FUNCTION
    case FunctionFanoutRegistered(_, _) => FUNCTION_FANOUT
  }

  /** The topic list a registration passes, None for the suppliers. */
  function Topics(reg: Registration): Option<seq<TopicBinding>>
  {
    if reg.SupplierRegistered? || reg.SupplierFanoutRegistered? then None else Some(reg.topics)
  }

  predicate ReadsTopics(kind: HandlerType)
  {
    kind == CONSUMER || kind == FUNCTION || kind == FUNCTION_FANOUT
  }

  /** One iteration of the constructor's loop. */
  function Route(e: EventComponentEntry, beans: Beans): (r: Result<Registration, RegistrarError>)
    ensures r.Ok? ==> && e.handlerClass in beans && e.handlerType == Some(Kind(r.value))
                      && Required(Kind(r.value)) in beans[e.handlerClass] && r.value.bean == e.handlerClass
    ensures r.Ok? ==> (ReadsTopics(Kind(r.value)) <==> Topics(r.value).Some?)
    ensures r.Ok? && Topics(r.value).Some? ==> e.readTopics == Topics(r.value)
    ensures r.Err? <==> || e.handlerClass !in beans || e.handlerType.None?
                        || Required(e.handlerType.value) !in beans[e.handlerClass]
                        || (ReadsTopics(e.handlerType.value) && e.readTopics.None?)
  {
    if e.handlerClass !in beans then Err(HandlerNotFound(e.handlerClass))
    else if e.handlerType.None? then Err(UnknownType(e.handlerClass))
    else
      var kind := e.handlerType.value;
      if Required(kind) !in beans[e.handlerClass] then Err(NotAContract(e.handlerClass, Required(kind)))
      else if kind == SUPPLIER then Ok(SupplierRegistered(e.handlerClass))
      else if kind == SUPPLIER_FANOUT then Ok(SupplierFanoutRegistered(e.handlerClass))
      else if e.readTopics.None? then Err(NullReadTopics(e.handlerClass))
      else if kind == CONSUMER then Ok(ConsumerRegistered(e.readTopics.value, e.handlerClass))
      else if kind == FUNCTION then Ok(FunctionRegistered(e.readTopics.value, e.handlerClass))
      else Ok(FunctionFanoutRegistered(e.readTopics.value, e.handlerClass))
  }

  /** The register calls made and the exception that ended the loop, if any. */
  datatype Attempt = Attempt(done: seq<Registration>, stop: Option<RegistrarError>)

  /** The loop over the entries: the calls made, stopping at the first exception. */
  function Plan(entries: seq<EventComponentEntry>, beans: Beans): Attempt
  {
    if entries == [] then Attempt([], None)
    else
      var before := Plan(entries[..|entries| - 1], beans);
      if before.stop.Some? then before
      else
        match Route(entries[|entries| - 1], beans)
        case Err(e) => Attempt(before.done, Some(e))
        case Ok(reg) => Attempt(before.done + [reg], None)
  }

  /** When every entry routes, every entry is registered exactly once, in
      manifest order, with the dispatcher of its own type. */
  lemma {:induction false} AllRoutedAllRegistered(entries: seq<EventComponentEntry>, beans: Beans)
    requires forall j :: 0 <= j < |entries| ==> Route(entries[j], beans).Ok?
    ensures Plan(entries, beans).stop.None?
    ensures |Plan(entries, beans).done| == |entries|
    ensures forall j :: 0 <= j < |entries| ==> Ok(Plan(entries, beans).done[j]) == Route(entries[j], beans)
  {
    if entries != [] {
      var n := |entries| - 1;
      var init := entries[..n];
      assert forall j :: 0 <= j < n ==> init[j] == entries[j];
      AllRoutedAllRegistered(init, beans);
    }
  }

  /** Once an exception escaped, later entries are not registered. */
  lemma {:induction false} PlanAbsorbs(entries: seq<EventComponentEntry>, rest: seq<EventComponentEntry>, beans: Beans)
    requires Plan(entries, beans).stop.Some?
    ensures Plan(entries + rest, beans) == Plan(entries, beans)
    decreases |rest|
  {
    if rest == [] {
      assert entries + rest == entries;
    } else {
      var init := rest[..|rest| - 1];
      assert (entries + rest)[..|entries + rest| - 1] == entries + init;
      PlanAbsorbs(entries, init, beans);
    }
  }

  /** The first entry that fails ends the loop: its exception escapes after
      one register call for each earlier entry, and no later entry is registered. */
  lemma StopsAtFirstFailure(entries: seq<EventComponentEntry>, beans: Beans, k: nat)
    requires k < |entries| && Route(entries[k], beans).Err?
    requires forall j :: 0 <= j < k ==> Route(entries[j], beans).Ok?
    ensures Plan(entries, beans).stop == Some(Route(entries[k], beans).error)
    ensures |Plan(entries, beans).done| == k
    ensures forall j :: 0 <= j < k ==> Ok(Plan(entries, beans).done[j]) == Route(entries[j], beans)
  {
    var head := entries[..k + 1];
    assert head[..k] == entries[..k];
    assert forall j :: 0 <= j < k ==> entries[..k][j] == entries[j];
    AllRoutedAllRegistered(entries[..k], beans);
    assert entries == head + entries[k + 1..];
    PlanAbsorbs(head, entries[k + 1..], beans);
  }

  lemma PlanStep(entries: seq<EventComponentEntry>, beans: Beans, i: nat)
    requires i < |entries|
    ensures Plan(entries[..i + 1], beans) ==
            var before := Plan(entries[..i], beans);
            if before.stop.Some? then before
            else match Route(entries[i], beans)
                 case Err(e) => Attempt(before.done, Some(e))
                 case Ok(reg) => Attempt(before.done + [reg], None)
  {
    assert entries[..i + 1][..i] == entries[..i];
  }

  /** The constructor's loop: route each entry, making its register call, and
      stop at the first exception. */
  method RegisterAll(entries: seq<EventComponentEntry>, beans: Beans) returns (calls: seq<Registration>, failure: Option<RegistrarError>)
    ensures Attempt(calls, failure) == Plan(entries, beans)
  {
    calls, failure := [], None;
    var i := 0;
    while i < |entries|
      invariant i <= |entries|
      invariant Plan(entries[..i], beans) == Attempt(calls, None)
    {
      PlanStep(entries, beans, i);
      var routed := Route(entries[i], beans);
      if routed.Err? {
        failure := Some(routed.error);
        assert entries == entries[..i + 1] + entries[i + 1..];
        PlanAbsorbs(entries[..i + 1], entries[i + 1..], beans);
        return;
      }
      calls := calls + [routed.value];
      i := i + 1;
    }
    assert entries[..i] == entries;
  }
}
