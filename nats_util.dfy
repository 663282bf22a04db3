/** NatsUtil: conversions between transport headers (a list of values per
    key) and a flat string map. */
module NatsUtil {
  import opened Wrappers
  import opened Model

  /** The flat view of transport headers: each key with a value keeps its first value. */
  function FirstValues(h: NatsHeaders): map<string, string>
  {
    map k | k in h && h[k] != [] :: h[k][0]
  }

  /** The transport headers holding one value per map entry. */
  function Singletons(m: map<string, string>): NatsHeaders
  {
    map k | k in m :: [m[k]]
  }

  /** Flattening headers built from a map gives the map back. */
  lemma SingletonsRoundTrip(m: map<string, string>)
    ensures FirstValues(Singletons(m)) == m
  {
    assert FirstValues(Singletons(m)).Keys == m.Keys;
  }

  /** headersToMap: null gives an empty map; every key with a value maps to
      its first value, keys with no value are dropped. */
  method HeadersToMap(headers: Option<NatsHeaders>) returns (m: map<string, string>)
    ensures headers.None? ==> m == map[]
    ensures headers.Some? ==> m.Keys <= headers.value.Keys
    ensures headers.Some? ==> forall k :: k in m <==> k in headers.value && headers.value[k] != []
    ensures headers.Some? ==> forall k :: k in m ==> m[k] == headers.value[k][0]
    ensures headers.Some? ==> m == FirstValues(headers.value)
  {
    m := map[];
    if headers.Some? {
      var h := headers.value;
      var keys := h.Keys;
      while keys != {}
        invariant keys <= h.Keys
        invariant forall k :: k in m <==> k in h && k !in keys && h[k] != []
        invariant forall k :: k in m ==> m[k] == h[k][0]
        decreases keys
      {
        var key :| key in keys;
        var values := h[key];
        if values != [] {
          m := m[key := values[0]];
        }
        keys := keys - {key};
      }
    }
  }

  /** mapToHeaders: null stays null; otherwise one header value per map entry. */
  method MapToHeaders(m: Option<map<string, string>>) returns (headers: Option<NatsHeaders>)
    ensures headers.None? <==> m.None?
    ensures m.Some? ==> headers.value.Keys == m.value.Keys
    ensures m.Some? ==> forall k :: k in m.value ==> headers.value[k] == [m.value[k]]
    ensures m.Some? ==> headers.value == Singletons(m.value)
  {
    if m.None? {
      return None;
    }
    var entries := m.value;
    var h: NatsHeaders := map[];
    var keys := entries.Keys;
    while keys != {}
      invariant keys <= entries.Keys
      invariant h.Keys == entries.Keys - keys
      invariant forall k :: k in h ==> h[k] == [entries[k]]
      decreases keys
    {
      var key :| key in keys;
      h := AddValue(h, key, entries[key]);
      keys := keys - {key};
    }
    headers := Some(h);
  }
}
