/** The message envelope (PayloadWrapper) and its Builder: required-header
    validation, auto-fill of the correlation id and creation timestamp, and
    copy-on-write derivation through toBuilder. */
module Payload {
  import opened Wrappers
  import opened Model

  /** A built envelope. Its header map is a private copy, so as a value it
      cannot be changed by later builder mutations. */
  datatype Wrapper<T> = Wrapper(payload: T, payloadHeaders: map<PayloadHeader, string>)
  {
    /** getHeader: the map entry for h, or null. */
    function GetHeader(h: PayloadHeader): (r: Option<string>)
      ensures r.Some? <==> h in payloadHeaders
      ensures r.Some? ==> r.value == payloadHeaders[h]
    {
      if h in payloadHeaders then Some(payloadHeaders[h]) else None
    }
  }

  /** Why build throws an IllegalStateException. */
  datatype BuildError = PayloadMissing | MissingRequiredHeader(header: PayloadHeader)

  /** The builder's header map: Some(v) for a value, None for a key mapped to null. */
  type BuilderHeaders = map<PayloadHeader, Option<string>>

  /** Builder.STRICTLY_REQUIRED_HEADERS. */
  const STRICTLY_REQUIRED_HEADERS: set<PayloadHeader> := {PAYLOAD_TYPE}

  /** Character.isWhitespace. */
  predicate IsWhitespace(c: char)
  {
    || '\t' <= c <= '\r'
    || '\U{1C}' <= c <= '\U{1F}'
    || c == ' ' || c == '\U{1680}'
    || '\U{2000}' <= c <= '\U{2006}' || '\U{2008}' <= c <= '\U{200A}'
    || c == '\U{2028}' || c == '\U{2029}' || c == '\U{205F}' || c == '\U{3000}'
  }

  /** String.isBlank: empty or only whitespace. */
  predicate IsBlank(s: string)
  {
    forall i :: 0 <= i < |s| ==> IsWhitespace(s[i])
  }

  /** Map.get on the builder's map: absent and null both read as null. */
  function Get(hs: BuilderHeaders, h: PayloadHeader): Option<string>
  {
    if h in hs then hs[h] else None
  }

  /** A strictly required header is present, non-null and not blank. */
  predicate Present(hs: BuilderHeaders, h: PayloadHeader)
  {
    Get(hs, h).Some? && !IsBlank(Get(hs, h).value)
  }

  /** Map.putIfAbsent: writes v when the key is absent or mapped to null. */
  function PutIfAbsent(hs: BuilderHeaders, h: PayloadHeader, v: string): (r: BuilderHeaders)
    ensures Get(r, h) == if Get(hs, h).Some? then Get(hs, h) else Some(v)
    ensures forall k :: k != h ==> Get(r, k) == Get(hs, k)
  {
    if Get(hs, h).None? then hs[h := Some(v)] else hs
  }

  function DigitChar(d: nat): char
    requires d < 10
  {
    "0123456789"[d]
  }

  /** String.valueOf of a non-negative long. */
  function DecimalString(n: nat): (s: string)
    ensures s != []
    ensures forall i :: 0 <= i < |s| ==> '0' <= s[i] <= '9'
  {
    if n < 10 then [DigitChar(n)] else DecimalString(n / 10) + [DigitChar(n % 10)]
  }

  /** The number a string of decimal digits denotes. */
  function DecimalValue(s: string): nat
    requires forall i :: 0 <= i < |s| ==> '0' <= s[i] <= '9'
  {
    if s == [] then 0
    else DecimalValue(s[..|s| - 1]) * 10 + ((s[|s| - 1] as int) - ('0' as int))
  }

  /** The auto-filled creation timestamp parses back to the clock value. */
  lemma {:induction false} DecimalStringParses(n: nat)
    ensures DecimalValue(DecimalString(n)) == n
  {
    var s := DecimalString(n);
    if n >= 10 {
      DecimalStringParses(n / 10);
      assert s[..|s| - 1] == DecimalString(n / 10);
    }
  }

  /** The builder's map after `build` has auto-filled the correlation id
      (from uuid) and the creation timestamp (from the clock reading now). */
  function AutoFilled(hs: BuilderHeaders, uuid: string, now: nat): BuilderHeaders
  {
    PutIfAbsent(PutIfAbsent(hs, CORRELATION_ID, uuid), CREATION_TS, DecimalString(now))
  }

  /** The copy `new EnumMap<>(headers)`, with the (by then impossible) null values dropped. */
  function NonNull(hs: BuilderHeaders): map<PayloadHeader, string>
  {
    map h | h in hs && hs[h].Some? :: hs[h].value
  }

  /** A builder map holding exactly the entries of a built wrapper (toBuilder's putAll). */
  function Lift(m: map<PayloadHeader, string>): BuilderHeaders
  {
    map h | h in m :: Some(m[h])
  }

  /** The envelope invariant: every header is present and the payload type is not blank. */
  predicate WellFormed<T>(w: Wrapper<T>)
  {
    && PAYLOAD_TYPE in w.payloadHeaders
    && CORRELATION_ID in w.payloadHeaders
    && CREATION_TS in w.payloadHeaders
    && !IsBlank(w.payloadHeaders[PAYLOAD_TYPE])
  }

  /** What build returns for a builder holding payload and hs, given the
      fresh UUID and the clock reading it would use. */
  function BuildResult<T>(payload: Option<T>, hs: BuilderHeaders, uuid: string, now: nat): (r: Result<Wrapper<T>, BuildError>)
    ensures r.Err? <==> payload.None? || Get(hs, PAYLOAD_TYPE).None? || IsBlank(Get(hs, PAYLOAD_TYPE).value)
    ensures payload.None? ==> r == Err(PayloadMissing)
    ensures payload.Some? && r.Err? ==> r.error == MissingRequiredHeader(PAYLOAD_TYPE)
    ensures r.Ok? ==> r.value.payload == payload.value && WellFormed(r.value)
    ensures r.Ok? ==> r.value.payloadHeaders[PAYLOAD_TYPE] == Get(hs, PAYLOAD_TYPE).value
    ensures r.Ok? ==> r.value.payloadHeaders[CORRELATION_ID] ==
                      if Get(hs, CORRELATION_ID).Some? then Get(hs, CORRELATION_ID).value else uuid
    ensures r.Ok? ==> r.value.payloadHeaders[CREATION_TS] ==
                      if Get(hs, CREATION_TS).Some? then Get(hs, CREATION_TS).value else DecimalString(now)
  {
    if payload.None? then Err(PayloadMissing)
    else if !(forall h :: h in STRICTLY_REQUIRED_HEADERS ==> Present(hs, h)) then
      Err(MissingRequiredHeader(PAYLOAD_TYPE))
    else
      Ok(Wrapper(payload.value, NonNull(AutoFilled(hs, uuid, now))))
  }

  lemma {:induction false} AutoFilledIsIdempotent(hs: BuilderHeaders, uuid: string, now: nat, uuid': string, now': nat)
    ensures AutoFilled(AutoFilled(hs, uuid, now), uuid', now') == AutoFilled(hs, uuid, now)
  {
    var f := AutoFilled(hs, uuid, now);
    var g := AutoFilled(f, uuid', now');
    assert Get(f, CORRELATION_ID).Some? && Get(f, CREATION_TS).Some?;
    assert PutIfAbsent(f, CORRELATION_ID, uuid') == f;
  }

  /** A second build on the same builder reuses the correlation id and
      timestamp the first one wrote into the builder's map: both builds
      return the same envelope, whatever UUID and clock the second would use. */
  lemma {:induction false} SecondBuildReusesAutoFill<T>(payload: Option<T>, hs: BuilderHeaders,
                                                         uuid: string, now: nat, uuid': string, now': nat)
    requires BuildResult(payload, hs, uuid, now).Ok?
    ensures BuildResult(payload, AutoFilled(hs, uuid, now), uuid', now') == BuildResult(payload, hs, uuid, now)
  {
    var f := AutoFilled(hs, uuid, now);
    assert Get(f, PAYLOAD_TYPE) == Get(hs, PAYLOAD_TYPE);
    AutoFilledIsIdempotent(hs, uuid, now, uuid', now');
  }

  /** toBuilder().build() returns an equal envelope: the payload and every
      header survive and nothing is regenerated. */
  lemma {:induction false} ToBuilderBuildRoundTrip<T>(w: Wrapper<T>, uuid: string, now: nat)
    requires WellFormed(w)
    ensures BuildResult(Some(w.payload), Lift(w.payloadHeaders), uuid, now) == Ok(w)
  {
    var l := Lift(w.payloadHeaders);
    assert Get(l, CORRELATION_ID).Some? && Get(l, CREATION_TS).Some?;
    assert Get(l, PAYLOAD_TYPE) == Some(w.payloadHeaders[PAYLOAD_TYPE]);
    assert PutIfAbsent(l, CORRELATION_ID, uuid) == l;
    assert AutoFilled(l, uuid, now) == l;
    assert NonNull(l) == w.payloadHeaders;
  }

  /** PayloadWrapper.Builder: a mutable payload and header map. */
  class Builder<T> {
    var payload: Option<T>
    var headers: BuilderHeaders

    /** newBuilder(). */
    constructor ()
      ensures payload == None && headers == map[]
    {
      payload := None;
      headers := map[];
    }

    /** The copy constructor behind toBuilder(): captures the wrapper's payload and copies its headers. */
    constructor FromWrapper(w: Wrapper<T>)
      ensures payload == Some(w.payload) && headers == Lift(w.payloadHeaders)
    {
      payload := Some(w.payload);
      headers := Lift(w.payloadHeaders);
    }

    method SetPayload(p: Option<T>)
      modifies this
      ensures payload == p && headers == old(headers)
    {
      payload := p;
    }

    method SetPayloadType(payloadType: Option<string>)
      modifies this
      ensures headers == old(headers)[PAYLOAD_TYPE := payloadType] && payload == old(payload)
    {
      headers := headers[PAYLOAD_TYPE := payloadType];
    }

    method SetCorrelationId(correlationId: Option<string>)
      modifies this
      ensures headers == old(headers)[CORRELATION_ID := correlationId] && payload == old(payload)
    {
      headers := headers[CORRELATION_ID := correlationId];
    }

    method SetCreationTimestamp(creationTs: Option<string>)
      modifies this
      ensures headers == old(headers)[CREATION_TS := creationTs] && payload == old(payload)
    {
      headers := headers[CREATION_TS := creationTs];
    }

    /** addHeader writes the same slot the named setters write. */
    method AddHeader(key: PayloadHeader, value: Option<string>)
      modifies this
      ensures headers == old(headers)[key := value] && payload == old(payload)
    {
      headers := headers[key := value];
    }

    /** build: validates, auto-fills into the builder's own map, then copies. */
    method Build(uuid: string, now: nat) returns (r: Result<Wrapper<T>, BuildError>)
      modifies this
      ensures r == BuildResult(old(payload), old(headers), uuid, now)
      ensures payload == old(payload)
      ensures headers == if r.Ok? then AutoFilled(old(headers), uuid, now) else old(headers)
    {
      if payload.None? {
        return Err(PayloadMissing);
      }
      var remaining := STRICTLY_REQUIRED_HEADERS;
      while remaining != {}
        invariant remaining <= STRICTLY_REQUIRED_HEADERS
        invariant forall h :: h in STRICTLY_REQUIRED_HEADERS && h !in remaining ==> Present(headers, h)
        decreases remaining
      {
        var required :| required in remaining;
        if Get(headers, required).None? || IsBlank(Get(headers, required).value) {
          return Err(MissingRequiredHeader(required));
        }
        remaining := remaining - {required};
      }
      headers := PutIfAbsent(headers, CORRELATION_ID, uuid);
      headers := PutIfAbsent(headers, CREATION_TS, DecimalString(now));
      r := Ok(Wrapper(payload.value, NonNull(headers)));
    }
  }
}
