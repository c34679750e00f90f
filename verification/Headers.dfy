/** Correlation and trace headers from the publisher's context to the consumer's
    (otel/propagation.go). A context is any value of type C; what the caller configures reads and
    writes it as functions. */
module Headers {
  import opened Basics
  import opened PushLoop
  import opened Tables

  type Carrier = map<string, string>

  /** A text map propagator: what it injects into an empty carrier, and what it extracts. */
  datatype Propagator<!C> = Propagator(inject: C -> Carrier, extract: (C, Carrier) -> C)

  datatype PropagationConfig<!C> = PropagationConfig(
    correlationIdKey: string,
    traceKeys: seq<string>,
    getCorrelationId: Option<C -> string>,
    setCorrelationId: Option<(C, string) -> C>,
    propagator: Option<Propagator<C>>)

  /** The composite of no propagators, which stands in for a nil one. */
  function NoPropagator<C>(): Propagator<C> {
    Propagator(_ => map[], (ctx, _) => ctx)
  }

  function PropagatorOf<C>(cfg: PropagationConfig<C>): Propagator<C> {
    if cfg.propagator.Some? then cfg.propagator.value else NoPropagator()
  }

  // ---- What is sent and what is received -----------------------------------------------------------------

  function Get(carrier: Carrier, key: string): string {
    if key in carrier then carrier[key] else ""
  }

  /** The correlation id of a context; "" when there is none to send. */
  function SentId<C>(cfg: PropagationConfig<C>, ctx: C): string {
    if cfg.getCorrelationId.Some? && cfg.correlationIdKey != "" then cfg.getCorrelationId.value(ctx) else ""
  }

  /** The injected carrier restricted to the trace keys with a non-empty value. */
  function SentCarrier<C>(cfg: PropagationConfig<C>, ctx: C): Carrier {
    var injected := PropagatorOf(cfg).inject(ctx);
    map key | key in cfg.traceKeys && Get(injected, key) != "" :: Get(injected, key)
  }

  function ReceivedId<C>(cfg: PropagationConfig<C>, headers: Table): string {
    if cfg.correlationIdKey != "" then TextAt(headers, cfg.correlationIdKey) else ""
  }

  function ReceivedCarrier<C>(cfg: PropagationConfig<C>, headers: Table): Carrier {
    map key | key in cfg.traceKeys && TextAt(headers, key) != "" :: TextAt(headers, key)
  }

  /** The parent context with a correlation id set and a carrier extracted, each unless empty. */
  function Restored<C>(cfg: PropagationConfig<C>, parent: C, id: string, carrier: Carrier): C {
    var ctx := if cfg.setCorrelationId.Some? && id != "" then cfg.setCorrelationId.value(parent, id) else parent;
    if carrier != map[] then PropagatorOf(cfg).extract(ctx, carrier) else ctx
  }

  // ---- The two closures ----------------------------------------------------------------------------------

  /** The closure of NewPublishHeadersBuilder. A trace key overwrites the correlation id when both
      use one key; nothing else is in the headers. */
  method BuildHeaders<C>(cfg: PropagationConfig<C>, ctx: C) returns (headers: Table)
    ensures headers == BuiltHeaders(cfg, ctx)
  {
    headers := map[];
    if cfg.getCorrelationId.Some? && cfg.correlationIdKey != "" {
      var value := cfg.getCorrelationId.value(ctx);
      if value != "" {
        headers := headers[cfg.correlationIdKey := Text(value)];
      }
    }
    if |cfg.traceKeys| > 0 {
      ghost var before := headers;
      var carrier := PropagatorOf(cfg).inject(ctx);
      for i := 0 to |cfg.traceKeys|
        invariant headers == before + TraceTable(cfg.traceKeys[..i], carrier)
      {
        var key := cfg.traceKeys[i];
        var value := Get(carrier, key);
        if value != "" {
          headers := headers[key := Text(value)];
        }
        TraceStep(before, cfg.traceKeys[..i], key, carrier);
        assert cfg.traceKeys[..i + 1] == cfg.traceKeys[..i] + [key];
      }
      assert cfg.traceKeys[..|cfg.traceKeys|] == cfg.traceKeys;
    }
  }

  function TraceTable(keys: seq<string>, carrier: Carrier): Table {
    map key | key in keys && Get(carrier, key) != "" :: Text(Get(carrier, key))
  }

  lemma TraceStep(before: Table, keys: seq<string>, key: string, carrier: Carrier)
    ensures before + TraceTable(keys + [key], carrier)
            == if Get(carrier, key) == "" then before + TraceTable(keys, carrier)
               else (before + TraceTable(keys, carrier))[key := Text(Get(carrier, key))]
  {
  }

  function BuiltHeaders<C>(cfg: PropagationConfig<C>, ctx: C): Table {
    var id := SentId(cfg, ctx);
    var ids: Table := if id == "" then map[] else map[cfg.correlationIdKey := Text(id)];
    ids + TraceTable(cfg.traceKeys, PropagatorOf(cfg).inject(ctx))
  }

  /** The closure of NewConsumeHeadersExtractor: it restores what the headers carry. */
  method ExtractHeaders<C>(cfg: PropagationConfig<C>, parent: C, headers: Table) returns (ctx: C)
    ensures ctx == Restored(cfg, parent, ReceivedId(cfg, headers), ReceivedCarrier(cfg, headers))
  {
    ctx := parent;
    if cfg.setCorrelationId.Some? && cfg.correlationIdKey != "" {
      var value := TextAt(headers, cfg.correlationIdKey);
      if value != "" {
        ctx := cfg.setCorrelationId.value(ctx, value);
      }
    }
    if |cfg.traceKeys| > 0 {
      var carrier: Carrier := map[];
      for i := 0 to |cfg.traceKeys|
        invariant forall key :: key in carrier.Keys <==> key in cfg.traceKeys[..i] && TextAt(headers, key) != ""
        invariant forall key :: key in carrier ==> carrier[key] == TextAt(headers, key)
      {
        var key := cfg.traceKeys[i];
        if TextAt(headers, key) != "" {
          carrier := carrier[key := TextAt(headers, key)];
        }
        assert cfg.traceKeys[..i + 1] == cfg.traceKeys[..i] + [key];
      }
      assert cfg.traceKeys[..|cfg.traceKeys|] == cfg.traceKeys;
      assert carrier == ReceivedCarrier(cfg, headers);
      if |carrier| > 0 {
        ctx := PropagatorOf(cfg).extract(ctx, carrier);
      }
    }
  }

  // ---- What the closures do, key by key --------------------------------------------------------------------

  /** The id that a context gives to send: none without a key, a getter or a text. */
  predicate GivesId<C>(cfg: PropagationConfig<C>, ctx: C, id: string) {
    cfg.correlationIdKey != "" && cfg.getCorrelationId.Some? && id != "" && cfg.getCorrelationId.value(ctx) == id
  }

  /** The value that a context gives to send under a trace key: none without a propagator or a text. */
  predicate GivesTrace<C>(cfg: PropagationConfig<C>, ctx: C, key: string, value: string) {
    && key in cfg.traceKeys && cfg.propagator.Some? && value != ""
    && key in cfg.propagator.value.inject(ctx) && cfg.propagator.value.inject(ctx)[key] == value
  }

  /** A text is in the built headers exactly when it is the trace value of its key, or the correlation
      id under its own key when there is no trace value there; and there are only texts. */
  lemma BuiltKeyByKey<C>(cfg: PropagationConfig<C>, ctx: C, key: string, value: string)
    ensures var headers := BuiltHeaders(cfg, ctx);
            && (key in headers && headers[key] == Text(value) <==>
                  || GivesTrace(cfg, ctx, key, value)
                  || (key == cfg.correlationIdKey && GivesId(cfg, ctx, value)
                      && forall v :: !GivesTrace(cfg, ctx, key, v)))
            && (key in headers ==> headers[key].Text?)
  {
    var injected := PropagatorOf(cfg).inject(ctx);
    if cfg.propagator.Some? && key in cfg.traceKeys && Get(injected, key) != "" {
      assert GivesTrace(cfg, ctx, key, injected[key]);
    }
  }

  /** What the extractor finds under a key. */
  predicate Holds(headers: Table, key: string, value: string) {
    key in headers && headers[key] == Text(value) && value != ""
  }

  /** The restored context: the parent; with the id set when a setter and a key are configured and the
      key holds a text; and then with the carrier of exactly the trace keys that hold a text extracted,
      when there is a propagator and such a key. */
  lemma RestoredCaseByCase<C>(cfg: PropagationConfig<C>, parent: C, headers: Table, carrier: Carrier)
    requires forall key, value ::
               key in carrier && carrier[key] == value <==> key in cfg.traceKeys && Holds(headers, key, value)
    ensures var ctx := Restored(cfg, parent, ReceivedId(cfg, headers), ReceivedCarrier(cfg, headers));
            var extracts := cfg.propagator.Some? && carrier != map[];
            var key := cfg.correlationIdKey;
            && (forall id :: key != "" && cfg.setCorrelationId.Some? && Holds(headers, key, id) ==>
                  ctx == if extracts then cfg.propagator.value.extract(cfg.setCorrelationId.value(parent, id), carrier)
                         else cfg.setCorrelationId.value(parent, id))
            && (key == "" || cfg.setCorrelationId.None? || (forall id :: !Holds(headers, key, id)) ==>
                  ctx == if extracts then cfg.propagator.value.extract(parent, carrier) else parent)
  {
    assert ReceivedCarrier(cfg, headers) == carrier by { CarrierIs(cfg, headers, carrier); }
    if ReceivedId(cfg, headers) != "" { assert Holds(headers, cfg.correlationIdKey, ReceivedId(cfg, headers)); }
  }

  lemma CarrierIs<C>(cfg: PropagationConfig<C>, headers: Table, carrier: Carrier)
    requires forall key, value ::
               key in carrier && carrier[key] == value <==> key in cfg.traceKeys && Holds(headers, key, value)
    ensures ReceivedCarrier(cfg, headers) == carrier
  {
    var received := ReceivedCarrier(cfg, headers);
    forall key ensures key in received <==> key in carrier
               ensures key in received && key in carrier ==> received[key] == carrier[key]
    {
      if key in received { assert Holds(headers, key, received[key]); }
      if key in carrier { assert Holds(headers, key, carrier[key]); }
    }
  }

  // ---- End to end ------------------------------------------------------------------------------------------

  /** The headers of one attempt to publish a message from a context. */
  function OnTheWire<C>(cfg: PropagationConfig<C>, ctx: C, sender: Sender, msg: Message, now: int): Table {
    AttemptHeaders(sender, msg, BuiltHeaders(cfg, ctx), now)
  }

  /** Where two writers use one key they write the same text: the correlation id and a trace
      value, and in retry mode the deadline and either of them. */
  predicate WritersAgree<C>(cfg: PropagationConfig<C>, ctx: C, deadline: Option<string>) {
    && (cfg.correlationIdKey != "" && cfg.correlationIdKey in cfg.traceKeys ==>
          SentId(cfg, ctx) == Get(SentCarrier(cfg, ctx), cfg.correlationIdKey))
    && (deadline.Some? && EXPIRED in cfg.traceKeys ==> Get(SentCarrier(cfg, ctx), EXPIRED) == deadline.value)
    && (deadline.Some? && EXPIRED == cfg.correlationIdKey ==> SentId(cfg, ctx) == deadline.value)
  }

  function Deadline(sender: Sender, msg: Message, now: int): Option<string> {
    match sender.retry
    case None => None
    case Some(config) => Some(sender.stamp(now + RetryDuration(config, msg)))
  }

  /** What is received under a key, whoever wrote it last. */
  lemma TextOnTheWire<C>(cfg: PropagationConfig<C>, ctx: C, sender: Sender, msg: Message, now: int, key: string)
    ensures TextAt(OnTheWire(cfg, ctx, sender, msg, now), key)
            == if key == EXPIRED && Deadline(sender, msg, now).Some? then Deadline(sender, msg, now).value
               else if key in SentCarrier(cfg, ctx) then SentCarrier(cfg, ctx)[key]
               else if key == cfg.correlationIdKey then SentId(cfg, ctx)
               else ""
  {
  }

  /** The consumer receives exactly the correlation id and the carrier that were sent if and only
      if the writers agree where they share a key. */
  lemma ReceivedIsSentIff<C>(cfg: PropagationConfig<C>, ctx: C, sender: Sender, msg: Message, now: int)
    ensures var headers := OnTheWire(cfg, ctx, sender, msg, now);
            ReceivedId(cfg, headers) == SentId(cfg, ctx) && ReceivedCarrier(cfg, headers) == SentCarrier(cfg, ctx)
            <==> WritersAgree(cfg, ctx, Deadline(sender, msg, now))
  {
    var headers := OnTheWire(cfg, ctx, sender, msg, now);
    var sent, received := SentCarrier(cfg, ctx), ReceivedCarrier(cfg, headers);
    TextOnTheWire(cfg, ctx, sender, msg, now, cfg.correlationIdKey);
    TextOnTheWire(cfg, ctx, sender, msg, now, EXPIRED);
    if WritersAgree(cfg, ctx, Deadline(sender, msg, now)) {
      forall key ensures key in received.Keys <==> key in sent.Keys
                 ensures key in received ==> key in sent && received[key] == sent[key]
      {
        TextOnTheWire(cfg, ctx, sender, msg, now, key);
      }
      assert received == sent;
    } else if received == sent {
      assert Get(received, cfg.correlationIdKey) == Get(sent, cfg.correlationIdKey);
      assert Get(received, EXPIRED) == Get(sent, EXPIRED);
    }
  }

  lemma SentIs<C>(cfg: PropagationConfig<C>, ctx: C, carrier: Carrier)
    requires forall key, value :: key in carrier && carrier[key] == value <==> GivesTrace(cfg, ctx, key, value)
    ensures SentCarrier(cfg, ctx) == carrier
    ensures forall id :: id != "" ==> (SentId(cfg, ctx) == id <==> GivesId(cfg, ctx, id))
  {
    var sent := SentCarrier(cfg, ctx);
    forall key ensures key in sent <==> key in carrier
               ensures key in sent && key in carrier ==> sent[key] == carrier[key]
    {
      if key in sent { assert GivesTrace(cfg, ctx, key, sent[key]); }
      if key in carrier { assert GivesTrace(cfg, ctx, key, carrier[key]); }
    }
  }

  /** With a correlation key that is no trace key, and "expired" used by neither, what every attempt in
      either mode makes of the consumer's context is what the publisher's gives: its id set, when it
      gives one, and then the carrier of its trace values extracted, when it gives any. */
  lemma ContextEndToEnd<C>(cfg: PropagationConfig<C>, ctx: C, parent: C, sender: Sender, msg: Message, now: int,
                           carrier: Carrier)
    requires cfg.correlationIdKey !in cfg.traceKeys
    requires cfg.correlationIdKey != EXPIRED && EXPIRED !in cfg.traceKeys
    requires forall key, value :: key in carrier && carrier[key] == value <==> GivesTrace(cfg, ctx, key, value)
    ensures var headers := OnTheWire(cfg, ctx, sender, msg, now);
            var result := Restored(cfg, parent, ReceivedId(cfg, headers), ReceivedCarrier(cfg, headers));
            && (forall id :: cfg.setCorrelationId.Some? && GivesId(cfg, ctx, id) ==>
                  result == if carrier == map[] || cfg.propagator.None? then cfg.setCorrelationId.value(parent, id)
                            else cfg.propagator.value.extract(cfg.setCorrelationId.value(parent, id), carrier))
            && (cfg.setCorrelationId.None? || (forall id :: !GivesId(cfg, ctx, id)) ==>
                  result == if carrier == map[] || cfg.propagator.None? then parent
                            else cfg.propagator.value.extract(parent, carrier))
  {
    ReceivedIsSentIff(cfg, ctx, sender, msg, now);
    if carrier != map[] { HasPropagator(cfg, ctx, carrier); }
    SentIs(cfg, ctx, carrier);
    if SentId(cfg, ctx) != "" { assert GivesId(cfg, ctx, SentId(cfg, ctx)); }
  }

  lemma HasPropagator<C>(cfg: PropagationConfig<C>, ctx: C, carrier: Carrier)
    requires forall key, value :: key in carrier && carrier[key] == value <==> GivesTrace(cfg, ctx, key, value)
    requires carrier != map[]
    ensures cfg.propagator.Some?
  {
    var key :| key in carrier;
    assert GivesTrace(cfg, ctx, key, carrier[key]);
  }
}
