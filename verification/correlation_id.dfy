/**
 The published correlation-id middleware (package `correlationid`, file
 correlation_id.go): its configuration, its per-request decision, and the two
 context accessors the wrapped handler uses to read the id back.
 */
module CorrelationId {
  import opened Wrappers
  import opened GoContext
  import opened Http
  import opened Generators

  /** The header read and written when none is configured. */
  const DefaultHeaderName: string := "Correlation-Id"

  /** The context key: an untyped string constant, hence a key of Go type `string`. */
  const ContextKey: Key := StringKey("CorrelationId")

  /** The `Middleware` struct; a nil `IdGenerator` is `None`. */
  datatype Middleware = Middleware(
    headerName: string,
    includeInResponse: bool,
    enforceHeader: bool,
    idGenerator: Option<Generator>)

  /** `New`: the documented defaults. */
  function New(): (m: Middleware)
    ensures m.headerName == DefaultHeaderName
    ensures m.includeInResponse && !m.enforceHeader
    ensures m.idGenerator == Some(DefaultGenerator)
  {
    Middleware(DefaultHeaderName, true, false, Some(DefaultGenerator))
  }

  /** `getHeaderName`: the configured name, with "" standing for the default. */
  function HeaderName(m: Middleware): (name: string)
    ensures name != ""
    ensures m.headerName != "" ==> name == m.headerName
    ensures m.headerName == "" ==> name == DefaultHeaderName
  {
    if m.headerName == "" then DefaultHeaderName else m.headerName
  }

  /** `generateId`: one call of the configured generator, or of the default
      generator when the field is nil. */
  function GenerateId(m: Middleware, defaultId: string): (id: string)
    ensures m.idGenerator.None? ==> id == defaultId
    ensures m.idGenerator.Some? ==> id == Call(m.idGenerator.value, defaultId)
  {
    Call(m.idGenerator.GetOr(DefaultGenerator), defaultId)
  }

  /** The body `http.Error` writes when the header is required but missing. */
  function RequiredMessage(name: string): (msg: string)
    ensures |msg| > |name| && msg[..|name|] == name
    ensures msg[|name|..] == " header is required."
  {
    name + " header is required."
  }

  /** `WithCorrelationId`: derive a context whose correlation id is `id`. */
  function WithCorrelationId(ctx: Context, id: string): (r: Context)
    ensures FromContext(r) == id
    ensures forall k {:trigger Value(r, k)} :: k != ContextKey ==> Value(r, k) == Value(ctx, k)
    ensures |r| == |ctx| + 1 && r[..|ctx|] == ctx
  {
    WithValue(ctx, ContextKey, Str(id))
  }

  /** `FromContext`: the string most recently bound under `ContextKey`; "" when
      nothing is bound there, or when the most recent binding is not a string.
      Never fails. */
  function FromContext(ctx: Context): (id: string)
    ensures forall i {:trigger Nearest(ctx, ContextKey, i)} ::
      Nearest(ctx, ContextKey, i) && ctx[i].val.Str? ==> id == ctx[i].val.s
    ensures forall i {:trigger Nearest(ctx, ContextKey, i)} ::
      Nearest(ctx, ContextKey, i) && !ctx[i].val.Str? ==> id == ""
    ensures Unbound(ctx, ContextKey) ==> id == ""
  {
    match Value(ctx, ContextKey)
    case Str(s) => s
    case _ => ""
  }

  /** The handler `Handle(next)` returns, applied to one request `req` whose
      response header map starts as `rw`; `defaultId` is what the default
      generator would return. */
  function Handle(m: Middleware, req: Request, rw: Headers, defaultId: string): (o: Outcome)
    // The wrapped handler is skipped exactly when the id is required and not supplied.
    ensures o.Reject? <==> m.enforceHeader && Get(req.header, HeaderName(m)) == ""
    ensures o.Reject? ==>
      && o.status == StatusBadRequest
      && o.message == RequiredMessage(HeaderName(m))
      && o.respHeader == rw
    // A supplied id is used verbatim, whatever the enforcement setting.
    ensures Get(req.header, HeaderName(m)) != "" ==>
      o.Proceed? && o.id == Get(req.header, HeaderName(m))
    // Otherwise the id comes from the generator.
    ensures o.Proceed? && Get(req.header, HeaderName(m)) == "" ==> o.id == GenerateId(m, defaultId)
    // The id is echoed under the resolved name exactly when configured; nothing else changes.
    ensures o.Proceed? && m.includeInResponse ==>
      Get(o.respHeader, HeaderName(m)) == o.id && o.respHeader == Set(rw, HeaderName(m), o.id)
    ensures o.Proceed? && !m.includeInResponse ==> o.respHeader == rw
    // The wrapped handler reads the id back from its request's context; the
    // request is otherwise the inbound one.
    ensures o.Proceed? ==>
      && FromContext(o.forwarded.ctx) == o.id
      && o.forwarded.header == req.header
      && |o.forwarded.ctx| == |req.ctx| + 1
      && o.forwarded.ctx[..|req.ctx|] == req.ctx
    ensures o.Proceed? ==>
      forall k {:trigger Value(o.forwarded.ctx, k)} :: k != ContextKey ==>
        Value(o.forwarded.ctx, k) == Value(req.ctx, k)
  {
    var name := HeaderName(m);
    var supplied := Get(req.header, name);
    if supplied == "" && m.enforceHeader then
      Reject(StatusBadRequest, RequiredMessage(name), rw)
    else
      var id := if supplied == "" then GenerateId(m, defaultId) else supplied;
      var respHeader := if m.includeInResponse then Set(rw, name, id) else rw;
      Proceed(id, respHeader, Request(req.header, WithCorrelationId(req.ctx, id)))
  }

  /** The id the wrapped handler reads is the one the client sees in the response. */
  lemma EchoMatchesContext(m: Middleware, req: Request, rw: Headers, defaultId: string)
    requires m.includeInResponse
    ensures var o := Handle(m, req, rw, defaultId);
      o.Proceed? ==> Get(o.respHeader, HeaderName(m)) == FromContext(o.forwarded.ctx)
  {
  }

  /** An empty configured header name behaves exactly like the default name. */
  lemma EmptyHeaderNameIsDefault(m: Middleware, req: Request, rw: Headers, defaultId: string)
    ensures Handle(m.(headerName := ""), req, rw, defaultId)
         == Handle(m.(headerName := DefaultHeaderName), req, rw, defaultId)
  {
  }

  /** A nil generator behaves exactly like the default generator. */
  lemma NilGeneratorIsDefault(m: Middleware, req: Request, rw: Headers, defaultId: string)
    ensures Handle(m.(idGenerator := None), req, rw, defaultId)
         == Handle(m.(idGenerator := Some(DefaultGenerator)), req, rw, defaultId)
  {
  }

  /** When the client supplies the id, enforcement makes no difference. */
  lemma EnforcementIrrelevantWhenSupplied(m: Middleware, req: Request, rw: Headers, defaultId: string)
    requires Get(req.header, HeaderName(m)) != ""
    ensures Handle(m.(enforceHeader := true), req, rw, defaultId)
         == Handle(m.(enforceHeader := false), req, rw, defaultId)
  {
  }

  /** When the client supplies the id, the generator is not consulted: neither the
      configured generator nor the default generator's output matters. */
  lemma GeneratorUnusedWhenSupplied(m: Middleware, g: Option<Generator>, req: Request, rw: Headers,
                                    defaultId: string, otherId: string)
    requires Get(req.header, HeaderName(m)) != ""
    ensures Handle(m, req, rw, defaultId) == Handle(m.(idGenerator := g), req, rw, otherId)
  {
  }

  /** A later `WithCorrelationId` hides an earlier one. */
  lemma LaterIdShadowsEarlier(ctx: Context, first: string, second: string)
    ensures FromContext(WithCorrelationId(WithCorrelationId(ctx, first), second)) == second
  {
  }

  /** Whatever a handler binds under other keys after the middleware ran, it still
      reads the middleware's id. */
  lemma FromContextThroughUnrelatedBindings(ctx: Context, ext: Context)
    requires Unbound(ext, ContextKey)
    ensures FromContext(ctx + ext) == FromContext(ctx)
  {
    ValueThroughUnrelatedBindings(ctx, ext, ContextKey);
  }

  /** Any package binding a plain string under the name "CorrelationId" is read as
      the correlation id, since the key is an ordinary string. */
  lemma ForeignStringKeyCollides(ctx: Context, v: string)
    ensures FromContext(WithValue(ctx, StringKey("CorrelationId"), Str(v))) == v
  {
  }

  /** Default configuration, no header: the generated id is echoed and passed on. */
  lemma DefaultFlowGeneratesId(req: Request, rw: Headers, defaultId: string)
    requires Get(req.header, DefaultHeaderName) == ""
    ensures var o := Handle(New(), req, rw, defaultId);
      && o.Proceed? && o.id == defaultId
      && Get(o.respHeader, DefaultHeaderName) == defaultId
      && FromContext(o.forwarded.ctx) == defaultId
  {
  }

  /** Default configuration, header `Correlation-Id: custom_id`. */
  lemma SuppliedIdScenario(rw: Headers, ctx: Context, defaultId: string)
    ensures var o := Handle(New(), Request(map["Correlation-Id" := ["custom_id"]], ctx), rw, defaultId);
      && o.Proceed? && o.id == "custom_id"
      && Get(o.respHeader, "Correlation-Id") == "custom_id"
      && FromContext(o.forwarded.ctx) == "custom_id"
  {
  }

  /** Enforcement on, no header: 400, nothing echoed, handler not invoked. */
  lemma EnforcedMissingHeaderScenario(h: Headers, ctx: Context, defaultId: string)
    requires "Correlation-Id" !in h
    ensures var o := Handle(New().(enforceHeader := true), Request(h, ctx), map[], defaultId);
      && o.Reject? && o.status == 400
      && o.message == "Correlation-Id header is required."
      && Get(o.respHeader, "Correlation-Id") == ""
  {
    var msg := RequiredMessage(DefaultHeaderName);
    var expected := "Correlation-Id header is required.";
    assert |msg| == |expected|;
    assert forall i | 0 <= i < |msg| :: msg[i] == expected[i];
  }
}
