/**
 The earlier draft of the middleware (pkg/correlation_id.go). It takes the same
 per-request decision as the published package, but binds the id under a key of
 its own named type `CorrelationIdType`, and its `FromContext` asserts the bound
 value to be a string without checking, so it is only defined when one is bound.
 */
module CorrelationIdDraft {
  import opened Wrappers
  import opened GoContext
  import opened Http
  import opened Generators

  const DefaultCorrelationIdHeaderName: string := "Correlation-Id"

  /** `CorrelationId`, the constant "CorrelationId" of type `CorrelationIdType`. */
  const CorrelationId: Key := CorrelationIdTypeKey("CorrelationId")

  /** The `CorrelationIdMiddleware` struct; a nil `IdGenerator` is `None`. */
  datatype CorrelationIdMiddleware = CorrelationIdMiddleware(
    headerName: string,
    includeInResponse: bool,
    enforceHeader: bool,
    idGenerator: Option<Generator>)

  /** `New`: the documented defaults; the generator is the UUID generator. */
  function New(): (m: CorrelationIdMiddleware)
    ensures m.headerName == DefaultCorrelationIdHeaderName
    ensures m.includeInResponse && !m.enforceHeader
    ensures m.idGenerator == Some(DefaultGenerator)
  {
    CorrelationIdMiddleware(DefaultCorrelationIdHeaderName, true, false, Some(DefaultGenerator))
  }

  /** `getHeaderName`: the configured name, with "" standing for the default. */
  function HeaderName(m: CorrelationIdMiddleware): (name: string)
    ensures name != ""
    ensures m.headerName != "" ==> name == m.headerName
    ensures m.headerName == "" ==> name == DefaultCorrelationIdHeaderName
  {
    if m.headerName == "" then DefaultCorrelationIdHeaderName else m.headerName
  }

  /** `generateId`: the configured generator, or the UUID generator when nil. */
  function GenerateId(m: CorrelationIdMiddleware, defaultId: string): (id: string)
    ensures m.idGenerator.None? ==> id == defaultId
    ensures m.idGenerator.Some? ==> id == Call(m.idGenerator.value, defaultId)
  {
    Call(m.idGenerator.GetOr(DefaultGenerator), defaultId)
  }

  /** `FromContext`: the unchecked `.(string)` assertion panics unless the value
      bound under the typed key is a string, hence the precondition. */
  function FromContext(ctx: Context): (id: string)
    requires Value(ctx, CorrelationId).Str?
    ensures !Unbound(ctx, CorrelationId)
    ensures forall i {:trigger Nearest(ctx, CorrelationId, i)} ::
      Nearest(ctx, CorrelationId, i) ==> ctx[i].val == Str(id)
  {
    Value(ctx, CorrelationId).s
  }

  /** The handler `Handle(next)` returns, applied to one request. */
  function Handle(m: CorrelationIdMiddleware, req: Request, rw: Headers, defaultId: string): (o: Outcome)
    ensures o.Reject? <==> m.enforceHeader && Get(req.header, HeaderName(m)) == ""
    ensures o.Reject? ==>
      && o.status == StatusBadRequest
      && o.message == HeaderName(m) + " header is required."
      && o.respHeader == rw
    ensures Get(req.header, HeaderName(m)) != "" ==>
      o.Proceed? && o.id == Get(req.header, HeaderName(m))
    ensures o.Proceed? && Get(req.header, HeaderName(m)) == "" ==> o.id == GenerateId(m, defaultId)
    ensures o.Proceed? && m.includeInResponse ==>
      Get(o.respHeader, HeaderName(m)) == o.id && o.respHeader == Set(rw, HeaderName(m), o.id)
    ensures o.Proceed? && !m.includeInResponse ==> o.respHeader == rw
    // The wrapped handler may call `FromContext` safely, and reads the id back.
    ensures o.Proceed? ==>
      && Value(o.forwarded.ctx, CorrelationId).Str?
      && FromContext(o.forwarded.ctx) == o.id
      && o.forwarded.header == req.header
      && |o.forwarded.ctx| == |req.ctx| + 1
      && o.forwarded.ctx[..|req.ctx|] == req.ctx
    ensures o.Proceed? ==>
      forall k {:trigger Value(o.forwarded.ctx, k)} :: k != CorrelationId ==>
        Value(o.forwarded.ctx, k) == Value(req.ctx, k)
  {
    var name := HeaderName(m);
    var supplied := Get(req.header, name);
    if supplied == "" && m.enforceHeader then
      Reject(StatusBadRequest, name + " header is required.", rw)
    else
      var id := if supplied == "" then GenerateId(m, defaultId) else supplied;
      var respHeader := if m.includeInResponse then Set(rw, name, id) else rw;
      Proceed(id, respHeader, Request(req.header, WithValue(req.ctx, CorrelationId, Str(id))))
  }

  /** A binding under the plain string "CorrelationId" is invisible to this
      package: `FromContext` is no more defined after it than before. */
  lemma PlainStringKeyInvisible(ctx: Context, v: Any)
    ensures Value(WithValue(ctx, StringKey("CorrelationId"), v), CorrelationId) == Value(ctx, CorrelationId)
  {
  }

  /** On a context that never passed through the middleware `FromContext` is not
      defined: the background context has no binding to assert on. */
  lemma FromContextUndefinedOnBackground()
    ensures !Value(Background, CorrelationId).Str?
  {
  }
}
