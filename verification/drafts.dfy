/**
 The two versions of the middleware side by side: configured alike, they take
 the same decision on every request and differ only in the key the id is bound
 under, so each version's reader sees its own id and not the other's.
 */
module Drafts {
  import opened GoContext
  import opened Http
  import Root = CorrelationId
  import Draft = CorrelationIdDraft

  /** The two configurations hold the same settings. */
  predicate SameSettings(m: Root.Middleware, d: Draft.CorrelationIdMiddleware)
  {
    && m.headerName == d.headerName
    && m.includeInResponse == d.includeInResponse
    && m.enforceHeader == d.enforceHeader
    && m.idGenerator == d.idGenerator
  }

  /** Both constructors produce the same settings. */
  lemma NewAgrees()
    ensures SameSettings(Root.New(), Draft.New())
  {
  }

  /** Same settings, same request: same decision, same id, same response header,
      and the id is read back by either version's own reader. */
  lemma HandleAgrees(m: Root.Middleware, d: Draft.CorrelationIdMiddleware,
                     req: Request, rw: Headers, defaultId: string)
    requires SameSettings(m, d)
    ensures var o := Root.Handle(m, req, rw, defaultId);
            var p := Draft.Handle(d, req, rw, defaultId);
      && o.Reject? == p.Reject?
      && (o.Reject? ==> o == p)
      && (o.Proceed? ==>
            && o.id == p.id
            && o.respHeader == p.respHeader
            && o.forwarded.header == p.forwarded.header
            && Root.FromContext(o.forwarded.ctx) == Draft.FromContext(p.forwarded.ctx))
  {
    assert Root.HeaderName(m) == Draft.HeaderName(d);
  }

  /** The published version's binding never satisfies the draft's reader and the
      draft's binding never changes what the published reader returns. */
  lemma KeysDoNotCollide(ctx: Context, id: string)
    ensures Value(Root.WithCorrelationId(ctx, id), Draft.CorrelationId) == Value(ctx, Draft.CorrelationId)
    ensures Root.FromContext(WithValue(ctx, Draft.CorrelationId, Str(id))) == Root.FromContext(ctx)
  {
    var r := WithValue(ctx, Draft.CorrelationId, Str(id));
    assert Value(r, Root.ContextKey) == Value(ctx, Root.ContextKey);
  }
}
