# Correlation-id middleware, modelled in Dafny

The Go package `correlationid` is an HTTP middleware. For each request it decides on a correlation id. If the client sent one in a configurable header (default `Correlation-Id`), that value is used verbatim. If not, and the header is enforced, the request is rejected with 400 `"<header> header is required."`. Otherwise a generator makes a new id, and a nil generator falls back to the UUID default. The middleware can echo the id in the response header. It binds the id into a derived request context and calls the wrapped handler once. The handler reads the id back with `FromContext`.

The repository holds two versions of this unit, and both are modelled:

- `correlation_id.go` is the published package (module `CorrelationId`). It keys the context with the plain string `"CorrelationId"`. Its `FromContext` returns `""` when nothing is bound.
- `pkg/correlation_id.go` is an earlier draft (module `CorrelationIdDraft`). It keys the context with a constant of the named type `CorrelationIdType`. Its `FromContext` asserts the value to a string without a check, so a missing binding panics. The model turns this into a precondition.

Everything is a pure function over immutable values. The other modules are:

- `GoContext`: Go's `context.Context`, as a sequence of bindings with the nearest-binding lookup of `ctx.Value`.
- `Http`: the header map with `Get` and `Set`, the request, and the outcome.
- `Generators`: the `IdGenerator` field.
- `Drafts`: the two versions side by side.

A handled request ends in one of two outcomes:

- `Reject(status, message, response headers)`: the wrapped handler is never called.
- `Proceed(id, response headers, forwarded request)`: the wrapped handler is called exactly once, with that request, while the response headers are as given.

The default generator's output is random, so the model takes it as an input, `defaultId`. A caller-supplied generator is represented by the string it returns for the request at hand.

Behaviours worth knowing:

- The published package says reading an absent id returns `""` (correlation_id.go:65). The draft's `FromContext` panics in that case. The model keeps the draft's behaviour as a `requires` instead of making it match the published one.
- The read-back of a bound id holds for every string, `""` included.
- A custom generator that returns `""` makes `""` the effective id, which is then echoed and bound. Nothing rejects it.

## Model

| member | source | states |
|---|---|---|
| GoContext.Value | correlation_id.go:67 | `ctx.Value(k)` is the value of the most recent binding of `k`, and nil when `k` was never bound |
| GoContext.WithValue | correlation_id.go:76 | the derived context yields `v` for `k` and the parent's value for every other key; the parent's bindings are kept unchanged |
| GoContext.ValueThroughUnrelatedBindings | correlation_id.go:67 | bindings added later under other keys do not change what an earlier context yields for `k` |
| GoContext.ValueComesFromNearestBinding | correlation_id.go:67 | a non-nil lookup result is the value of the most recent binding of `k` |
| Http.Get | correlation_id.go:46 | `Header.Get` yields the first value sent under the name, or `""` when there is none |
| Http.Set | correlation_id.go:57 | `Header.Set` leaves exactly one value under the name, which `Get` then returns, and keeps every other name as it was |
| Generators.Call | correlation_id.go:28-29 | the default generator yields the fresh id; a custom one yields its own output |
| CorrelationId.New | correlation_id.go:33-40 | the defaults are header `Correlation-Id`, echo on, enforcement off, and the default generator |
| CorrelationId.HeaderName | correlation_id.go:83-89 | the resolved header name is never empty: `""` maps to `Correlation-Id` and any other name passes through unchanged |
| CorrelationId.GenerateId | correlation_id.go:91-97 | a nil generator yields what the default generator yields; otherwise the configured generator is called |
| CorrelationId.RequiredMessage | correlation_id.go:49 | the rejection message is the header name followed by `" header is required."` |
| CorrelationId.WithCorrelationId | correlation_id.go:74-77 | `FromContext` of the derived context returns the id, every other key is unaffected, and the parent context is preserved |
| CorrelationId.FromContext | correlation_id.go:65-72 | returns the string most recently bound under `"CorrelationId"`; returns `""` when that key is unbound or its most recent value is not a string, and never fails |
| CorrelationId.Handle | correlation_id.go:43-63 | rejects with 400 and the message exactly when the header is empty or missing and enforcement is on, writing no correlation header; otherwise uses a non-empty header value verbatim, else the generator; echoes the id exactly when configured; forwards a context whose `FromContext` is the id and whose other keys are unchanged |
| CorrelationId.EchoMatchesContext | correlation_id.go:56-61 | with echo on, the response header value equals the id the wrapped handler reads from its context |
| CorrelationId.EmptyHeaderNameIsDefault | correlation_id.go:83-89 | a middleware configured with `""` behaves identically to one configured with `Correlation-Id` |
| CorrelationId.NilGeneratorIsDefault | correlation_id.go:91-97 | a middleware with a nil generator behaves identically to one with the default generator |
| CorrelationId.EnforcementIrrelevantWhenSupplied | correlation_id.go:46-54 | when the client supplies a non-empty id, enforcement on and off give identical outcomes |
| CorrelationId.GeneratorUnusedWhenSupplied | correlation_id.go:46-54 | when the client supplies a non-empty id, the outcome does not depend on the configured generator or on the default generator's output |
| CorrelationId.LaterIdShadowsEarlier | correlation_id.go:66-77 | binding a second id hides the first |
| CorrelationId.FromContextThroughUnrelatedBindings | correlation_id.go:66-72 | bindings a handler adds under other keys do not change the id it reads |
| CorrelationId.ForeignStringKeyCollides | correlation_id_test.go:258-265 | any binding under the plain string `"CorrelationId"` is read back as the correlation id |
| CorrelationId.DefaultFlowGeneratesId | correlation_id_test.go:14-45 | default configuration with no header: the default generator's id is used, echoed and passed on |
| CorrelationId.SuppliedIdScenario | correlation_id_test.go:228-256 | default configuration with header `custom_id`: that id is used, echoed and passed on |
| CorrelationId.EnforcedMissingHeaderScenario | correlation_id_test.go:172-195 | enforcement on and no header: status 400, message `Correlation-Id header is required.`, no correlation header in the response |
| CorrelationIdDraft.New | pkg/correlation_id.go:25-32 | the defaults are header `Correlation-Id`, echo on, enforcement off, and the UUID generator |
| CorrelationIdDraft.HeaderName | pkg/correlation_id.go:61-67 | `""` maps to `Correlation-Id`, any other name passes through unchanged, and the result is never empty |
| CorrelationIdDraft.GenerateId | pkg/correlation_id.go:69-75 | a nil generator yields what the UUID generator yields; otherwise the configured generator is called |
| CorrelationIdDraft.FromContext | pkg/correlation_id.go:56-59 | defined only when a string is bound under the typed key, and then it is the most recent such binding |
| CorrelationIdDraft.Handle | pkg/correlation_id.go:34-54 | makes the same decisions as the published package, and the forwarded context satisfies `FromContext`'s precondition, which then returns the id |
| CorrelationIdDraft.PlainStringKeyInvisible | pkg/correlation_id.go:11-16 | a binding under the plain string `"CorrelationId"` leaves the typed key's lookup unchanged |
| CorrelationIdDraft.FromContextUndefinedOnBackground | pkg/correlation_id.go:56-59 | the precondition fails on a context that never passed through the middleware |
| Drafts.NewAgrees | pkg/correlation_id.go:25-32 | both constructors produce the same settings |
| Drafts.HandleAgrees | pkg/correlation_id.go:34-54 | with the same settings, both versions make the same decision, pick the same id and write the same response headers; each reader returns that id |
| Drafts.KeysDoNotCollide | pkg/correlation_id.go:11-16 | a binding made by either version is invisible to the other version's reader |

## Left out

- Http.Get: does not canonicalise the header name (`textproto.CanonicalMIMEHeaderKey`). Names are assumed to be canonical already, so the name is the map key verbatim. Http.Set, CorrelationId.Handle and CorrelationIdDraft.Handle inherit this.
- CorrelationId.Handle, CorrelationIdDraft.Handle: a rejection's response headers are modelled as unchanged. The headers `http.Error` writes itself (`Content-Type`, `X-Content-Type-Options`, `Content-Length` removal) and its trailing newline are not modelled; the model promises only that no correlation header is written, plus the status and the message.
- UUID generation (`uuid.NewString`) is not modelled because it is random and comes from a foreign library. Its output is the input `defaultId`.
- A caller-supplied generator is modelled as the string it returns for the current request. Generators that panic are not modelled.
- Response streaming, the wrapped handler's own behaviour, and anything after it returns are not modelled. The middleware does no work at that point.
- Context kinds other than `WithValue` chains over `Background` (cancellation, deadlines) are not modelled because the middleware does not use them.
- Concurrency between requests is not modelled. The middleware holds no mutable shared state.
- `examples/main.go` is not modelled: it is router and server wiring with no logic.
