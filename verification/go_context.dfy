/**
 A model of Go's `context.Context` as far as the correlation-id middleware uses it:
 a chain of key/value bindings derived from `context.Background()` by
 `context.WithValue`, and the lookup `ctx.Value(key)`, which walks from the most
 recent binding towards the root and yields nil when no binding matches.
 */
module GoContext {

  /** Context keys are Go interface values: two keys are equal only when both their
      dynamic type and their value agree. An untyped string constant used as a key
      becomes a `string`; a constant of a named string type keeps that type. */
  datatype Key =
    | StringKey(s: string)               // a key of Go type `string`
    | CorrelationIdTypeKey(name: string) // a key of the named type `CorrelationIdType`
    | ForeignKey(tag: nat)               // a key of any other type, owned by another package

  /** Bound values are Go `any` values: nil, a string, or something else. */
  datatype Any = Nil | Str(s: string) | Foreign(tag: nat)

  datatype Binding = Binding(key: Key, val: Any)

  /** The bindings of a context, oldest first: the last element is the most recent
      `WithValue`. */
  type Context = seq<Binding>

  /** `context.Background()`: no bindings at all. */
  const Background: Context := []

  /** Binding `i` is the most recent binding of `k` in `ctx`. */
  ghost predicate Nearest(ctx: Context, k: Key, i: int)
  {
    && 0 <= i < |ctx|
    && ctx[i].key == k
    && forall j :: i < j < |ctx| ==> ctx[j].key != k
  }

  /** No binding of `ctx` uses key `k`. */
  ghost predicate Unbound(ctx: Context, k: Key)
  {
    forall i :: 0 <= i < |ctx| ==> ctx[i].key != k
  }

  /** `ctx.Value(k)`: the value of the most recent binding of `k`, or nil. */
  function Value(ctx: Context, k: Key): (r: Any)
    ensures forall i {:trigger Nearest(ctx, k, i)} :: Nearest(ctx, k, i) ==> r == ctx[i].val
    ensures Unbound(ctx, k) ==> r == Nil
    decreases |ctx|
  {
    if |ctx| == 0 then Nil
    else if ctx[|ctx| - 1].key == k then ctx[|ctx| - 1].val
    else
      var parent := ctx[..|ctx| - 1];
      assert forall i {:trigger Nearest(ctx, k, i)} :: Nearest(ctx, k, i) ==> Nearest(parent, k, i);
      Value(parent, k)
  }

  /** `context.WithValue(ctx, k, v)`: a new context whose lookup of `k` yields `v` and
      whose lookup of every other key is the parent's; the parent's bindings are kept
      as they were. */
  function WithValue(ctx: Context, k: Key, v: Any): (r: Context)
    ensures Value(r, k) == v
    ensures forall k' {:trigger Value(r, k')} :: k' != k ==> Value(r, k') == Value(ctx, k')
    ensures |r| == |ctx| + 1 && r[..|ctx|] == ctx
  {
    var r := ctx + [Binding(k, v)];
    assert Nearest(r, k, |ctx|);
    assert r[..|ctx|] == ctx;
    r
  }

  /** Bindings added after `ctx` that use other keys do not change what `ctx` yields
      for `k`: a downstream handler that derives its own context still sees the
      values bound upstream. */
  lemma {:induction false} ValueThroughUnrelatedBindings(ctx: Context, ext: Context, k: Key)
    requires Unbound(ext, k)
    ensures Value(ctx + ext, k) == Value(ctx, k)
    decreases |ext|
  {
    if |ext| > 0 {
      var all := ctx + ext;
      var shorter := ext[..|ext| - 1];
      assert all[..|all| - 1] == ctx + shorter;
      assert all[|all| - 1] == ext[|ext| - 1];
      ValueThroughUnrelatedBindings(ctx, shorter, k);
    } else {
      assert ctx + ext == ctx;
    }
  }

  /** Every value `Value` reports was bound: a non-nil result is the value of the
      most recent binding of `k`, whose position is returned. */
  lemma {:induction false} ValueComesFromNearestBinding(ctx: Context, k: Key) returns (i: nat)
    requires Value(ctx, k) != Nil
    ensures Nearest(ctx, k, i) && ctx[i].val == Value(ctx, k)
    decreases |ctx|
  {
    var n := |ctx| - 1;
    if ctx[n].key == k {
      i := n;
    } else {
      var parent := ctx[..n];
      assert Value(ctx, k) == Value(parent, k);
      i := ValueComesFromNearestBinding(parent, k);
      assert ctx[i] == parent[i];
      forall j | i < j < |ctx|
        ensures ctx[j].key != k
      {
        if j < n {
          assert ctx[j] == parent[j];
        }
      }
    }
  }
}
