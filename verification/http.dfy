/**
 The slice of Go's `net/http` the middleware touches: a header map with its
 `Get` and `Set`, the inbound request (headers plus context), the status code
 it can answer with, and the outcome of handling one request.

 Header names are taken to be in canonical form already; `net/http`
 canonicalises every name before it reaches the map.
 */
module Http {
  import opened GoContext

  /** `http.Header`: canonical name to the list of values sent under it. */
  type Headers = map<string, seq<string>>

  /** `http.StatusBadRequest`. */
  const StatusBadRequest: int := 400

  /** `Header.Get`: the first value sent under `name`, or "" when there is none. */
  function Get(h: Headers, name: string): (v: string)
    ensures v != "" ==> name in h && |h[name]| > 0 && h[name][0] == v
    ensures name !in h || h[name] == [] ==> v == ""
    ensures name in h && |h[name]| > 0 ==> v == h[name][0]
  {
    if name in h && |h[name]| > 0 then h[name][0] else ""
  }

  /** `Header.Set`: `name` now carries exactly the one value `v`; every other
      name keeps what it had. */
  function Set(h: Headers, name: string, v: string): (r: Headers)
    ensures name in r && r[name] == [v]
    ensures Get(r, name) == v
    ensures r.Keys == h.Keys + {name}
    ensures forall n :: n in h && n != name ==> r[n] == h[n]
  {
    h[name := [v]]
  }

  /** An inbound `*http.Request` as the middleware sees it. */
  datatype Request = Request(header: Headers, ctx: Context)

  /** What handling one request amounts to.
      `Reject`: the middleware answered with an error itself (`http.Error`) and the
      wrapped handler was never invoked; `respHeader` is the response header map.
      `Proceed`: the wrapped handler was invoked exactly once, with `forwarded` as
      its request and a response writer whose header map is `respHeader` at the
      moment of the call; `id` is the effective correlation id. */
  datatype Outcome =
    | Reject(status: int, message: string, respHeader: Headers)
    | Proceed(id: string, respHeader: Headers, forwarded: Request)
}
