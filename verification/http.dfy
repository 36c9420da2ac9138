/** The HTTP values the worker handles: parsed requests, responses, and the origin it fetches from. */
module Http {
  import opened Wrappers
  import opened Hex

  type Bytes = seq<byte>

  /** A request after URL parsing: its pathname and its query parameters in order. */
  datatype Request = Request(path: string, query: seq<(string, string)>)

  /** A response: status, headers by name, and a body that may be null. Header names are written in
      the one spelling the worker uses for them. */
  datatype Response = Response(status: int, headers: map<string, string>, body: Option<Bytes>)

  /** `response.ok`: a status in the range 200-299, the 2xx class. */
  predicate Ok(status: int)
    ensures Ok(status) <==> status / 100 == 2
  {
    200 <= status <= 299
  }

  /** What the worker asks the origin for. The URLs themselves (`NOW_ORIGIN + pathname`,
      `apiOrigin + "?entrypoint=" + encodeURIComponent(entrypoint)`) are folded into these cases. */
  datatype Target =
    | Forward(request: Request)   // pass-through: `fetch(event.request)`
    | RenderPage(path: string)    // the page renderer, at the origin under the same pathname
    | DocsApi(entrypoint: string) // the documentation API for one entrypoint

  /** The origin: a fixed response per target, and a log of every fetch made. */
  class Origin {
    const respond: Target -> Response
    var log: seq<Target>

    constructor (respond: Target -> Response)
      ensures this.respond == respond && log == []
    {
      this.respond := respond;
      log := [];
    }

    /** `await fetch(url)`. */
    method Fetch(t: Target) returns (r: Response)
      modifies this
      ensures r == respond(t)
      ensures log == old(log) + [t]
    {
      r := respond(t);
      log := log + [t];
    }
  }

  /** `url.searchParams.get(name)`: the value of the first parameter with that name, or null. */
  function SearchParam(query: seq<(string, string)>, name: string): (r: Option<string>)
    ensures r.None? <==> forall i | 0 <= i < |query| :: query[i].0 != name
    ensures r.Some? ==> exists i | 0 <= i < |query| ::
      query[i] == (name, r.value) && forall j | 0 <= j < i :: query[j].0 != name
  {
    if query == [] then None
    else if query[0].0 == name then Some(query[0].1)
    else
      var r := SearchParam(query[1..], name);
      assert r.Some? ==> exists i | 0 <= i < |query[1..]| ::
        query[1..][i] == (name, r.value) && forall j | 0 <= j < i :: query[1..][j].0 != name;
      assert r.Some? ==> exists i | 0 <= i < |query| ::
        query[i] == (name, r.value) && forall j | 0 <= j < i :: query[j].0 != name by {
        if r.Some? {
          var i :| 0 <= i < |query[1..]| &&
            query[1..][i] == (name, r.value) && forall j | 0 <= j < i :: query[1..][j].0 != name;
          assert query[i + 1] == (name, r.value);
          assert forall j | 0 <= j < i + 1 :: query[j].0 != name by {
            forall j | 0 <= j < i + 1 ensures query[j].0 != name {
              if j > 0 { assert query[j] == query[1..][j - 1]; }
            }
          }
        }
      }
      r
  }

  /** The `Cache-Control` value `max-age=${maxAge}` with `maxAge = 1` second. */
  const CacheControl := "max-age=1"

  /** The headers of a response the worker builds itself. */
  function WorkerHeaders(contentType: string, cacheStatus: Option<string>): (h: map<string, string>)
    ensures h.Keys == {"Content-Type", "Cache-Control"} + if cacheStatus.Some? then {"X-Deno-Cache"} else {}
    ensures h["Content-Type"] == contentType && h["Cache-Control"] == CacheControl
    ensures cacheStatus.Some? ==> h["X-Deno-Cache"] == cacheStatus.value
  {
    var h := map["Content-Type" := contentType, "Cache-Control" := CacheControl];
    if cacheStatus.Some? then h["X-Deno-Cache" := cacheStatus.value] else h
  }

  /** `new Response(response.body, response)` followed by `headers.set("Cache-Control", ...)`: the
      origin's response with only its cache-control header replaced. */
  function Forwarded(o: Response): (r: Response)
    ensures r.status == o.status && r.body == o.body
    ensures r.headers.Keys == o.headers.Keys + {"Cache-Control"}
    ensures r.headers["Cache-Control"] == CacheControl
    ensures forall k | k in o.headers && k != "Cache-Control" :: r.headers[k] == o.headers[k]
  {
    Response(o.status, o.headers["Cache-Control" := CacheControl], o.body)
  }

  /** A response served from the store: status 200 and `X-Deno-Cache: HIT`. */
  predicate IsHit(r: Response) {
    r.status == 200 && "X-Deno-Cache" in r.headers && r.headers["X-Deno-Cache"] == "HIT"
  }

  /** A response freshly fetched from the origin: status 200 and `X-Deno-Cache: MISS`. */
  predicate IsMiss(r: Response) {
    r.status == 200 && "X-Deno-Cache" in r.headers && r.headers["X-Deno-Cache"] == "MISS"
  }

  /** The bytes of an ASCII string literal (a response text the worker writes). */
  function Ascii(s: string): (r: Bytes)
    ensures |r| == |s|
    ensures forall i | 0 <= i < |s| && s[i] < 128 as char :: r[i] == s[i] as int
  {
    seq(|s|, i requires 0 <= i < |s| => (s[i] as int) % 256)
  }
}
