# Edge cache for generated documentation

A Dafny model of the Cloudflare worker in `worker/src/handler.ts` that sits in front of the
documentation service. It routes each request to a rendered-page handler, a documentation-data
handler, or straight through to the origin. It keys the key-value store `DOCS_CACHE` by the hex
SHA-256 digest of the entrypoint URL plus a namespace suffix (`_html` or `_api_docs`). It serves
hits from the store, and on a miss fetches from the origin and fills the store in the background.
A rendered page is only cached when it embeds the timestamp of the documentation data cached for
the same entrypoint. Fresh documentation data invalidates the cached page.

Files, one module each:

- `wrappers.dfy` (`Wrappers`): the `Option` type.
- `hex.dfy` (`Hex`): the byte-to-hex step of `sha256`, its decoder, round trip and injectivity.
- `keys.dfy` (`Keys`): the key of an entrypoint; page and data keys never collide.
- `http.dfy` (`Http`): requests, responses, `searchParams.get`, the headers the worker writes,
  the forwarding of origin responses, and the origin as a class that logs every fetch.
- `routing.dfy` (`Routing`): `handleRequest`'s path tests, the page-path rewrite, the `Quality` tiers.
- `cache.dfy` (`Cache`): the store as a class over a map, `includes`, the consistency guard, the
  background task as a function on the store and on how each of its store operations settles,
  and the invariant "every cached page embeds the timestamp of the cached data of its entrypoint".
  Every background task preserves it, except when the page removal of a data write rejects while the
  data write itself succeeds; `Promise.allSettled` tolerates that outcome, and it breaks the invariant.
- `handler.dfy` (`Handler`): `handleFrontend`, `handleAPI` and `handleRequest` as methods; the
  `waitUntil` work as `RunTask`; one whole fetch event as `HandleEvent`; and two request-twice
  scenarios. `FrontendSpec`, `ApiSpec` and `RequestSpec` state what each handler answers, registers
  and fetches, branch by branch.

The handlers only read the store. Each returns its response together with the background task it
registers, and `RunTask` performs that task afterwards as one atomic step. The SHA-256 digest (with
the UTF-8 encoding before it) and the JSON reading of a stored entry's `timestamp` are supplied in
`Handler.Config`. The origin is an object with a fixed response per target and a log of the fetches
made, so "no origin call" reads as "the log is unchanged".

## Model

| member | source | states |
|---|---|---|
| `Hex.ToHexString` | worker/src/handler.ts:164 | `b.toString(16)`: lowercase hex digits whose value is the number, with no leading zero, a single digit exactly below 16 |
| `Hex.SliceLast` | worker/src/handler.ts:164 | `slice(-k)` for k > 0: the last k characters, or the whole string if shorter |
| `Hex.ByteHex` | worker/src/handler.ts:164 | `("00" + b.toString(16)).slice(-2)` is exactly two lowercase digits, high nibble then low nibble, with a leading zero below 16 |
| `Hex.HexEncode` | worker/src/handler.ts:162-165 | the joined encoding has length 2n for n bytes and contains only lowercase hex digits |
| `Hex.HexDecode` | worker/src/handler.ts:162-165 | inverse of the encoding; a decoded result is half the length of its text |
| `Hex.HexEncodeAt` | worker/src/handler.ts:162-165 | byte i is rendered at positions 2i and 2i+1 |
| `Hex.HexRoundTrip` | worker/src/handler.ts:162-165 | decoding the encoding of any byte sequence gives it back |
| `Hex.HexEncodeInjective` | worker/src/handler.ts:162-165 | equal encodings come from equal byte sequences |
| `Keys.HashHex` | worker/src/handler.ts:159-167 | `sha256(entrypoint)` is 64 lowercase hex digits |
| `Keys.PageKey` | worker/src/handler.ts:30 | the page key is the hash followed by `_html` |
| `Keys.DataKey` | worker/src/handler.ts:99 | the data key is the hash followed by `_api_docs` |
| `Keys.PageKeyNotDataKey` | worker/src/handler.ts:130-135 | a `_html` key never equals an `_api_docs` key, for any two hashes |
| `Keys.KeySuffixCancels` | worker/src/handler.ts:29-30 | within one namespace, equal keys come from equal hashes |
| `Keys.KeysSeparateEntrypoints` | worker/src/handler.ts:98-99 | entrypoints with different digests get different page keys and different data keys |
| `Http.Ok` | worker/src/handler.ts:44 | `response.ok` holds exactly for a status in the 2xx class |
| `Http.Origin.Fetch` | worker/src/handler.ts:123 | returns the origin's response to the target and appends the target to the fetch log |
| `Http.SearchParam` | worker/src/handler.ts:87 | `searchParams.get`: null iff no parameter has the name, else the value of the first one that does |
| `Http.WorkerHeaders` | worker/src/handler.ts:35-39 | exactly `Content-Type`, `Cache-Control: max-age=1`, and `X-Deno-Cache` iff a cache status is given |
| `Http.Forwarded` | worker/src/handler.ts:44-47 | the origin's status, body and headers, with only `Cache-Control` set to `max-age=1` |
| `Routing.Classify` | worker/src/handler.ts:16-24 | page route iff the path starts with `/https/`; data route iff it is exactly `/api/docs`; pass-through otherwise |
| `Routing.RewriteEntrypoint` | worker/src/handler.ts:28 | a `/https/x` path becomes an `https://` entrypoint whose page path is the original path; other paths are unchanged |
| `Routing.RewriteRoundTrip` | worker/src/handler.ts:28 | the page path of an https entrypoint routes to the page handler and rewrites back to that entrypoint |
| `Routing.ParseQuality` | worker/src/handler.ts:100-114 | `Fresh` iff the parameter is `fresh`, `Cache` iff it is `cache`, `Any` iff it is absent, empty or anything else |
| `Cache.Find` | worker/src/handler.ts:31 | the stored bytes under a key, present iff the key is stored |
| `Cache.KVStore.Get` | worker/src/handler.ts:103 | returns the stored bytes or null, and changes nothing |
| `Cache.KVStore.Put` | worker/src/handler.ts:60-62 | the store afterwards maps the key to the value and TTL, and nothing else changes |
| `Cache.KVStore.Delete` | worker/src/handler.ts:134 | the store afterwards lacks the key, and nothing else changes |
| `Cache.Contains` | worker/src/handler.ts:59 | `html.includes(ts)` holds iff `ts` occurs at some offset of `html` |
| `Cache.GuardPasses` | worker/src/handler.ts:59 | holds iff data is cached, its timestamp is present and non-empty, and the page contains it at some offset; never without data |
| `Cache.ApplyTask` | worker/src/handler.ts:52-65 | keys outside the task's own are untouched; a page is written with TTL 86400 iff its read and write succeed and the guard passes, otherwise the store is unchanged; a data write removes the page key iff the delete succeeds and stores the body with TTL 86400 iff the put succeeds, each rejected operation leaving its key as it was |
| `Cache.CacheDocsOrderIrrelevant` | worker/src/handler.ts:133-138 | the concurrent delete of the page and put of the data give the same store in either order |
| `Cache.ApplyTaskPreservesConsistency` | worker/src/handler.ts:54-63 | every background task keeps "every cached page embeds the non-empty timestamp of the cached data of its entrypoint", whatever settles, except a rejected page removal beside a successful data write |
| `Cache.FailedDeleteBreaksConsistency` | worker/src/handler.ts:133-138 | that exception is real: a consistent store whose page removal rejects while newer data is written is left inconsistent |
| `Handler.Served` | worker/src/handler.ts:105-112 | a 200 with the given body, a HIT or a MISS |
| `Handler.RequestedEntrypoint` | worker/src/handler.ts:87-88 | no entrypoint iff the parameter is absent or empty |
| `Handler.HandleFrontend` | worker/src/handler.ts:26-83 | `FrontendSpec`: hit: 200 HIT with the stored bytes, no fetch, no task; miss: exactly one fetch, then the forwarded error, or 200 MISS with the guarded page write registered, or the 500 text; `Cache-Control: max-age=1` always |
| `Handler.HandleApi` | worker/src/handler.ts:85-157 | `ApiSpec`: 400 with no fetch and no task when the entrypoint is missing; unless fresh, a hit is 200 HIT with no fetch; cache-only with no entry is 204, no fetch; otherwise one fetch and the forwarded error, 200 MISS with the data write registered, or the 500 JSON; fresh never gives a HIT; only the 204 lacks `Cache-Control` |
| `Handler.HandleRequest` | worker/src/handler.ts:16-24 | `RequestSpec`: under `/https/` the whole of `FrontendSpec`, at exactly `/api/docs` the whole of `ApiSpec`, otherwise the origin's response to the request itself, untouched, after one fetch and with no task; a task only comes with a MISS |
| `Handler.RunTask` | worker/src/handler.ts:132-138 | the store afterwards is `ApplyTask` of the store before, given how each store operation settled |
| `Handler.HandleEvent` | worker/src/index.ts:5-7 | the response, task and fetches are `RequestSpec` on the store as it was; the store afterwards is `ApplyTask` of it; it changes only after a MISS and only under the request's own keys; a consistent store stays consistent unless a page removal rejects beside a successful data write |
| `Handler.RepeatDocsRequest` | worker/src/handler.ts:98-147 | after a data MISS whose data write succeeds, a default-quality repeat is a HIT with the same bytes and no second fetch |
| `Handler.RepeatPageRequest` | worker/src/handler.ts:29-73 | after a page MISS, a repeat is a HIT exactly when the background read and write succeed and the guard admitted the page |

## Left out

- The SHA-256 digest and the UTF-8 encoding of the entrypoint are a caller-supplied function in `Handler.Config`. It returns 32 bytes and is deterministic, and nothing else is assumed of it.
- JSON parsing of stored data (`DOCS_CACHE.get(key, "json")`) is a caller-supplied reader of the `timestamp` field. A non-string timestamp coerced by `includes` is not modelled.
- The page body is compared and stored as bytes. The UTF-8 decode of `Response.text()` and the re-encode on `put` are taken as the identity, so invalid UTF-8 in a page is not modelled.
- URLs are not built. `NOW_ORIGIN + pathname`, `apiOrigin + "?entrypoint=" + encodeURIComponent(...)` and URL parsing with percent-decoding become the `Http.Target` cases and the parsed `Http.Request`.
- `Cache.ApplyTaskPreservesConsistency`: does not promise consistency after a data write whose page removal rejects while its put succeeds, because `Promise.allSettled` lets that happen and it leaves a stale page (`Cache.FailedDeleteBreaksConsistency`).
- A rejected `DOCS_CACHE.get` inside a handler (lines 31 and 103) rejects the handler's own promise; the handlers' store reads always succeed in the model. Rejected operations are modelled only in the background step (`Cache.Settled`).
- `fetch` never rejects in the model. A network failure, which would reject the handler's promise, is not modelled.
- Streams and `tee` are not modelled. The client and the background task both see the whole body.
- Concurrency is not modelled. `event.waitUntil` and `Promise.allSettled` are one atomic step after the response, so races between requests, and the interleaving of the guard's read with other writes, are out of scope.
- TTL expiry is not modelled. The TTL is only recorded on each entry, so expiry of the data entry before its page (which would break `Cache.Consistent`) is out of scope.
- Header names are matched in the spelling the worker writes them. The case-insensitivity of `Headers` is not modelled.
- The configuration globals `NOW_ORIGIN`, `API_ORIGIN` and `DOCS_CACHE` (worker/src/types.d.ts:6-7) are the injected `Origin` and `KVStore` objects. The source uses `NOW_ORIGIN` while the type declarations name `API_ORIGIN`; the model needs neither name.
- `worker/src/index.ts` only registers the listener. `Handler.HandleEvent` stands for one `respondWith` plus its `waitUntil`.
- The frontend (`util/data.ts`, the React components, the Tailwind plugin) is not part of this model.
