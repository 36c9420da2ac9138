/** The request handlers of worker/src/handler.ts. Each handler reads the store, may fetch from
    the origin once, and returns the response together with the background task it registers with
    `event.waitUntil`; `RunTask` is that task, run as one step after the response. */
module Handler {
  import opened Wrappers
  import opened Hex
  import opened Keys
  import opened Http
  import opened Routing
  import opened Cache

  /** What the worker takes from its environment besides the store and the origin. */
  datatype Config = Config(digest: Hasher, timestampOf: TimestampReader)

  const PageFailureText := "Failed to get rendered page."
  const NoEntrypointJson := "{\"error\": \"No entrypoint URL specified.\"}"
  const ApiFailureJson := "{\"error\": \"API request failed.\"}"

  /** 400 for a data request without an entrypoint. */
  const BadRequest := Response(400, WorkerHeaders("application/json", None), Some(Ascii(NoEntrypointJson)))
  /** 204 for a cache-only data request that finds nothing cached: no headers, null body. */
  const NoContent := Response(204, map[], None)
  /** 500 when the page renderer answers ok without a body. */
  const PageFailure := Response(500, WorkerHeaders("text/html", None), Some(Ascii(PageFailureText)))
  /** 500 when the documentation API answers ok without a body. */
  const ApiFailure := Response(500, WorkerHeaders("application/json", None), Some(Ascii(ApiFailureJson)))

  /** A 200 the worker builds around a body, marked HIT or MISS. */
  function Served(contentType: string, cacheStatus: string, body: Bytes): (r: Response)
    ensures r.status == 200 && r.body == Some(body)
    ensures cacheStatus == "HIT" ==> IsHit(r) && !IsMiss(r)
    ensures cacheStatus == "MISS" ==> IsMiss(r) && !IsHit(r)
  {
    Response(200, WorkerHeaders(contentType, Some(cacheStatus)), Some(body))
  }

  /** The entrypoint of a data request, `url.searchParams.get("entrypoint")`, when it is truthy. */
  function RequestedEntrypoint(query: seq<(string, string)>): (e: Option<string>)
    ensures e.None? <==> SearchParam(query, "entrypoint") in {None, Some("")}
    ensures e.Some? ==> e == SearchParam(query, "entrypoint")
  {
    match SearchParam(query, "entrypoint")
    case Some(v) => if v == "" then None else Some(v)
    case None => None
  }

  /** The hash of the entrypoint named by a page path. */
  function PageHash(cfg: Config, path: string): string {
    HashHex(cfg.digest, RewriteEntrypoint(path))
  }

  /** What `handleFrontend` does for a page path, given the store and the origin's answers: the
      response, the task it registers, and the fetch log before (log0) and after (log1). */
  ghost predicate FrontendSpec(entries: map<string, Entry>, respond: Target -> Response, cfg: Config,
                               path: string, resp: Response, task: Task, log0: seq<Target>, log1: seq<Target>)
  {
    var hash := PageHash(cfg, path);
    if PageKey(hash) in entries then
      resp == Served("text/html", "HIT", entries[PageKey(hash)].value) && task == NoTask && log1 == log0
    else
      var o := respond(RenderPage(path));
      && log1 == log0 + [RenderPage(path)]
      && if !Ok(o.status) then resp == Forwarded(o) && task == NoTask
         else if o.body.Some? then
           resp == Served("text/html", "MISS", o.body.value) && task == CachePage(hash, o.body.value)
         else resp == PageFailure && task == NoTask
  }

  /** What `handleAPI` does for a query, in the same terms. */
  ghost predicate ApiSpec(entries: map<string, Entry>, respond: Target -> Response, cfg: Config,
                          query: seq<(string, string)>, resp: Response, task: Task,
                          log0: seq<Target>, log1: seq<Target>)
  {
    match RequestedEntrypoint(query)
    case None => resp == BadRequest && task == NoTask && log1 == log0
    case Some(e) =>
      var quality, hash := ParseQuality(SearchParam(query, "quality")), HashHex(cfg.digest, e);
      if quality != Fresh && DataKey(hash) in entries then
        resp == Served("application/json", "HIT", entries[DataKey(hash)].value) && task == NoTask && log1 == log0
      else if quality == Cache then
        resp == NoContent && task == NoTask && log1 == log0
      else
        var o := respond(DocsApi(e));
        && log1 == log0 + [DocsApi(e)]
        && if !Ok(o.status) then resp == Forwarded(o) && task == NoTask
           else if o.body.Some? then
             resp == Served("application/json", "MISS", o.body.value) && task == CacheDocs(hash, o.body.value)
           else resp == ApiFailure && task == NoTask
  }

  /** What `handleRequest` does: the page handler under "/https/", the data handler at exactly
      "/api/docs", and otherwise the origin's own response to the request, untouched. */
  ghost predicate RequestSpec(entries: map<string, Entry>, respond: Target -> Response, cfg: Config,
                              req: Request, resp: Response, task: Task, log0: seq<Target>, log1: seq<Target>)
  {
    match Classify(req.path)
    case Frontend => FrontendSpec(entries, respond, cfg, req.path, resp, task, log0, log1)
    case Api => ApiSpec(entries, respond, cfg, req.query, resp, task, log0, log1)
    case PassThrough => resp == respond(Forward(req)) && task == NoTask && log1 == log0 + [Forward(req)]
  }

  /** `handleFrontend`: serve the cached page, or fetch it from the renderer and register the
      guarded write of the page. */
  method HandleFrontend(store: KVStore, origin: Origin, cfg: Config, path: string)
    returns (resp: Response, task: Task)
    modifies origin
    ensures FrontendSpec(store.entries, origin.respond, cfg, path, resp, task, old(origin.log), origin.log)
    ensures "Cache-Control" in resp.headers && resp.headers["Cache-Control"] == CacheControl
    ensures task.NoTask? || (task.CachePage? && task.hash == PageHash(cfg, path) && IsMiss(resp))
  {
    var entrypoint := RewriteEntrypoint(path);
    var hash := HashHex(cfg.digest, entrypoint);
    var key := PageKey(hash);
    var stream := store.Get(key);
    if stream.Some? {
      return Served("text/html", "HIT", stream.value), NoTask;
    }
    var response := origin.Fetch(RenderPage(path));
    if !Ok(response.status) {
      return Forwarded(response), NoTask;
    }
    if response.body.Some? {
      return Served("text/html", "MISS", response.body.value), CachePage(hash, response.body.value);
    }
    return PageFailure, NoTask;
  }

  /** `handleAPI`: validate the entrypoint, serve from the cache unless fresh data is asked for,
      answer 204 to a cache-only request that finds nothing, otherwise fetch from the documentation
      API and register the write of the data together with the removal of the page. */
  method HandleApi(store: KVStore, origin: Origin, cfg: Config, query: seq<(string, string)>)
    returns (resp: Response, task: Task)
    modifies origin
    ensures ApiSpec(store.entries, origin.respond, cfg, query, resp, task, old(origin.log), origin.log)
    ensures ParseQuality(SearchParam(query, "quality")) == Fresh ==> !IsHit(resp)
    ensures "Cache-Control" !in resp.headers <==> resp.status == 204
    ensures "Cache-Control" in resp.headers ==> resp.headers["Cache-Control"] == CacheControl
    ensures task.NoTask? || (task.CacheDocs? && RequestedEntrypoint(query).Some? &&
      task.hash == HashHex(cfg.digest, RequestedEntrypoint(query).value) && IsMiss(resp))
  {
    var entrypoint := SearchParam(query, "entrypoint");
    if entrypoint.None? || entrypoint.value == "" {
      return BadRequest, NoTask;
    }
    var hash := HashHex(cfg.digest, entrypoint.value);
    var key := DataKey(hash);
    var quality := ParseQuality(SearchParam(query, "quality"));
    if quality != Fresh {
      var stream := store.Get(key);
      if stream.Some? {
        return Served("application/json", "HIT", stream.value), NoTask;
      }
      if quality == Cache {
        return NoContent, NoTask;
      }
    }
    var response := origin.Fetch(DocsApi(entrypoint.value));
    if !Ok(response.status) {
      return Forwarded(response), NoTask;
    }
    if response.body.Some? {
      return Served("application/json", "MISS", response.body.value), CacheDocs(hash, response.body.value);
    }
    return ApiFailure, NoTask;
  }

  /** `handleRequest`: route by path to the page handler, the data handler, or the origin. */
  method HandleRequest(store: KVStore, origin: Origin, cfg: Config, req: Request)
    returns (resp: Response, task: Task)
    modifies origin
    ensures RequestSpec(store.entries, origin.respond, cfg, req, resp, task, old(origin.log), origin.log)
    ensures task.NoTask? || IsMiss(resp)
  {
    match Classify(req.path)
    case Frontend =>
      resp, task := HandleFrontend(store, origin, cfg, req.path);
    case Api =>
      resp, task := HandleApi(store, origin, cfg, req.query);
    case PassThrough =>
      resp := origin.Fetch(Forward(req));
      task := NoTask;
  }

  /** The background step of `event.waitUntil`: the guarded page write, or the page removal and
      data write (issued together by `Promise.allSettled`; their order does not matter, see
      `Cache.CacheDocsOrderIrrelevant`). `settled` says which store operations succeed; a rejected
      one changes nothing, and a rejected read ends the page task before its write. */
  method RunTask(store: KVStore, cfg: Config, task: Task, settled: Settled)
    modifies store
    ensures store.entries == ApplyTask(cfg.timestampOf, old(store.entries), task, settled)
  {
    match task
    case NoTask =>
    case CachePage(hash, html) =>
      if settled.readOk {
        var data := store.Get(DataKey(hash));
        if data.Some? {
          var timestamp := cfg.timestampOf(data.value);
          if timestamp.Some? && |timestamp.value| > 0 && Contains(html, timestamp.value) && settled.putOk {
            store.Put(PageKey(hash), html, DayTtl);
          }
        }
      }
    case CacheDocs(hash, body) =>
      if settled.deleteOk {
        store.Delete(PageKey(hash));
      }
      if settled.putOk {
        store.Put(DataKey(hash), body, DayTtl);
      }
  }

  /** The keys one request may change: the page key of a page request; the page and data keys of
      a data request that names an entrypoint; none otherwise. */
  function RequestKeys(cfg: Config, req: Request): set<string> {
    match Classify(req.path)
    case Frontend => {PageKey(PageHash(cfg, req.path))}
    case Api =>
      if RequestedEntrypoint(req.query).Some? then
        var hash := HashHex(cfg.digest, RequestedEntrypoint(req.query).value);
        {PageKey(hash), DataKey(hash)}
      else {}
    case PassThrough => {}
  }

  /** One fetch event: the response of `handleRequest` on the store as it was, then the background
      step. The store changes only after a MISS and only under the request's own keys, and it
      stays consistent unless a page removal rejects while its data write succeeds. */
  method HandleEvent(store: KVStore, origin: Origin, cfg: Config, req: Request, settled: Settled)
    returns (resp: Response, ghost task: Task)
    modifies store, origin
    ensures RequestSpec(old(store.entries), origin.respond, cfg, req, resp, task, old(origin.log), origin.log)
    ensures store.entries == ApplyTask(cfg.timestampOf, old(store.entries), task, settled)
    ensures store.entries != old(store.entries) ==> IsMiss(resp)
    ensures forall k | k !in RequestKeys(cfg, req) :: (k in store.entries <==> k in old(store.entries))
    ensures forall k | k in old(store.entries) && k !in RequestKeys(cfg, req) ::
      store.entries[k] == old(store.entries)[k]
    ensures Consistent(cfg.timestampOf, old(store.entries)) && !StalePageRisk(task, settled) ==>
      Consistent(cfg.timestampOf, store.entries)
  {
    var t;
    resp, t := HandleRequest(store, origin, cfg, req);
    task := t;
    assert Touched(task) <= RequestKeys(cfg, req);
    ghost var before := store.entries;
    RunTask(store, cfg, t, settled);
    if Consistent(cfg.timestampOf, before) && !StalePageRisk(task, settled) {
      ApplyTaskPreservesConsistency(cfg.timestampOf, before, task, settled);
    }
  }

  /** Two data requests for one entrypoint, each followed by its background step: when the first
      is a MISS and its data write succeeds, the second, with default quality, is a HIT with the
      same bytes and does not reach the origin. */
  method RepeatDocsRequest(store: KVStore, origin: Origin, cfg: Config, entrypoint: string,
                           quality: Option<string>, settled: Settled)
    returns (first: Response, second: Response)
    modifies store, origin
    ensures IsMiss(first) && settled.putOk ==>
      IsHit(second) && second.body == first.body && |origin.log| == |old(origin.log)| + 1
  {
    var query := [("entrypoint", entrypoint)] + if quality.Some? then [("quality", quality.value)] else [];
    assert SearchParam(query, "entrypoint") == Some(entrypoint);
    var task;
    first, task := HandleApi(store, origin, cfg, query);
    RunTask(store, cfg, task, settled);
    second, task := HandleApi(store, origin, cfg, [("entrypoint", entrypoint)]);
    RunTask(store, cfg, task, settled);
  }

  /** Two requests for one rendered page: when the first is a MISS, the second is a HIT exactly
      when the first's background step wrote the page, that is when its read and write succeed and
      the data cached before the first request carries a non-empty timestamp the page contains. */
  method RepeatPageRequest(store: KVStore, origin: Origin, cfg: Config, path: string, settled: Settled)
    returns (first: Response, second: Response)
    modifies store, origin
    ensures IsMiss(first) ==> first.body.Some? && (IsHit(second) <==>
      settled.readOk && settled.putOk &&
      GuardPasses(cfg.timestampOf, Find(old(store.entries), DataKey(PageHash(cfg, path))), first.body.value))
    ensures IsHit(second) ==> second.body == first.body || IsHit(first)
  {
    var task;
    first, task := HandleFrontend(store, origin, cfg, path);
    RunTask(store, cfg, task, settled);
    second, task := HandleFrontend(store, origin, cfg, path);
    RunTask(store, cfg, task, settled);
  }
}
