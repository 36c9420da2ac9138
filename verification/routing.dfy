/** Request classification, the entrypoint rewrite of the page route, and the quality parameter
    (worker/src/handler.ts, `handleRequest`, line 28 of `handleFrontend`, the `Quality` enum). */
module Routing {
  import opened Wrappers

  predicate StartsWith(s: string, prefix: string) {
    prefix <= s
  }

  const PagePrefix := "/https/"
  const ApiPath := "/api/docs"

  datatype Route = Frontend | Api | PassThrough

  /** `handleRequest`: a path under "/https/" is a rendered page, exactly "/api/docs" is a data
      request, anything else passes through. The page test comes first. */
  function Classify(path: string): (r: Route)
    ensures r == Frontend <==> StartsWith(path, PagePrefix)
    ensures r == Api <==> path == ApiPath
    ensures r == PassThrough <==> !StartsWith(path, PagePrefix) && path != ApiPath
  {
    assert !StartsWith(ApiPath, PagePrefix) by { assert ApiPath[1] != PagePrefix[1]; }
    if StartsWith(path, PagePrefix) then Frontend
    else if path == ApiPath then Api
    else PassThrough
  }

  /** The page path under which the site serves an https entrypoint. */
  function PagePath(entrypoint: string): string
    requires StartsWith(entrypoint, "https://")
  {
    PagePrefix + entrypoint[8..]
  }

  /** `url.pathname.replace(/^\/https\//, "https://")`: the entrypoint named by a page path. */
  function RewriteEntrypoint(path: string): (e: string)
    ensures StartsWith(path, PagePrefix) ==> StartsWith(e, "https://") && PagePath(e) == path
    ensures !StartsWith(path, PagePrefix) ==> e == path
  {
    if StartsWith(path, PagePrefix) then
      var e := "https://" + path[7..];
      assert PagePath(e) == path by { assert path == PagePrefix + path[7..]; }
      e
    else path
  }

  /** Rewriting the page path of an https entrypoint gives the entrypoint back. */
  lemma RewriteRoundTrip(entrypoint: string)
    requires StartsWith(entrypoint, "https://")
    ensures Classify(PagePath(entrypoint)) == Frontend
    ensures RewriteEntrypoint(PagePath(entrypoint)) == entrypoint
  {
  }

  /** The quality of data a data request asks for. */
  datatype Quality =
    | Any    // "": serve what is cached, otherwise fetch
    | Cache  // "cache": serve only from the cache, 204 when nothing is cached
    | Fresh  // "fresh": always fetch

  /** `(url.searchParams.get("quality") || "") as Quality`, read the way the handler compares it:
      only "fresh" and "cache" are distinguished, and everything else, absent or empty included,
      acts as `Any`. */
  function ParseQuality(param: Option<string>): (q: Quality)
    ensures q == Fresh <==> param == Some("fresh")
    ensures q == Cache <==> param == Some("cache")
    ensures q == Any <==> param.None? || (param.value != "fresh" && param.value != "cache")
  {
    match param
    case Some("fresh") => Fresh
    case Some("cache") => Cache
    case _ => Any
  }
}
