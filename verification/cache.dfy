/** The key-value store `DOCS_CACHE`, the consistency guard of the page cache, and the work the
    handlers of worker/src/handler.ts leave to `event.waitUntil` once the response is sent. */
module Cache {
  import opened Wrappers
  import opened Hex
  import opened Keys
  import opened Http

  /** `expirationTtl: 86400`: one day, in seconds. */
  const DayTtl := 86400

  /** A stored value with the TTL it was written with. Expiry itself belongs to the store and is
      not part of this model. */
  datatype Entry = Entry(value: Bytes, ttl: nat)

  /** The stored value under a key, if any. */
  function Find(m: map<string, Entry>, key: string): (v: Option<Bytes>)
    ensures v.Some? <==> key in m
    ensures v.Some? ==> v.value == m[key].value
  {
    if key in m then Some(m[key].value) else None
  }

  /** The store: a map from keys to entries, changed one key at a time. */
  class KVStore {
    var entries: map<string, Entry>

    constructor ()
      ensures entries == map[]
    {
      entries := map[];
    }

    /** `DOCS_CACHE.get(key, "stream")`: the stored bytes, or null. */
    method Get(key: string) returns (v: Option<Bytes>)
      ensures v == Find(entries, key)
    {
      if key in entries {
        v := Some(entries[key].value);
      } else {
        v := None;
      }
    }

    /** `DOCS_CACHE.put(key, value, {expirationTtl: ttl})`. */
    method Put(key: string, value: Bytes, ttl: nat)
      modifies this
      ensures entries == old(entries)[key := Entry(value, ttl)]
    {
      entries := entries[key := Entry(value, ttl)];
    }

    /** `DOCS_CACHE.delete(key)`. */
    method Delete(key: string)
      modifies this
      ensures entries == old(entries) - {key}
    {
      entries := entries - {key};
    }
  }

  /** `needle` occurs in `hay` starting at offset i. */
  ghost predicate OccursAt(hay: Bytes, needle: Bytes, i: int) {
    0 <= i && i + |needle| <= |hay| && hay[i..i + |needle|] == needle
  }

  lemma OccursAtTail(hay: Bytes, needle: Bytes, i: int)
    requires |hay| > 0 && i >= 1
    ensures OccursAt(hay, needle, i) <==> OccursAt(hay[1..], needle, i - 1)
  {
  }

  /** `html.includes(timestamp)`: does `needle` occur anywhere in `hay`? The empty needle occurs
      everywhere. */
  function Contains(hay: Bytes, needle: Bytes): (r: bool)
    ensures r <==> exists i :: OccursAt(hay, needle, i)
    decreases |hay|
  {
    if |needle| > |hay| then false
    else if needle == hay[..|needle|] then
      assert OccursAt(hay, needle, 0);
      true
    else
      var r := Contains(hay[1..], needle);
      assert r ==> exists i :: OccursAt(hay, needle, i) by {
        if r {
          var i :| OccursAt(hay[1..], needle, i);
          OccursAtTail(hay, needle, i + 1);
        }
      }
      assert (exists i :: OccursAt(hay, needle, i)) ==> r by {
        if i :| OccursAt(hay, needle, i) {
          assert i != 0;
          OccursAtTail(hay, needle, i);
        }
      }
      r
  }

  /** Reads the `timestamp` field of stored documentation data (`DOCS_CACHE.get(key, "json")`
      followed by `.timestamp`); None when the entry does not parse or has no string timestamp.
      JSON parsing is not part of this model: the reader is supplied by the caller. */
  type TimestampReader = Bytes -> Option<Bytes>

  /** The consistency guard, `data && data.timestamp && html.includes(data.timestamp)`: the
      documentation data is cached, its timestamp is non-empty, and the page embeds it. */
  predicate GuardPasses(timestampOf: TimestampReader, data: Option<Bytes>, html: Bytes)
    ensures data.None? ==> !GuardPasses(timestampOf, data, html)
    ensures GuardPasses(timestampOf, data, html) <==>
      data.Some? && exists ts, i :: timestampOf(data.value) == Some(ts) && |ts| > 0 && OccursAt(html, ts, i)
  {
    && data.Some?
    && timestampOf(data.value).Some?
    && |timestampOf(data.value).value| > 0
    && Contains(html, timestampOf(data.value).value)
  }

  /** The work a handler registers with `event.waitUntil`, run after the response is sent. */
  datatype Task =
    | NoTask
    | CachePage(hash: string, html: Bytes)  // page route: guarded write of the fetched page
    | CacheDocs(hash: string, body: Bytes)  // data route: drop the page, store the data

  /** Which store operations of a background task settle successfully. `Promise.allSettled`
      tolerates a rejected delete or put; a rejected read in the page task ends that task before
      its write. A rejected operation changes nothing. */
  datatype Settled = Settled(readOk: bool, deleteOk: bool, putOk: bool)

  const AllSettledOk := Settled(true, true, true)

  /** The one outcome that can leave a page beside newer data: the page removal rejects while
      the data write succeeds. */
  predicate StalePageRisk(task: Task, settled: Settled) {
    task.CacheDocs? && !settled.deleteOk && settled.putOk
  }

  /** The keys a task may change. */
  function Touched(task: Task): set<string> {
    match task
    case NoTask => {}
    case CachePage(h, _) => {PageKey(h)}
    case CacheDocs(h, _) => {PageKey(h), DataKey(h)}
  }

  /** The store after a task, run as one step, given how each of its operations settled. */
  function ApplyTask(timestampOf: TimestampReader, m: map<string, Entry>, task: Task, settled: Settled)
    : (r: map<string, Entry>)
    ensures forall k | k !in Touched(task) :: (k in r <==> k in m)
    ensures forall k | k in m && k !in Touched(task) :: r[k] == m[k]
    ensures task.NoTask? ==> r == m
    ensures task.CachePage? ==>
      if settled.readOk && settled.putOk && GuardPasses(timestampOf, Find(m, DataKey(task.hash)), task.html)
      then PageKey(task.hash) in r && r[PageKey(task.hash)] == Entry(task.html, DayTtl)
      else r == m
    ensures task.CacheDocs? && settled.deleteOk ==> PageKey(task.hash) !in r
    ensures task.CacheDocs? && !settled.deleteOk ==> Find(r, PageKey(task.hash)) == Find(m, PageKey(task.hash))
    ensures task.CacheDocs? && settled.putOk ==>
      DataKey(task.hash) in r && r[DataKey(task.hash)] == Entry(task.body, DayTtl)
    ensures task.CacheDocs? && !settled.putOk ==> Find(r, DataKey(task.hash)) == Find(m, DataKey(task.hash))
  {
    match task
    case NoTask => m
    case CachePage(h, html) =>
      if settled.readOk && settled.putOk && GuardPasses(timestampOf, Find(m, DataKey(h)), html)
      then m[PageKey(h) := Entry(html, DayTtl)]
      else m
    case CacheDocs(h, body) =>
      PageKeyNotDataKey(h, h);
      var afterDelete := if settled.deleteOk then m - {PageKey(h)} else m;
      if settled.putOk then afterDelete[DataKey(h) := Entry(body, DayTtl)] else afterDelete
  }

  /** `Promise.allSettled([delete(page), put(data)])` runs the two writes in no fixed order; they
      touch different keys, so either order leaves the same store. */
  lemma CacheDocsOrderIrrelevant(m: map<string, Entry>, h: string, e: Entry)
    ensures (m - {PageKey(h)})[DataKey(h) := e] == m[DataKey(h) := e] - {PageKey(h)}
  {
  }

  /** The invariant the guard and the invalidation keep together: every cached page has cached
      documentation data whose timestamp the page contains, so no page outlives its data. */
  ghost predicate Consistent(timestampOf: TimestampReader, m: map<string, Entry>) {
    forall h :: PageKey(h) in m ==> GuardPasses(timestampOf, Find(m, DataKey(h)), m[PageKey(h)].value)
  }

  /** Every background task keeps the store consistent, unless the page removal rejects while the
      data write succeeds. */
  lemma ApplyTaskPreservesConsistency(timestampOf: TimestampReader, m: map<string, Entry>, task: Task, settled: Settled)
    requires Consistent(timestampOf, m)
    requires !StalePageRisk(task, settled)
    ensures Consistent(timestampOf, ApplyTask(timestampOf, m, task, settled))
  {
    var r := ApplyTask(timestampOf, m, task, settled);
    forall h | PageKey(h) in r
      ensures GuardPasses(timestampOf, Find(r, DataKey(h)), r[PageKey(h)].value)
    {
      match task
      case NoTask =>
      case CachePage(h0, html) =>
        PageKeyNotDataKey(h0, h);
        KeySuffixCancels(h, h0);
        if h != h0 {
          assert Find(r, DataKey(h)) == Find(m, DataKey(h));
        }
      case CacheDocs(h0, body) =>
        PageKeyNotDataKey(h, h0);
        PageKeyNotDataKey(h0, h);
        KeySuffixCancels(h, h0);
        if settled.deleteOk {
          assert PageKey(h) in m;
          assert Find(r, DataKey(h)) == Find(m, DataKey(h));
        } else {
          assert r == m;
        }
    }
  }

  /** The tolerated failure does break the invariant: with a page embedding timestamp [1] beside
      data whose timestamp is [1], storing data with timestamp [2] while the page removal rejects
      leaves a page that no longer contains the cached data's timestamp. */
  lemma FailedDeleteBreaksConsistency(h: string)
    ensures var timestampOf: TimestampReader := data => Some(data);
      var m := map[PageKey(h) := Entry([1], DayTtl), DataKey(h) := Entry([1], DayTtl)];
      var settled := Settled(true, false, true);
      && StalePageRisk(CacheDocs(h, [2]), settled)
      && Consistent(timestampOf, m)
      && !Consistent(timestampOf, ApplyTask(timestampOf, m, CacheDocs(h, [2]), settled))
  {
    var timestampOf: TimestampReader := data => Some(data);
    var m := map[PageKey(h) := Entry([1], DayTtl), DataKey(h) := Entry([1], DayTtl)];
    PageKeyNotDataKey(h, h);
    forall h' | PageKey(h') in m
      ensures GuardPasses(timestampOf, Find(m, DataKey(h')), m[PageKey(h')].value)
    {
      PageKeyNotDataKey(h', h);
      KeySuffixCancels(h', h);
      assert OccursAt([1], [1], 0);
    }
    var r := ApplyTask(timestampOf, m, CacheDocs(h, [2]), Settled(true, false, true));
    assert r[PageKey(h)].value == [1] && Find(r, DataKey(h)) == Some([2]);
    assert !Contains([1], [2]);
  }
}
