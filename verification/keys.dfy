/** Cache-key derivation (worker/src/handler.ts, `sha256` and the `_html` / `_api_docs` suffixes):
    the key of an entrypoint is the hex SHA-256 digest of its text followed by a namespace suffix. */
module Keys {
  import opened Hex

  /** A SHA-256 digest: 32 bytes. */
  type Digest = d: seq<byte> | |d| == 32 witness seq(32, _ => 0)

  /** The digest of an entrypoint. UTF-8 encoding and SHA-256 are not part of this model: the
      function is supplied by the caller, and is deterministic because it is a function. */
  type Hasher = string -> Digest

  const PageSuffix := "_html"
  const DataSuffix := "_api_docs"

  /** `await sha256(entrypoint)`: the lowercase hex form of the digest. */
  function HashHex(digest: Hasher, entrypoint: string): (h: string)
    ensures |h| == 64
    ensures forall i | 0 <= i < |h| :: IsHexDigit(h[i])
  {
    HexEncode(digest(entrypoint))
  }

  /** Key of the rendered page of an entrypoint: the hash, then the page namespace. */
  function PageKey(hash: string): (k: string)
    ensures hash <= k && k[|hash|..] == PageSuffix
  {
    hash + PageSuffix
  }

  /** Key of the documentation data of an entrypoint: the hash, then the data namespace. */
  function DataKey(hash: string): (k: string)
    ensures hash <= k && k[|hash|..] == DataSuffix
  {
    hash + DataSuffix
  }

  /** A page key never equals a data key, whatever the two hashes: the suffixes end differently. */
  lemma PageKeyNotDataKey(h: string, h': string)
    ensures PageKey(h) != DataKey(h')
  {
    var p, d := PageKey(h), DataKey(h');
    assert p[|p| - 1] == 'l' && d[|d| - 1] == 's';
  }

  /** Within one namespace the suffix can be cancelled: equal keys come from equal hashes. */
  lemma KeySuffixCancels(h: string, h': string)
    ensures PageKey(h) == PageKey(h') ==> h == h'
    ensures DataKey(h) == DataKey(h') ==> h == h'
  {
    if PageKey(h) == PageKey(h') {
      assert h == PageKey(h)[..|h|];
    }
    if DataKey(h) == DataKey(h') {
      assert h == DataKey(h)[..|h|];
    }
  }

  /** Entrypoints with different digests get different keys in each namespace. */
  lemma KeysSeparateEntrypoints(digest: Hasher, e: string, e': string)
    ensures digest(e) != digest(e') ==>
      PageKey(HashHex(digest, e)) != PageKey(HashHex(digest, e')) &&
      DataKey(HashHex(digest, e)) != DataKey(HashHex(digest, e'))
  {
    KeySuffixCancels(HashHex(digest, e), HashHex(digest, e'));
    HexEncodeInjective(digest(e), digest(e'));
  }
}
