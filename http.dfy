/**
 * The parts of Go's net/http and net/url the proxy uses: header maps with their
 * canonicalising accessors, the request target of a URL, and responses.
 */
module Http {
  import opened Text
  import opened Body

  /** http.Header: header name to its values, in the order they were added. */
  type Header = map<string, seq<string>>

  /** The values stored under exactly the key `k` (no canonicalisation). */
  function Get(h: Header, k: string): seq<string> {
    if k in h then h[k] else []
  }

  /** Header.Values: the values under the canonical form of `key`. */
  function Values(h: Header, key: string): seq<string> {
    Get(h, CanonicalHeaderKey(key))
  }

  /** Header.Del: removes the canonical form of `key`, nothing else. */
  function Del(h: Header, key: string): (r: Header)
    ensures r.Keys == h.Keys - {CanonicalHeaderKey(key)}
    ensures forall k :: k in r ==> r[k] == h[k]
  {
    h - {CanonicalHeaderKey(key)}
  }

  /** Header.Add: appends `v` to the values of the canonical form of `key`. */
  function Add(h: Header, key: string, v: string): (r: Header)
    ensures r.Keys == h.Keys + {CanonicalHeaderKey(key)}
    ensures r[CanonicalHeaderKey(key)] == Get(h, CanonicalHeaderKey(key)) + [v]
    ensures forall k :: k in r && k != CanonicalHeaderKey(key) ==> r[k] == h[k]
  {
    var k := CanonicalHeaderKey(key);
    h[k := Get(h, k) + [v]]
  }

  /** Header.Set: the canonical form of `key` gets the single value `v`. */
  function Set(h: Header, key: string, v: string): (r: Header)
    ensures r.Keys == h.Keys + {CanonicalHeaderKey(key)}
    ensures r[CanonicalHeaderKey(key)] == [v]
    ensures forall k :: k in r && k != CanonicalHeaderKey(key) ==> r[k] == h[k]
  {
    h[CanonicalHeaderKey(key) := [v]]
  }

  /**
   * Header keys are case-insensitive through lookup: after Set, every spelling of the
   * key that canonicalises like `key` reads the single value, and every other reads
   * what it read before.
   */
  lemma SetValues(h: Header, key: string, v: string, other: string)
    ensures CanonicalHeaderKey(other) == CanonicalHeaderKey(key) ==> Values(Set(h, key, v), other) == [v]
    ensures CanonicalHeaderKey(other) != CanonicalHeaderKey(key) ==> Values(Set(h, key, v), other) == Values(h, other)
  {
  }

  /** After Add, every spelling of `key` reads the old values followed by `v`; other keys read as before. */
  lemma AddValues(h: Header, key: string, v: string, other: string)
    ensures CanonicalHeaderKey(other) == CanonicalHeaderKey(key) ==> Values(Add(h, key, v), other) == Values(h, key) + [v]
    ensures CanonicalHeaderKey(other) != CanonicalHeaderKey(key) ==> Values(Add(h, key, v), other) == Values(h, other)
  {
  }

  /** After Del, no spelling of `key` reads any value; other keys read as before. */
  lemma DelValues(h: Header, key: string, other: string)
    ensures CanonicalHeaderKey(other) == CanonicalHeaderKey(key) ==> Values(Del(h, key), other) == []
    ensures CanonicalHeaderKey(other) != CanonicalHeaderKey(key) ==> Values(Del(h, key), other) == Values(h, other)
  {
  }

  /** Looking up a name and looking up its canonical form find the same values. */
  lemma ValuesCanonical(h: Header, key: string)
    ensures Values(h, CanonicalHeaderKey(key)) == Values(h, key)
  {
    CanonicalHeaderKeyIdempotent(key);
  }

  /**
   * The URL fields the proxy reads or rewrites: `path` is the decoded URL.Path and
   * `escapedPath` what URL.EscapedPath() gives for it.
   */
  datatype Url = Url(scheme: string, host: string, path: string, escapedPath: string, rawQuery: string)

  /** URL.RequestURI: the escaped path ("/" when empty), then '?' and the query when there is one. */
  function RequestUri(u: Url): (r: string)
    ensures r != []
    ensures u.escapedPath != "" ==> |u.escapedPath| <= |r| && r[..|u.escapedPath|] == u.escapedPath
    ensures u.rawQuery == "" ==> r == (if u.escapedPath == "" then "/" else u.escapedPath)
  {
    (if u.escapedPath == "" then "/" else u.escapedPath) + (if u.rawQuery != "" then "?" + u.rawQuery else "")
  }

  /** What a peer answers: status code, status text, headers and the bytes of the body. */
  datatype Response = Response(statusCode: int, status: string, header: Header, body: seq<byte>)

  const StatusOK: int := 200
  const MethodOptions: string := "OPTIONS"
}
