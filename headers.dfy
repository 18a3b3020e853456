/**
 * The header rules of main.go: which client headers the authorization request
 * carries (cloneSubset) and how allowlisted authorization-response headers replace
 * those of the forwarded request (the loop of RoundTrip's step 4a).
 */
module Headers {
  import opened Text
  import opened Http

  // ------------------------------------------------------------------
  // cloneSubset
  // ------------------------------------------------------------------

  /** A key whose canonical form is one of the two signature headers. */
  predicate IsSignatureKey(k: string) {
    var c := CanonicalHeaderKey(k);
    c == "Signature" || c == "Signature-Date"
  }

  /** The entries of `src` that cloneSubset keeps, under their original keys. */
  function SignatureHeaders(src: Header): Header {
    map k | k in src && IsSignatureKey(k) :: src[k]
  }

  /** The signature entries are exactly the entries of `src` under a signature key, values unchanged. */
  lemma SignatureHeadersShape(src: Header)
    ensures forall k :: k in SignatureHeaders(src) <==> k in src && IsSignatureKey(k)
    ensures forall k :: k in SignatureHeaders(src) ==> SignatureHeaders(src)[k] == src[k]
  {
  }

  /** cloneSubset: copies exactly the signature entries of `src`, keys and values unchanged. */
  method CloneSubset(src: Header) returns (dst: Header)
    ensures dst == SignatureHeaders(src)
  {
    dst := map[];
    var todo := src.Keys;
    while todo != {}
      invariant todo <= src.Keys
      invariant forall k :: k in dst <==> k in src && k !in todo && IsSignatureKey(k)
      invariant forall k :: k in dst ==> dst[k] == src[k]
      decreases |todo|
    {
      var k :| k in todo;
      if IsSignatureKey(k) {
        dst := dst[k := src[k]];
      }
      todo := todo - {k};
    }
  }

  // ------------------------------------------------------------------
  // Forwarding allowlisted headers from the authorization response
  // ------------------------------------------------------------------

  /** The values that are not the empty string, in their order. */
  function NonBlank(vs: seq<string>): (r: seq<string>)
    ensures "" !in r
    ensures forall v :: v in r <==> v in vs && v != ""
    ensures |r| <= |vs|
    decreases |vs|
  {
    if vs == [] then []
    else
      var p := NonBlank(vs[..|vs| - 1]);
      var v := vs[|vs| - 1];
      assert vs == vs[..|vs| - 1] + [v];
      if v == "" then p else p + [v]
  }

  /** The inner loop: Header.Add(key, v) for every non-empty v of vs, in order. */
  function AddNonBlank(h: Header, key: string, vs: seq<string>): Header
    decreases |vs|
  {
    if vs == [] then h
    else
      var p := AddNonBlank(h, key, vs[..|vs| - 1]);
      var v := vs[|vs| - 1];
      if v == "" then p else Add(p, key, v)
  }

  /** Adding only writes the canonical key, and appends the non-empty values to what it held. */
  lemma {:induction false} AddNonBlankEffect(h: Header, key: string, vs: seq<string>)
    ensures var k := CanonicalHeaderKey(key);
      && (k in AddNonBlank(h, key, vs) <==> k in h || NonBlank(vs) != [])
      && (k in AddNonBlank(h, key, vs) ==> AddNonBlank(h, key, vs)[k] == Get(h, k) + NonBlank(vs))
    ensures forall j :: j != CanonicalHeaderKey(key) ==>
      && (j in AddNonBlank(h, key, vs) <==> j in h)
      && (j in AddNonBlank(h, key, vs) ==> AddNonBlank(h, key, vs)[j] == h[j])
    decreases |vs|
  {
    if vs != [] {
      var p := vs[..|vs| - 1];
      AddNonBlankEffect(h, key, p);
      var k := CanonicalHeaderKey(key);
      var v := vs[|vs| - 1];
      assert NonBlank(vs) == if v == "" then NonBlank(p) else NonBlank(p) + [v];
      if v != "" {
        var q := AddNonBlank(h, key, p);
        assert Get(q, k) == Get(h, k) + NonBlank(p);
        assert Get(h, k) + NonBlank(p) + [v] == Get(h, k) + (NonBlank(p) + [v]);
      }
    }
  }

  /** One pass of the outer loop for allowlisted name `name`. */
  function ForwardOne(h: Header, authHdr: Header, name: string): Header {
    var vs := Values(authHdr, name);
    if |vs| == 0 then h else AddNonBlank(Del(h, name), name, vs)
  }

  /** The outer loop over the allowlist, in order. */
  function Forwarded(h: Header, authHdr: Header, names: seq<string>): Header
    decreases |names|
  {
    if names == [] then h
    else ForwardOne(Forwarded(h, authHdr, names[..|names| - 1]), authHdr, names[|names| - 1])
  }

  /** The header keys the allowlist names, in canonical form. */
  function Listed(names: seq<string>): set<string> {
    set i | 0 <= i < |names| :: CanonicalHeaderKey(names[i])
  }

  /** Whether forwarding replaces key k: it is allowlisted and the authorization response has values for it. */
  predicate Replaced(authHdr: Header, names: seq<string>, k: string) {
    k in Listed(names) && Get(authHdr, k) != []
  }

  /** A pass for one name leaves every other canonical key alone. */
  lemma ForwardOneElsewhere(h: Header, authHdr: Header, name: string, k: string)
    requires k != CanonicalHeaderKey(name)
    ensures k in ForwardOne(h, authHdr, name) <==> k in h
    ensures k in h ==> ForwardOne(h, authHdr, name)[k] == h[k]
  {
    AddNonBlankEffect(Del(h, name), name, Values(authHdr, name));
  }

  /**
   * The forwarding rule, key by key. A key that is allowlisted and has values in the
   * authorization response ends up holding exactly its non-empty values, in order,
   * and is deleted when all of them are empty; every other key keeps what it had.
   */
  lemma {:induction false} ForwardedAt(h: Header, authHdr: Header, names: seq<string>, k: string)
    ensures Replaced(authHdr, names, k) ==>
      && (k in Forwarded(h, authHdr, names) <==> NonBlank(authHdr[k]) != [])
      && (k in Forwarded(h, authHdr, names) ==> Forwarded(h, authHdr, names)[k] == NonBlank(authHdr[k]))
    ensures !Replaced(authHdr, names, k) ==>
      && (k in Forwarded(h, authHdr, names) <==> k in h)
      && (k in h ==> Forwarded(h, authHdr, names)[k] == h[k])
    decreases |names|
  {
    if names != [] {
      var p := names[..|names| - 1];
      var n := names[|names| - 1];
      ForwardedAt(h, authHdr, p, k);
      assert Listed(names) == Listed(p) + {CanonicalHeaderKey(n)} by {
        assert forall i :: 0 <= i < |p| ==> p[i] == names[i];
      }
      var before := Forwarded(h, authHdr, p);
      if k == CanonicalHeaderKey(n) {
        var vs := Values(authHdr, n);
        if |vs| != 0 {
          AddNonBlankEffect(Del(before, n), n, vs);
        }
      } else {
        ForwardOneElsewhere(before, authHdr, n, k);
      }
    }
  }

  /**
   * The allowlist {Client, Service} with an authorization response carrying only
   * `Client: alice`: the forwarded request has `Client: alice` in place of its own
   * values and gains no `Service` header.
   */
  lemma ForwardedClientExample(h: Header)
    requires "Service" !in h
    ensures var r := Forwarded(h, map["Client" := ["alice"]], ["Client", "Service"]);
      "Client" in r && r["Client"] == ["alice"] && "Service" !in r
  {
    var a: Header := map["Client" := ["alice"]];
    var names := ["Client", "Service"];
    ClientExampleFacts();
    ForwardedAt(h, a, names, "Client");
    ForwardedAt(h, a, names, "Service");
  }

  /** In the example above Client is replaced, Service is not, and alice is a non-blank value. */
  lemma ClientExampleFacts()
    ensures Replaced(map["Client" := ["alice"]], ["Client", "Service"], "Client")
    ensures !Replaced(map["Client" := ["alice"]], ["Client", "Service"], "Service")
    ensures NonBlank(["alice"]) == ["alice"]
  {
    var names := ["Client", "Service"];
    assert CanonicalHeaderKey(names[0]) == "Client";
    assert CanonicalHeaderKey("Service") == "Service";
    assert ["alice"][..0] == [];
  }
}
