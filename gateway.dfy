/**
 * authTransport.RoundTrip of main.go: the bypass check, the body peek, the call to
 * the authorization service, the allow/deny decision and the forwarding to the
 * upstream. The network is a function `peer` from the request that goes out to
 * what comes back, and every call records which leg it belongs to.
 */
module Gateway {
  import opened Numbers
  import opened Text
  import opened Body
  import opened Http
  import opened Settings
  import opened Headers

  /**
   * What a peer is handed: the fields of the request the proxy reads or sets (method
   * as `verb`, URL, Host, headers) and the bytes its body still yields.
   */
  datatype Sent = Sent(verb: string, url: Url, host: string, header: Header, body: seq<byte>)

  /** A peer either answers or the round trip fails with a transport error. */
  datatype Reply = Delivered(response: Response) | TransportError(reason: string)

  /** Which service a round trip addresses. */
  datatype Leg = ToAuth | ToUpstream
  datatype Call = Call(leg: Leg, request: Sent)

  /** The four ways a request can leave RoundTrip. */
  datatype Branch = Bypassed | AuthFailed | Denied | Allowed

  /** What one RoundTrip does: its branch, the calls it makes in order, what it returns, and how many authorization-body bytes it drains. */
  datatype Outcome = Outcome(branch: Branch, calls: seq<Call>, reply: Reply, drained: nat)

  // ------------------------------------------------------------------
  // The specification of RoundTrip
  // ------------------------------------------------------------------

  /** Requests whose decoded path the include pattern does not match, and every OPTIONS request, skip authorization. */
  predicate Bypass(cfg: Config, r: Sent) {
    !cfg.includes(r.url.path) || r.verb == MethodOptions
  }

  /** The clone that is sent upstream: scheme and host of the upstream, everything else kept. */
  function Retargeted(r: Sent, up: Url): Sent {
    r.(url := r.url.(scheme := up.scheme, host := up.host), host := up.host)
  }

  /** The byte limit of the body peek: MAX_BODY_SIZE_MB shifted left by 20 in 64-bit arithmetic. */
  function PeekLimit(cfg: Config): int {
    ShiftLeft20(cfg.maxBodyMb) as int
  }

  /** The two headers RoundTrip adds to the authorization request. */
  const OrigUri: string := "X-Orig-Uri"
  const OrigMethod: string := "X-Orig-Method"

  /** The headers of the authorization request: the signature headers, then X-Orig-Uri and X-Orig-Method. */
  function AuthHeaders(r: Sent): Header {
    Set(Set(SignatureHeaders(r.header), OrigUri, RequestUri(r.url)), OrigMethod, r.verb)
  }

  /** The authorization request: configured method and endpoint, the peeked body prefix. */
  function AuthRequest(cfg: Config, r: Sent): Sent {
    Sent(cfg.authMethod, cfg.authEndpoint, cfg.authEndpoint.host, AuthHeaders(r), Capture(r.body, PeekLimit(cfg)))
  }

  /** A denial repeats the authorization service's status and headers with an empty body. */
  function Denial(a: Response): Response {
    Response(a.statusCode, a.status, a.header, [])
  }

  /** The request sent upstream after an allow, with the allowlisted headers of the authorization response. */
  function UpstreamRequest(cfg: Config, r: Sent, authHdr: Header): Sent {
    var out := Retargeted(r, cfg.upstream);
    if |cfg.forwardNames| > 0 then out.(header := Forwarded(r.header, authHdr, cfg.forwardNames)) else out
  }

  function Pipeline(cfg: Config, peer: Sent -> Reply, r: Sent): Outcome {
    if Bypass(cfg, r) then
      var out := Retargeted(r, cfg.upstream);
      Outcome(Bypassed, [Call(ToUpstream, out)], peer(out), 0)
    else
      var a := AuthRequest(cfg, r);
      var ar := peer(a);
      if ar.TransportError? then Outcome(AuthFailed, [Call(ToAuth, a)], ar, 0)
      else
        var resp := ar.response;
        var d := Min(DrainLimit, |resp.body|);
        if resp.statusCode != StatusOK then Outcome(Denied, [Call(ToAuth, a)], Delivered(Denial(resp)), d)
        else
          var out := UpstreamRequest(cfg, r, resp.header);
          Outcome(Allowed, [Call(ToAuth, a), Call(ToUpstream, out)], peer(out), d)
  }

  /** How many of the calls address `leg`. */
  function CountLeg(calls: seq<Call>, leg: Leg): nat {
    if calls == [] then 0 else (if calls[0].leg == leg then 1 else 0) + CountLeg(calls[1..], leg)
  }

  // ------------------------------------------------------------------
  // What the specification promises
  // ------------------------------------------------------------------

  /**
   * The authorization request carries the client's signature headers under their own
   * keys and values, X-Orig-Uri holding the request URI, X-Orig-Method holding the
   * method, and nothing else.
   */
  lemma AuthHeadersShape(r: Sent)
    ensures forall k :: k in AuthHeaders(r) <==>
      (k in r.header && IsSignatureKey(k)) || k == "X-Orig-Uri" || k == "X-Orig-Method"
    ensures forall k :: k in r.header && IsSignatureKey(k) ==> AuthHeaders(r)[k] == r.header[k]
    ensures AuthHeaders(r)["X-Orig-Uri"] == [RequestUri(r.url)]
    ensures AuthHeaders(r)["X-Orig-Method"] == [r.verb]
  {
    OrigKeys();
    var sig := SignatureHeaders(r.header);
    var withUri := Set(sig, "X-Orig-Uri", RequestUri(r.url));
    SetCanonicalKey(sig, "X-Orig-Uri", RequestUri(r.url));
    SetCanonicalKey(withUri, "X-Orig-Method", r.verb);
  }

  /** Header.Set with a key that is already canonical: that key holds the one value, the others are kept. */
  lemma SetCanonicalKey(h: Header, key: string, v: string)
    requires CanonicalHeaderKey(key) == key
    ensures forall k :: k in Set(h, key, v) <==> k in h || k == key
    ensures forall k :: k in h && k != key ==> Set(h, key, v)[k] == h[k]
    ensures Set(h, key, v)[key] == [v]
  {
  }

  /** The two keys RoundTrip sets are already canonical and are not signature keys. */
  lemma OrigKeys()
    ensures CanonicalHeaderKey("X-Orig-Uri") == "X-Orig-Uri"
    ensures CanonicalHeaderKey("X-Orig-Method") == "X-Orig-Method"
    ensures !IsSignatureKey("X-Orig-Uri") && !IsSignatureKey("X-Orig-Method")
  {
    OrigUriKey();
    OrigMethodKey();
  }

  /**
   * X-Orig-Uri is its own canonical form. The proof is split into one small lemma
   * per fact (token characters, each word) to keep each evaluation of the literal cheap.
   */
  lemma OrigUriKey()
    ensures CanonicalHeaderKey("X-Orig-Uri") == "X-Orig-Uri"
  {
    OrigUriToken();
    OrigUriWords();
    assert FoldFrom("X-Orig-Uri", 0, true) == "X-" + FoldFrom("X-Orig-Uri", 2, true);
  }

  lemma OrigUriToken()
    ensures TokenFrom("X-Orig-Uri", 0)
  {
    assert TokenFrom("X-Orig-Uri", 6);
  }

  lemma OrigUriWords()
    ensures FoldFrom("X-Orig-Uri", 2, true) == "Orig-Uri"
  {
    OrigUriLastWord();
    assert FoldFrom("X-Orig-Uri", 2, true) == "Orig-" + FoldFrom("X-Orig-Uri", 7, true);
  }

  lemma OrigUriLastWord()
    ensures FoldFrom("X-Orig-Uri", 7, true) == "Uri"
  {
  }

  /** X-Orig-Method is its own canonical form, split the same way. */
  lemma OrigMethodKey()
    ensures CanonicalHeaderKey("X-Orig-Method") == "X-Orig-Method"
  {
    OrigMethodToken();
    OrigMethodWords();
    assert FoldFrom("X-Orig-Method", 0, true) == "X-" + FoldFrom("X-Orig-Method", 2, true);
  }

  lemma OrigMethodToken()
    ensures TokenFrom("X-Orig-Method", 0)
  {
    assert TokenFrom("X-Orig-Method", 7);
  }

  lemma OrigMethodWords()
    ensures FoldFrom("X-Orig-Method", 2, true) == "Orig-Method"
  {
    OrigMethodLastWord();
    assert FoldFrom("X-Orig-Method", 2, true) == "Orig-" + FoldFrom("X-Orig-Method", 7, true);
  }

  lemma OrigMethodLastWord()
    ensures FoldFrom("X-Orig-Method", 7, true) == "Method"
  {
    assert FoldFrom("X-Orig-Method", 10, false) == "hod";
  }

  /** A bypassed request makes no authorization call and goes upstream once, unchanged but for its target. */
  lemma PipelineBypassed(cfg: Config, peer: Sent -> Reply, r: Sent)
    requires Bypass(cfg, r)
    ensures var o := Pipeline(cfg, peer, r);
      && o.branch == Bypassed
      && o.calls == [Call(ToUpstream, Retargeted(r, cfg.upstream))]
      && o.reply == peer(Retargeted(r, cfg.upstream))
      && o.drained == 0
    ensures var u := Retargeted(r, cfg.upstream);
      && u.verb == r.verb && u.header == r.header && u.body == r.body
      && u.url.path == r.url.path && u.url.escapedPath == r.url.escapedPath && u.url.rawQuery == r.url.rawQuery
      && u.url.scheme == cfg.upstream.scheme && u.url.host == cfg.upstream.host && u.host == cfg.upstream.host
  {
  }

  /**
   * A request that is not bypassed calls the authorization service first, with the
   * configured method and endpoint and the body prefix the peek limit allows.
   */
  lemma PipelineAuthCall(cfg: Config, peer: Sent -> Reply, r: Sent)
    requires !Bypass(cfg, r)
    ensures var o := Pipeline(cfg, peer, r);
      |o.calls| >= 1 && o.calls[0] == Call(ToAuth, AuthRequest(cfg, r))
    ensures var a := AuthRequest(cfg, r);
      && a.verb == cfg.authMethod && a.url == cfg.authEndpoint && a.host == cfg.authEndpoint.host
      && a.body == r.body[..|a.body|]
      && |a.body| == LimitedLength(|r.body|, PeekLimit(cfg))
  {
  }

  /** A transport error from the authorization service is returned as is; upstream is never called. */
  lemma PipelineAuthFailed(cfg: Config, peer: Sent -> Reply, r: Sent)
    requires !Bypass(cfg, r) && peer(AuthRequest(cfg, r)).TransportError?
    ensures var o := Pipeline(cfg, peer, r);
      && o.branch == AuthFailed
      && o.calls == [Call(ToAuth, AuthRequest(cfg, r))]
      && o.reply == peer(AuthRequest(cfg, r))
      && o.drained == 0
  {
  }

  /**
   * Any status other than 200 is relayed to the client with the authorization
   * service's status and headers and an empty body; upstream is never called.
   */
  lemma PipelineDenied(cfg: Config, peer: Sent -> Reply, r: Sent)
    requires !Bypass(cfg, r)
    requires peer(AuthRequest(cfg, r)).Delivered?
    requires peer(AuthRequest(cfg, r)).response.statusCode != StatusOK
    ensures var a := peer(AuthRequest(cfg, r)).response;
      var o := Pipeline(cfg, peer, r);
      && o.branch == Denied
      && o.calls == [Call(ToAuth, AuthRequest(cfg, r))]
      && o.reply.Delivered?
      && o.reply.response.statusCode == a.statusCode
      && o.reply.response.status == a.status
      && o.reply.response.header == a.header
      && o.reply.response.body == []
      && o.drained == Min(DrainLimit, |a.body|)
  {
  }

  /**
   * On 200 the original request goes upstream, retargeted, with its whole body and
   * the forwarded headers, and the upstream reply is what the client gets.
   */
  lemma PipelineAllowed(cfg: Config, peer: Sent -> Reply, r: Sent)
    requires !Bypass(cfg, r)
    requires peer(AuthRequest(cfg, r)).Delivered?
    requires peer(AuthRequest(cfg, r)).response.statusCode == StatusOK
    ensures var a := peer(AuthRequest(cfg, r)).response;
      var u := UpstreamRequest(cfg, r, a.header);
      var o := Pipeline(cfg, peer, r);
      && o.branch == Allowed
      && o.calls == [Call(ToAuth, AuthRequest(cfg, r)), Call(ToUpstream, u)]
      && o.reply == peer(u)
      && o.drained == Min(DrainLimit, |a.body|)
      && u.verb == r.verb && u.body == r.body
      && u.url.path == r.url.path && u.url.escapedPath == r.url.escapedPath && u.url.rawQuery == r.url.rawQuery
      && u.url.scheme == cfg.upstream.scheme && u.url.host == cfg.upstream.host && u.host == cfg.upstream.host
  {
  }

  /**
   * The headers of the upstream request after an allow, key by key: every header the
   * allowlist names and the authorization response carries is replaced by the
   * response's non-empty values, and every other header is kept.
   */
  lemma UpstreamHeaders(cfg: Config, r: Sent, authHdr: Header, k: string)
    ensures var u := UpstreamRequest(cfg, r, authHdr);
      Replaced(authHdr, cfg.forwardNames, k) ==>
        && (k in u.header <==> NonBlank(authHdr[k]) != [])
        && (k in u.header ==> u.header[k] == NonBlank(authHdr[k]))
    ensures var u := UpstreamRequest(cfg, r, authHdr);
      !Replaced(authHdr, cfg.forwardNames, k) ==>
        && (k in u.header <==> k in r.header)
        && (k in r.header ==> u.header[k] == r.header[k])
  {
    ForwardedAt(r.header, authHdr, cfg.forwardNames, k);
    if |cfg.forwardNames| == 0 {
      assert !Replaced(authHdr, cfg.forwardNames, k);
    }
  }

  /**
   * Every round trip calls the authorization service at most once and upstream at
   * most once, authorization first; authorization is skipped exactly when the
   * request is bypassed, and upstream is reached exactly on a bypass or an allow.
   */
  lemma PipelineCalls(cfg: Config, peer: Sent -> Reply, r: Sent)
    ensures var o := Pipeline(cfg, peer, r);
      && CountLeg(o.calls, ToAuth) == (if Bypass(cfg, r) then 0 else 1)
      && CountLeg(o.calls, ToUpstream) == (if o.branch == Bypassed || o.branch == Allowed then 1 else 0)
      && (forall i, j :: 0 <= i < j < |o.calls| ==> o.calls[i].leg == ToAuth && o.calls[j].leg == ToUpstream)
      && (o.branch == Bypassed <==> Bypass(cfg, r))
  {
    var o := Pipeline(cfg, peer, r);
    if o.branch == Allowed {
      CountLegPair(o.calls[0], o.calls[1]);
    } else {
      CountLegOne(o.calls[0]);
    }
  }

  lemma CountLegOne(c: Call)
    ensures CountLeg([c], ToAuth) == (if c.leg == ToAuth then 1 else 0)
    ensures CountLeg([c], ToUpstream) == (if c.leg == ToUpstream then 1 else 0)
  {
    assert [c][1..] == [];
  }

  lemma CountLegPair(c: Call, d: Call)
    ensures CountLeg([c, d], ToAuth) == (if c.leg == ToAuth then 1 else 0) + (if d.leg == ToAuth then 1 else 0)
    ensures CountLeg([c, d], ToUpstream) == (if c.leg == ToUpstream then 1 else 0) + (if d.leg == ToUpstream then 1 else 0)
  {
    assert [c, d][1..] == [d];
    CountLegOne(d);
  }

  /** Without an allowlist the upstream request keeps the client's headers whatever the authorization response says. */
  lemma PipelineNoAllowlist(cfg: Config, peer: Sent -> Reply, r: Sent)
    requires cfg.forwardNames == []
    ensures forall i :: 0 <= i < |Pipeline(cfg, peer, r).calls| && Pipeline(cfg, peer, r).calls[i].leg == ToUpstream ==>
      Pipeline(cfg, peer, r).calls[i].request.header == r.header
  {
  }

  /**
   * With MAX_BODY_SIZE_MB from -2^43 to zero the authorization service sees an empty
   * body, and a positive setting below 2^43 peeks that many mebibytes (or the whole
   * body when shorter). Outside that range the shift wraps (see PeekWraps).
   */
  lemma PeekSize(cfg: Config, r: Sent)
    ensures cfg.maxBodyMb <= 0 && -0x800_0000_0000 <= cfg.maxBodyMb ==> AuthRequest(cfg, r).body == []
    ensures 0 < cfg.maxBodyMb < 0x800_0000_0000 ==>
      |AuthRequest(cfg, r).body| == Min(cfg.maxBodyMb as int * 0x10_0000, |r.body|)
  {
    if -0x800_0000_0000 <= cfg.maxBodyMb < 0x800_0000_0000 {
      ShiftLeft20Exact(cfg.maxBodyMb);
    }
  }

  /**
   * Below -2^43 the shifted limit wraps to a positive number: one mebibyte below
   * -2^43 lets the authorization service see the whole body of any request shorter
   * than 2^63 - 2^20 bytes, while exactly 2^43 lets it see nothing.
   */
  lemma PeekWraps(cfg: Config, r: Sent)
    ensures cfg.maxBodyMb == -0x800_0000_0001 && |r.body| <= TwoTo63 - 0x10_0000 ==>
      AuthRequest(cfg, r).body == r.body
    ensures cfg.maxBodyMb == 0x800_0000_0000 ==> AuthRequest(cfg, r).body == []
  {
    ShiftLeft20Wraps();
  }

  /**
   * The include pattern sees the decoded path while X-Orig-Uri carries the escaped
   * one: `/public%2Fdata` is authorized when the pattern matches `/public/data`,
   * and the authorization service is told the escaped form.
   */
  lemma EscapedPathExample(cfg: Config, r: Sent)
    requires r.url.path == "/public/data" && r.url.escapedPath == "/public%2Fdata" && r.url.rawQuery == ""
    requires cfg.includes("/public/data") && r.verb == "GET"
    ensures !Bypass(cfg, r)
    ensures var h := AuthRequest(cfg, r).header;
      "X-Orig-Uri" in h && h["X-Orig-Uri"] == ["/public%2Fdata"]
  {
    AuthHeadersShape(r);
  }

  /**
   * A denial with status 403 and an X-Reason header reaches the client as 403 with
   * the same X-Reason and an empty body, whatever the upstream would have said.
   */
  lemma DenyExample(cfg: Config, peer: Sent -> Reply, r: Sent)
    requires !Bypass(cfg, r)
    requires peer(AuthRequest(cfg, r)) == Delivered(Response(403, "403 Forbidden", map["X-Reason" := ["bad signature"]], [1, 2, 3]))
    ensures Pipeline(cfg, peer, r).reply
      == Delivered(Response(403, "403 Forbidden", map["X-Reason" := ["bad signature"]], []))
    ensures |Pipeline(cfg, peer, r).calls| == 1 && Pipeline(cfg, peer, r).drained == 3
  {
  }

  // ------------------------------------------------------------------
  // The objects RoundTrip works on
  // ------------------------------------------------------------------

  /** An outgoing *http.Request: the fields the proxy reads or rewrites, and a body that may be absent. */
  class Request {
    var verb: string
    var url: Url
    var host: string
    var header: Header
    var body: Reader?

    ghost predicate Valid()
      reads this, body
    {
      body != null ==> body.Valid()
    }

    /** What a peer is handed: the fields the proxy reads or sets and the part of the body not read yet (none when there is no body). */
    function Wire(): Sent
      reads this, body
      requires Valid()
    {
      Sent(verb, url, host, header, if body == null then [] else body.Unread())
    }

    constructor (verb: string, url: Url, host: string, header: Header, body: Reader?)
      requires body != null ==> body.Valid()
      ensures this.verb == verb && this.url == url && this.host == host
      ensures this.header == header && this.body == body
      ensures Valid()
    {
      this.verb := verb;
      this.url := url;
      this.host := host;
      this.header := header;
      this.body := body;
    }

    /** Request.Clone: a new request with the same fields that shares this request's body. */
    method Clone() returns (out: Request)
      requires Valid()
      ensures fresh(out)
      ensures out.body == body
      ensures out.Valid() && out.Wire() == Wire()
    {
      out := new Request(verb, url, host, header, body);
    }

    /** Points the request at `up`: URL scheme and host, and the Host header. */
    method RetargetTo(up: Url)
      requires Valid()
      modifies this`url, this`host
      ensures Valid()
      ensures Wire() == Retargeted(old(Wire()), up)
    {
      url := url.(scheme := up.scheme, host := up.host);
      host := up.host;
    }

    /** The inner loop of step 4a: Header.Add(name, v) for every non-empty v, in order. */
    method AddValues(name: string, values: seq<string>)
      modifies this`header
      ensures header == AddNonBlank(old(header), name, values)
    {
      ghost var h0 := header;
      for j := 0 to |values|
        invariant header == AddNonBlank(h0, name, values[..j])
      {
        assert values[..j + 1][..j] == values[..j];
        if values[j] != "" {
          header := Add(header, name, values[j]);
        }
      }
      assert values[..|values|] == values;
    }

    /** The loop of step 4a: for each allowlisted name with values, replace this request's values by the non-empty ones. */
    method ForwardAuthHeaders(authHdr: Header, names: seq<string>)
      modifies this`header
      ensures header == Forwarded(old(header), authHdr, names)
    {
      ghost var h0 := header;
      for i := 0 to |names|
        invariant header == Forwarded(h0, authHdr, names[..i])
      {
        var name := names[i];
        assert names[..i + 1][..i] == names[..i];
        var values := Values(authHdr, name);
        if |values| == 0 {
          continue;
        }
        header := Del(header, name);
        AddValues(name, values);
      }
      assert names[..|names|] == names;
    }
  }

  /**
   * authTransport: the configuration it was started with and the round tripper it
   * delegates to, here the function `peer`; `trace` records every call made through it.
   */
  class AuthTransport {
    const cfg: Config
    const peer: Sent -> Reply
    ghost var trace: seq<Call>

    constructor (cfg: Config, peer: Sent -> Reply)
      ensures this.cfg == cfg && this.peer == peer && trace == []
    {
      this.cfg := cfg;
      this.peer := peer;
      trace := [];
    }

    /** One round trip through the underlying transport, recorded under `leg`. */
    method Send(ghost leg: Leg, out: Request) returns (reply: Reply)
      requires out.Valid()
      modifies this`trace
      ensures trace == old(trace) + [Call(leg, out.Wire())]
      ensures reply == peer(out.Wire())
    {
      trace := trace + [Call(leg, out.Wire())];
      reply := peer(out.Wire());
    }

    /**
     * Step 1: reads at most `limit` bytes from the body, then gives the request a
     * body that replays those bytes before the unread rest.
     */
    method PeekBody(r: Request, limit: int) returns (bodyCopy: seq<byte>)
      requires r.Valid()
      modifies r`body, r.body
      ensures r.Valid()
      ensures r.Wire() == old(r.Wire())
      ensures bodyCopy == Capture(old(r.Wire()).body, limit)
    {
      bodyCopy := [];
      if r.body != null {
        ghost var rest := r.body.Unread();
        var peek := r.body.ReadAllLimited(limit);
        CaptureReplay(rest, limit);
        bodyCopy := peek;
        var replay := new Reader(peek + r.body.Unread());
        r.body := replay;
      }
    }

    /** Step 2: the authorization request for `r`, carrying `bodyCopy`. */
    method NewAuthRequest(r: Request, bodyCopy: seq<byte>) returns (authReq: Request)
      requires r.Valid()
      requires bodyCopy == Capture(r.Wire().body, PeekLimit(cfg))
      ensures fresh(authReq) && fresh(authReq.body)
      ensures authReq.Valid() && authReq.Wire() == AuthRequest(cfg, r.Wire())
    {
      var hdr := CloneSubset(r.header);
      hdr := Set(hdr, OrigUri, RequestUri(r.url));
      hdr := Set(hdr, OrigMethod, r.verb);
      var authBody := new Reader(bodyCopy);
      authReq := new Request(cfg.authMethod, cfg.authEndpoint, cfg.authEndpoint.host, hdr, authBody);
    }

    /** Step 4: the clone of `r` that goes upstream, with the allowlisted headers of `authHdr`. */
    method NewUpstreamRequest(r: Request, authHdr: Header) returns (out: Request)
      requires r.Valid()
      ensures fresh(out) && out.body == r.body
      ensures out.Valid() && out.Wire() == UpstreamRequest(cfg, r.Wire(), authHdr)
    {
      out := r.Clone();
      out.RetargetTo(cfg.upstream);
      if |cfg.forwardNames| > 0 {
        out.ForwardAuthHeaders(authHdr, cfg.forwardNames);
      }
    }

    /** The bypass: a retargeted clone of `r` goes upstream. */
    method Forward(r: Request) returns (reply: Reply)
      requires r.Valid()
      modifies this`trace
      ensures trace == old(trace) + [Call(ToUpstream, Retargeted(r.Wire(), cfg.upstream))]
      ensures reply == peer(Retargeted(r.Wire(), cfg.upstream))
    {
      var out := r.Clone();
      out.RetargetTo(cfg.upstream);
      reply := Send(ToUpstream, out);
    }

    /** Steps 1 and 2: peek at the body, then send the authorization request. */
    method Authorize(r: Request) returns (authReply: Reply)
      requires r.Valid()
      modifies this`trace, r`body, r.body
      ensures r.Valid() && r.Wire() == old(r.Wire())
      ensures trace == old(trace) + [Call(ToAuth, AuthRequest(cfg, old(r.Wire())))]
      ensures authReply == peer(AuthRequest(cfg, old(r.Wire())))
    {
      var bodyCopy := PeekBody(r, PeekLimit(cfg));
      var authReq := NewAuthRequest(r, bodyCopy);
      authReply := Send(ToAuth, authReq);
    }

    /** drainAndClose on a response body holding `content`: reads at most 4 KiB of it, then closes it. */
    method Drain(content: seq<byte>) returns (drained: nat)
      ensures drained == Min(DrainLimit, |content|)
    {
      var respBody := new Reader(content);
      drained := respBody.DrainAndClose();
    }

    /** Step 4: the original request goes upstream with the allowlisted headers of `authHdr`. */
    method SendUpstream(r: Request, authHdr: Header) returns (reply: Reply)
      requires r.Valid()
      modifies this`trace
      ensures trace == old(trace) + [Call(ToUpstream, UpstreamRequest(cfg, r.Wire(), authHdr))]
      ensures reply == peer(UpstreamRequest(cfg, r.Wire(), authHdr))
    {
      var out := NewUpstreamRequest(r, authHdr);
      reply := Send(ToUpstream, out);
    }

    /**
     * RoundTrip: makes exactly the calls the specification lists, returns its reply,
     * and leaves the fields of the client request as they were, with a body that,
     * after the peek, reads as before: the peeked prefix is put back in front of the
     * unread rest.
     */
    method RoundTrip(r: Request) returns (reply: Reply, ghost branch: Branch, ghost drained: nat)
      requires r.Valid()
      modifies this`trace, r`body, r.body
      ensures r.Valid()
      ensures r.Wire() == old(r.Wire())
      ensures trace == old(trace) + Pipeline(cfg, peer, old(r.Wire())).calls
      ensures reply == Pipeline(cfg, peer, old(r.Wire())).reply
      ensures branch == Pipeline(cfg, peer, old(r.Wire())).branch
      ensures drained == Pipeline(cfg, peer, old(r.Wire())).drained
    {
      ghost var w := r.Wire();
      if !cfg.includes(r.url.path) || r.verb == MethodOptions {
        reply := Forward(r);
        branch, drained := Bypassed, 0;
        PipelineBypassed(cfg, peer, w);
        return;
      }
      var authReply := Authorize(r);
      if authReply.TransportError? {
        reply := authReply;
        branch, drained := AuthFailed, 0;
        PipelineAuthFailed(cfg, peer, w);
        return;
      }
      var authResp := authReply.response;
      if authResp.statusCode != StatusOK {
        reply := Delivered(Response(authResp.statusCode, authResp.status, authResp.header, []));
        var d := Drain(authResp.body);
        branch, drained := Denied, d;
        PipelineDenied(cfg, peer, w);
        return;
      }
      reply := SendUpstream(r, authResp.header);
      // the deferred drainAndClose runs after the upstream round trip
      var d := Drain(authResp.body);
      branch, drained := Allowed, d;
      PipelineAllowed(cfg, peer, w);
    }
  }
}
