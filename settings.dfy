/**
 * The process-wide configuration of main.go: the pure meaning of the env, envInt
 * and envBool lookups, the parsing of AUTH_FORWARD_AUTH_HEADERS (parseHeaderList)
 * and the record init() leaves behind.
 */
module Settings {
  import opened Wrappers
  import opened Text
  import opened Numbers
  import opened Http

  // ------------------------------------------------------------------
  // env, envInt, envBool: from the looked-up value ("" when unset) to a setting
  // ------------------------------------------------------------------

  /** env: a non-empty value wins over the default. */
  function Env(v: string, def: string): (r: string)
    ensures v != "" ==> r == v
    ensures v == "" ==> r == def
  {
    if v != "" then v else def
  }

  /** envInt: the value when it is non-empty and Atoi accepts it, the default otherwise. */
  function EnvInt(v: string, def: int64): int64 {
    if v != "" then
      match Atoi(v)
      case Some(i) => i
      case None => def
    else def
  }

  /** Every integer written in decimal is read back; "" and text Atoi rejects give the default. */
  lemma EnvIntMeaning(i: int64, v: string, def: int64)
    ensures EnvInt(Format(i), def) == i
    ensures v == "" || Atoi(v) == None ==> EnvInt(v, def) == def
  {
    AtoiFormat(i);
  }

  /** envBool: 1/true/yes and 0/false/no in any letter case; anything else keeps the default. */
  function EnvBool(v: string, def: bool): bool {
    if v != "" then
      var l := ToLower(v);
      if l == "1" || l == "true" || l == "yes" then true
      else if l == "0" || l == "false" || l == "no" then false
      else def
    else def
  }

  /** strings.EqualFold for ASCII letters: same length, equal after lower-casing each character. */
  predicate SameIgnoringCase(a: string, b: string) {
    |a| == |b| && forall i :: 0 <= i < |a| ==> LowerChar(a[i]) == LowerChar(b[i])
  }

  /** No upper-case ASCII letter in w[i..]. */
  predicate LowerFrom(w: string, i: nat)
    decreases |w| - i
  {
    i >= |w| || (!('A' <= w[i] <= 'Z') && LowerFrom(w, i + 1))
  }

  lemma {:induction false} LowerFromAll(w: string, i: nat)
    requires LowerFrom(w, i)
    ensures forall j :: i <= j < |w| ==> !('A' <= w[j] <= 'Z')
    decreases |w| - i
  {
    if i < |w| {
      LowerFromAll(w, i + 1);
    }
  }

  /** For a word without upper-case letters, lower-casing v gives the word exactly when v equals it ignoring case. */
  lemma ToLowerMatches(v: string, w: string)
    requires LowerFrom(w, 0)
    ensures ToLower(v) == w <==> SameIgnoringCase(v, w)
  {
    LowerFromAll(w, 0);
    if SameIgnoringCase(v, w) {
      assert forall i :: 0 <= i < |w| ==> LowerChar(w[i]) == w[i];
      assert ToLower(v) == w;
    }
  }

  predicate Truthy(v: string) {
    SameIgnoringCase(v, "1") || SameIgnoringCase(v, "true") || SameIgnoringCase(v, "yes")
  }

  predicate Falsy(v: string) {
    SameIgnoringCase(v, "0") || SameIgnoringCase(v, "false") || SameIgnoringCase(v, "no")
  }

  /** What a DEBUG-style value means: truthy words give true, falsy words false, the rest the default. */
  lemma EnvBoolMeaning(v: string, def: bool)
    ensures Truthy(v) ==> EnvBool(v, def)
    ensures Falsy(v) ==> !EnvBool(v, def)
    ensures !Truthy(v) && !Falsy(v) ==> EnvBool(v, def) == def
  {
    ToLowerMatches(v, "1");
    ToLowerMatches(v, "true");
    ToLowerMatches(v, "yes");
    ToLowerMatches(v, "0");
    ToLowerMatches(v, "false");
    ToLowerMatches(v, "no");
  }

  // ------------------------------------------------------------------
  // parseHeaderList
  // ------------------------------------------------------------------

  /** One comma-separated item as parseHeaderList sees it: trimmed, then canonicalised. */
  function Normalize(item: string): string {
    CanonicalHeaderKey(TrimSpace(item))
  }

  /** The normalised items, in order, blanks and repeats included. */
  function NormalizeAll(items: seq<string>): (names: seq<string>)
    ensures |names| == |items|
  {
    if items == [] then [] else [Normalize(items[0])] + NormalizeAll(items[1..])
  }

  lemma {:induction false} NormalizeAllAt(items: seq<string>, k: nat)
    requires k < |items|
    ensures NormalizeAll(items)[k] == Normalize(items[k])
  {
    if k > 0 {
      NormalizeAllAt(items[1..], k - 1);
    }
  }

  /** The normalised items of a raw list. */
  function Names(raw: string): seq<string> {
    NormalizeAll(Split(raw))
  }

  /** The first occurrence of each non-blank element, in order of first occurrence. */
  function Dedup(xs: seq<string>): seq<string>
    decreases |xs|
  {
    if xs == [] then []
    else
      var kept := Dedup(xs[..|xs| - 1]);
      var x := xs[|xs| - 1];
      if x == "" || x in kept then kept else kept + [x]
  }

  lemma PrefixSnoc<T>(s: seq<T>, i: nat)
    requires i < |s|
    ensures s[..i + 1] == s[..i] + [s[i]]
  {
  }

  lemma DedupSnoc(xs: seq<string>, x: string)
    ensures Dedup(xs + [x]) == if x == "" || x in Dedup(xs) then Dedup(xs) else Dedup(xs) + [x]
  {
    assert (xs + [x])[..|xs|] == xs;
  }

  /** The position of the first occurrence of x in xs. */
  function FirstIndex(xs: seq<string>, x: string): (i: nat)
    requires x in xs
    ensures i < |xs| && xs[i] == x && x !in xs[..i]
    decreases |xs|
  {
    if x in xs[..|xs| - 1] then
      var i := FirstIndex(xs[..|xs| - 1], x);
      assert xs[..|xs| - 1][..i] == xs[..i];
      i
    else |xs| - 1
  }

  lemma {:induction false} DedupProperties(xs: seq<string>)
    ensures "" !in Dedup(xs)
    ensures forall i, j :: 0 <= i < j < |Dedup(xs)| ==> Dedup(xs)[i] != Dedup(xs)[j]
    ensures forall x :: x in Dedup(xs) <==> x in xs && x != ""
    ensures forall i, j :: 0 <= i < j < |Dedup(xs)| ==>
              && Dedup(xs)[i] in xs && Dedup(xs)[j] in xs
              && FirstIndex(xs, Dedup(xs)[i]) < FirstIndex(xs, Dedup(xs)[j])
    decreases |xs|
  {
    if xs != [] {
      var p := xs[..|xs| - 1];
      var x := xs[|xs| - 1];
      DedupProperties(p);
      var kept := Dedup(p);
      assert xs == p + [x];
      forall y | y in kept ensures FirstIndex(xs, y) == FirstIndex(p, y) {
      }
      if !(x == "" || x in kept) {
        assert x !in p;
        assert FirstIndex(xs, x) == |xs| - 1;
        var r := kept + [x];
        forall i | 0 <= i < |kept| ensures FirstIndex(xs, r[i]) < FirstIndex(xs, x) {
          assert r[i] in kept;
        }
      }
    }
  }

  /** The value of parseHeaderList(raw). */
  function HeaderList(raw: string): seq<string> {
    Dedup(Names(raw))
  }

  /** parseHeaderList: split on commas, trim and canonicalise, drop blanks and repeats. */
  method ParseHeaderList(raw: string) returns (out: seq<string>)
    ensures out == HeaderList(raw)
  {
    var items := Split(raw);
    ghost var names := Names(raw);
    out := [];
    var seen: set<string> := {};
    for i := 0 to |items|
      invariant out == Dedup(names[..i])
      invariant forall x :: x in seen <==> x in out
    {
      var h := Normalize(items[i]);
      ParseStep(items, i, out);
      if h == "" || h in seen {
        continue;
      }
      seen := seen + {h};
      out := out + [h];
    }
    assert names[..|items|] == names;
  }

  /** One iteration of parseHeaderList's loop: the next name is dropped when blank or seen, appended otherwise. */
  lemma ParseStep(items: seq<string>, i: nat, out: seq<string>)
    requires i < |items|
    requires out == Dedup(NormalizeAll(items)[..i])
    ensures var h := Normalize(items[i]);
      Dedup(NormalizeAll(items)[..i + 1]) == if h == "" || h in out then out else out + [h]
  {
    var names := NormalizeAll(items);
    NormalizeAllAt(items, i);
    PrefixSnoc(names, i);
    DedupSnoc(names[..i], names[i]);
  }

  /** Every name parseHeaderList keeps is the canonical trimmed form of some item, and is canonical. */
  lemma HeaderListFromItems(raw: string, x: string)
    requires x in HeaderList(raw)
    ensures exists k :: 0 <= k < |Split(raw)| && Normalize(Split(raw)[k]) == x
    ensures CanonicalHeaderKey(x) == x
  {
    var names := Names(raw);
    DedupProperties(names);
    var k := FirstIndex(names, x);
    NormalizeAllAt(Split(raw), k);
    assert Normalize(Split(raw)[k]) == x;
    CanonicalHeaderKeyIdempotent(TrimSpace(Split(raw)[k]));
  }

  /** Every item that is not blank after trimming is represented in the parsed list. */
  lemma HeaderListCoversItems(raw: string, k: nat)
    requires k < |Split(raw)| && Normalize(Split(raw)[k]) != ""
    ensures Normalize(Split(raw)[k]) in HeaderList(raw)
  {
    var names := Names(raw);
    DedupProperties(names);
    NormalizeAllAt(Split(raw), k);
    assert names[k] in names;
  }

  /** What parseHeaderList promises of its list: no blank and no repeated name, and nothing but the items' names. */
  lemma HeaderListShape(raw: string)
    ensures "" !in HeaderList(raw)
    ensures forall i, j :: 0 <= i < j < |HeaderList(raw)| ==> HeaderList(raw)[i] != HeaderList(raw)[j]
    ensures forall x :: x in HeaderList(raw) <==> x in Names(raw) && x != ""
  {
    var names := Names(raw);
    assert HeaderList(raw) == Dedup(names);
    DedupProperties(names);
  }

  /** init(): the allowlist is parsed only when the raw value is not blank. */
  function ForwardList(raw: string): seq<string> {
    if TrimSpace(raw) != "" then HeaderList(raw) else []
  }

  /** The blank-value guard of init() changes nothing: a blank value already parses to no names. */
  lemma ForwardListIsHeaderList(raw: string)
    ensures ForwardList(raw) == HeaderList(raw)
  {
    if TrimSpace(raw) == "" {
      BlankNames(raw);
      assert Dedup([""]) == [];
    }
  }

  /** A blank value is a single item, whose name is empty. */
  lemma BlankNames(raw: string)
    requires TrimSpace(raw) == ""
    ensures Names(raw) == [""]
  {
    TrimSpaceSpec(raw);
    assert ',' !in raw;
    SplitJoin([raw]);
    assert Split(raw) == [raw];
    assert NormalizeAll([raw]) == [Normalize(raw)];
  }

  // ------------------------------------------------------------------
  // The configuration record
  // ------------------------------------------------------------------

  /** The settings init() resolves once; never changed afterwards. */
  datatype Config = Config(
    listenAddr: string,
    upstream: Url,
    authEndpoint: Url,
    authMethod: string,
    includes: string -> bool,
    maxBodyMb: int64,
    debug: bool,
    forwardNames: seq<string>)

  const DefaultListenAddr: string := ":8082"
  const DefaultUpstreamAddr: string := "https://127.0.0.1:8080"
  const DefaultAuthEndpoint: string := "http://127.0.0.1:8181/v1/signature"
  const DefaultAuthMethod: string := "POST"
  const DefaultMaxBodyMb: int64 := 30
  const DefaultIncludeRegex: string := "^/public(?:/|$)"

  /** The method check of http.NewRequest: a non-empty HTTP token. */
  predicate ValidMethod(m: string) {
    m != "" && TokenFrom(m, 0)
  }

  /**
   * The package variables and init(): each setting from its environment value or
   * default; `parseUrl` and `compile` stand for url.Parse and regexp.Compile, and a
   * failure of either is the fatal start-up error (None). A configuration with which
   * http.NewRequest cannot build the authorization request (an endpoint url.Parse
   * rejects, a method that is not a token) is rejected here as well.
   */
  function LoadConfig(
    getenv: string -> string,
    parseUrl: string -> Option<Url>,
    compile: string -> Option<string -> bool>): Option<Config>
  {
    var upstreamAddr := Env(getenv("UPSTREAM_ADDR"), DefaultUpstreamAddr);
    var authAddr := Env(getenv("AUTH_ENDPOINT"), DefaultAuthEndpoint);
    var pattern := Env(getenv("AUTH_INCLUDE_REGEX"), DefaultIncludeRegex);
    var up := parseUrl(upstreamAddr);
    var re := compile(pattern);
    var auth := parseUrl(authAddr);
    var verb := Env(getenv("AUTH_METHOD"), DefaultAuthMethod);
    if up.None? || re.None? || auth.None? || !ValidMethod(verb) then None
    else
      Some(Config(
        Env(getenv("LISTEN_ADDR"), DefaultListenAddr),
        up.value,
        auth.value,
        verb,
        re.value,
        EnvInt(getenv("MAX_BODY_SIZE_MB"), DefaultMaxBodyMb),
        EnvBool(getenv("DEBUG"), false),
        ForwardList(getenv("AUTH_FORWARD_AUTH_HEADERS"))))
  }

  /** The allowlist every loaded configuration carries: canonical, non-blank, duplicate-free names. */
  ghost predicate ValidNames(names: seq<string>) {
    && (forall i :: 0 <= i < |names| ==> names[i] != "" && CanonicalHeaderKey(names[i]) == names[i])
    && (forall i, j :: 0 <= i < j < |names| ==> names[i] != names[j])
  }

  lemma LoadConfigNames(
    getenv: string -> string,
    parseUrl: string -> Option<Url>,
    compile: string -> Option<string -> bool>)
    requires LoadConfig(getenv, parseUrl, compile).Some?
    ensures ValidNames(LoadConfig(getenv, parseUrl, compile).value.forwardNames)
    ensures LoadConfig(getenv, parseUrl, compile).value.forwardNames
              == HeaderList(getenv("AUTH_FORWARD_AUTH_HEADERS"))
  {
    var raw := getenv("AUTH_FORWARD_AUTH_HEADERS");
    ForwardListIsHeaderList(raw);
    HeaderListShape(raw);
    var names := HeaderList(raw);
    forall i | 0 <= i < |names| ensures CanonicalHeaderKey(names[i]) == names[i] {
      HeaderListFromItems(raw, names[i]);
    }
  }

  /** Every loaded configuration carries AUTH_METHOD (POST when unset), and it is an HTTP token. */
  lemma LoadConfigMethod(
    getenv: string -> string,
    parseUrl: string -> Option<Url>,
    compile: string -> Option<string -> bool>)
    requires LoadConfig(getenv, parseUrl, compile).Some?
    ensures var m := LoadConfig(getenv, parseUrl, compile).value.authMethod;
      && m == Env(getenv("AUTH_METHOD"), DefaultAuthMethod)
      && m != ""
      && forall i :: 0 <= i < |m| ==> IsTokenChar(m[i])
  {
    TokenFromAll(LoadConfig(getenv, parseUrl, compile).value.authMethod, 0);
  }

  /** An AUTH_METHOD holding a character that is not a token character is refused. */
  lemma LoadConfigRejectsMethod(
    getenv: string -> string,
    parseUrl: string -> Option<Url>,
    compile: string -> Option<string -> bool>,
    j: nat)
    requires j < |getenv("AUTH_METHOD")| && !IsTokenChar(getenv("AUTH_METHOD")[j])
    ensures LoadConfig(getenv, parseUrl, compile).None?
  {
    TokenFromAll(getenv("AUTH_METHOD"), 0);
  }

  /** With nothing set in the environment the defaults apply and no header is forwarded. */
  lemma LoadConfigDefaults(
    getenv: string -> string,
    parseUrl: string -> Option<Url>,
    compile: string -> Option<string -> bool>)
    requires forall k :: getenv(k) == ""
    requires parseUrl(DefaultUpstreamAddr).Some? && parseUrl(DefaultAuthEndpoint).Some?
    requires compile(DefaultIncludeRegex).Some?
    ensures LoadConfig(getenv, parseUrl, compile).Some?
    ensures var cfg := LoadConfig(getenv, parseUrl, compile).value;
      && cfg.listenAddr == DefaultListenAddr
      && cfg.upstream == parseUrl(DefaultUpstreamAddr).value
      && cfg.authEndpoint == parseUrl(DefaultAuthEndpoint).value
      && cfg.authMethod == DefaultAuthMethod
      && cfg.maxBodyMb == DefaultMaxBodyMb
      && !cfg.debug
      && cfg.forwardNames == []
  {
    assert Env(getenv("UPSTREAM_ADDR"), DefaultUpstreamAddr) == DefaultUpstreamAddr;
    assert Env(getenv("AUTH_ENDPOINT"), DefaultAuthEndpoint) == DefaultAuthEndpoint;
    assert Env(getenv("AUTH_INCLUDE_REGEX"), DefaultIncludeRegex) == DefaultIncludeRegex;
    assert EnvInt(getenv("MAX_BODY_SIZE_MB"), DefaultMaxBodyMb) == DefaultMaxBodyMb;
    assert !EnvBool(getenv("DEBUG"), false);
    assert Env(getenv("AUTH_METHOD"), DefaultAuthMethod) == DefaultAuthMethod;
    assert ValidMethod(DefaultAuthMethod) by {
      assert TokenFrom(DefaultAuthMethod, 3);
    }
    assert ForwardList(getenv("AUTH_FORWARD_AUTH_HEADERS")) == [] by {
      assert getenv("AUTH_FORWARD_AUTH_HEADERS") == "";
      assert TrimSpace("") == "";
    }
  }
}
