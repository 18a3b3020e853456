# auth-proxy: the authorizing round tripper

This project models `authTransport.RoundTrip` of the auth-proxy in `main.go`. The proxy is a
small reverse proxy. It sends every request whose decoded path matches the include pattern, other
than an OPTIONS request, to an authorization service before sending it upstream. The authorization
request carries:

- the client's `Signature` and `Signature-Date` headers;
- `X-Orig-Uri` and `X-Orig-Method`;
- a prefix of the body, at most `MAX_BODY_SIZE_MB << 20` bytes.

Any status other than 200 is relayed to the client with the authorization service's status and
headers and an empty body. On 200 the original request goes upstream with its whole body. An
optional allowlist names authorization-response headers that replace the client's headers of
the same name. The authorization response body is drained (at most 4 KiB) and closed.

The model has these modules:

- `Text`: strings.TrimSpace, strings.Split, http.CanonicalHeaderKey, ASCII strings.ToLower and trimNL.
- `Numbers`: 64-bit `int`, strconv.Atoi and the wrapping shift `<< 20`.
- `Body`: the `Reader` class. It models a body stream, with the bounded read `io.ReadAll(io.LimitReader(...))` and `drainAndClose`.
- `Http`: header maps with Go's canonicalising `Values`, `Del`, `Add` and `Set`; `URL.RequestURI`; responses.
- `Settings`: env, envInt, envBool, parseHeaderList and the configuration `init()` leaves behind.
- `Headers`: cloneSubset and the header-forwarding loop of step 4a.
- `Gateway`: the specification function `Pipeline`, the `Request` class and the `AuthTransport` class, whose `RoundTrip` is proved against `Pipeline`.

The underlying `http.RoundTripper` is the function `peer`, from the request as sent to a
response or a transport error. Each `AuthTransport` keeps a ghost `trace` of the calls made
through it, and each call is tagged with the leg it serves (authorization or upstream).
`RoundTrip` is proved to do four things:

- append exactly `Pipeline(...).calls` to the trace;
- return `Pipeline(...).reply`;
- drain the number of bytes `Pipeline` says;
- leave the fields of the client request as they were, with a body that, after the peek, reads as before: the peeked prefix is put back in front of the unread rest.

The lemmas on `Pipeline` state what the code guarantees:

- Bypassed requests never reach the authorization service.
- The authorization service is called at most once, and always before upstream.
- Denials carry the authorization status and headers and an empty body.
- Allowed requests go upstream unchanged except for their target and the allowlisted headers.

Two consequences of the code are easy to miss:

- An allowlisted header that the authorization response carries with only empty values ends up deleted from the upstream request. It is not left as it was (`Headers.ForwardedAt`).
- The authorization response body is drained on the allowed path as well as on a denial. The drain is deferred, so on the allowed path it runs after the upstream round trip.

## Model

| member | source | states |
|---|---|---|
| Settings.Env | main.go:232-237 | env as a function of the looked-up value; what the settings end up holding is stated by Settings.LoadConfigDefaults, Settings.LoadConfigMethod and Settings.LoadConfigNames |
| Settings.EnvInt | main.go:239-246 | envInt as a function of the looked-up value; its meaning is stated by Settings.EnvIntMeaning |
| Settings.EnvBool | main.go:248-258 | envBool as a function of the looked-up value; its meaning is stated by Settings.EnvBoolMeaning |
| Settings.EnvIntMeaning | main.go:239-246 | every int64 written in decimal is read back by envInt; an empty value or text Atoi rejects gives the default |
| Settings.EnvBoolMeaning | main.go:248-258 | 1/true/yes in any letter case give true, 0/false/no give false, every other value gives the default |
| Settings.ToLowerMatches | main.go:250-253 | lower-casing a value gives a lower-case keyword exactly when the value equals the keyword ignoring case |
| Settings.Normalize | main.go:217 | one item trimmed and canonicalised; stated by Settings.NormalizeAllAt and Settings.HeaderListFromItems |
| Settings.Dedup | main.go:218-225 | first occurrences of the non-blank names; stated by Settings.DedupProperties |
| Settings.HeaderList | main.go:212-228 | the value of parseHeaderList; stated by Settings.HeaderListShape, Settings.HeaderListFromItems and Settings.HeaderListCoversItems |
| Settings.ParseHeaderList | main.go:212-228 | the loop with its `seen` set computes the first occurrence of each non-blank trimmed and canonicalised item, in order |
| Settings.ParseStep | main.go:216-226 | one loop iteration drops a blank or already-seen name and appends any other |
| Settings.DedupProperties | main.go:218-226 | the de-duplicated list has no blank, no repeat, holds exactly the non-blank names, and keeps them in order of first occurrence |
| Settings.HeaderListShape | main.go:212-228 | parseHeaderList returns no blank name, no name twice, and exactly the non-blank normalised items |
| Settings.HeaderListFromItems | main.go:213-217 | every returned name is the canonical trimmed form of some comma-separated item, and is itself canonical |
| Settings.HeaderListCoversItems | main.go:216-225 | every item that is not blank after trimming and canonicalising appears in the result |
| Settings.NormalizeAll | main.go:216-217 | there is one normalised name per item |
| Settings.NormalizeAllAt | main.go:216-217 | the k-th normalised name is the canonical trimmed k-th item |
| Settings.FirstIndex | main.go:221-225 | the position of the first occurrence of a name, which decides the order parseHeaderList keeps |
| Settings.BlankNames | main.go:48 | a value that is all white space splits into a single item whose name is empty |
| Settings.ForwardList | main.go:48-50 | the allowlist init() stores; stated by Settings.ForwardListIsHeaderList |
| Settings.ForwardListIsHeaderList | main.go:48-50 | init()'s blank-value guard changes nothing: a blank value parses to the empty list anyway |
| Settings.LoadConfigNames | main.go:29-32 | every loaded allowlist is parseHeaderList of AUTH_FORWARD_AUTH_HEADERS, of canonical, non-blank, distinct names |
| Settings.LoadConfig | main.go:21-50 | the settings init() leaves behind; their properties are stated by Settings.LoadConfigNames, Settings.LoadConfigMethod, Settings.LoadConfigRejectsMethod and Settings.LoadConfigDefaults |
| Settings.ValidMethod | main.go:108 | the method check of http.NewRequest; stated by Settings.LoadConfigMethod and Settings.LoadConfigRejectsMethod |
| Settings.LoadConfigMethod | main.go:25 | every loaded authorization method is AUTH_METHOD (POST when unset), a non-empty token, so http.NewRequest at main.go:108 accepts it |
| Settings.LoadConfigRejectsMethod | main.go:108 | an AUTH_METHOD with a non-token character, which http.NewRequest refuses, gives no configuration |
| Settings.LoadConfigDefaults | main.go:21-29 | with nothing set, init() leaves the default listen address, upstream, endpoint, POST, 30 MB, debug off and no allowlist |
| Text.TrimLeftSpec | main.go:217 | the left trim keeps a suffix not starting with white space, and drops only white space |
| Text.TrimRightSpec | main.go:217 | the right trim keeps a prefix not ending with white space, and drops only white space |
| Text.TrimSpaceSpec | main.go:48 | TrimSpace cuts out a slice with only white space around it and no white space at either end, and is empty exactly for all-white-space input |
| Text.TrimSpace | main.go:217 | strings.TrimSpace; its meaning is stated by Text.TrimSpaceSpec |
| Text.Split | main.go:213 | strings.Split gives at least one piece, and no piece holds a comma |
| Text.JoinSplit | main.go:213 | joining the pieces of strings.Split with commas gives the input back |
| Text.SplitCommaFreePrefix | main.go:213 | a comma-free prefix glues onto the first piece of what follows it |
| Text.SplitJoin | main.go:213 | splitting comma-free pieces joined by commas gives the pieces back |
| Text.TokenFromAll | main.go:204 | the token test over a suffix holds exactly when every character there is a token character |
| Text.FoldChar | main.go:204 | case folding keeps '-' and nothing else becomes '-'; folding to upper leaves no lower-case letter, folding to lower no upper-case one |
| Text.FoldCharToken | main.go:204 | case folding keeps a character a token character, and keeps any other character out |
| Text.FoldFrom | main.go:204 | folding a suffix keeps its length |
| Text.FoldFromAt | main.go:204 | each folded character is upper-cased exactly when it starts a word |
| Text.CanonicalHeaderKey | main.go:204 | canonicalisation keeps the length of the name |
| Text.CanonicalHeaderKeyAt | main.go:204 | in a token name, each letter is upper-cased at the start of a word (first, or after '-') and lower-cased elsewhere |
| Text.CanonicalHeaderKeyNonToken | main.go:204 | a name holding a non-token character is returned unchanged |
| Text.CanonicalHeaderKeyIdempotent | main.go:217 | canonicalising a canonical name changes nothing |
| Text.LowerChar | main.go:250 | ASCII lower-casing of one character; its use is stated by Settings.ToLowerMatches |
| Text.ToLower | main.go:250 | strings.ToLower on ASCII letters; Settings.ToLowerMatches states that it matches a lower-case keyword exactly when the value equals it ignoring case |
| Text.TrimNL | main.go:195 | the escaped text holds no newline and is longer by one character per newline |
| Text.UnescapeTrimNL | main.go:195 | on text without backslashes the newline escaping is undone by reading `\n` back |
| Numbers.DigitValue | main.go:241 | a digit's value is below ten |
| Numbers.Digit | main.go:241 | the digit for a value below ten is a digit with that value |
| Numbers.DigitsValueDecimal | main.go:241 | the value of the decimal spelling of n is n |
| Numbers.Decimal | main.go:241 | a decimal spelling is non-empty, all digits and unsigned |
| Numbers.Atoi | main.go:241 | strconv.Atoi on int64; stated by Numbers.AtoiFormat, Numbers.AtoiRejects, Numbers.AtoiNonDigit, Numbers.AtoiPlus, Numbers.AtoiLeadingZero, Numbers.AtoiOutOfRange and Numbers.AtoiEdge |
| Numbers.AtoiFormat | main.go:241 | Atoi reads back every 64-bit integer written in decimal |
| Numbers.AtoiRejects | main.go:241 | the empty value, and any value ending in a non-digit (a lone sign among them), are errors |
| Numbers.AtoiNonDigit | main.go:241 | a non-digit at any position after an optional leading sign (a space, a second sign, a separator) is an error |
| Numbers.AtoiPlus | main.go:241 | a leading `+` gives the same result as the unsigned text |
| Numbers.AtoiLeadingZero | main.go:241 | a leading zero before digits does not change the value |
| Numbers.AtoiOutOfRange | main.go:241 | decimal text of 2^63 or more without a minus sign, or of more than 2^63 with one, is an error, so envInt falls back to its default |
| Numbers.AtoiEdge | main.go:241 | 9223372036854775808 is rejected while its negation reads back as the smallest int64 |
| Numbers.ShiftLeft20 | main.go:102 | `maxBodySize<<20` is the int64 congruent to maxBodySize * 2^20 modulo 2^64 |
| Numbers.ShiftLeft20Exact | main.go:102 | within 2^43 either side of zero the shift is exact multiplication by 2^20 |
| Numbers.ShiftLeft20Wraps | main.go:102 | outside ±2^43 the shift wraps: 2^43 gives the most negative int64, and -2^43 - 1 gives the positive 2^63 - 2^20 |
| Body.LimitedLength | main.go:102 | the length of a bounded read; its meaning is stated by Body.CaptureReplay and Gateway.PeekSize |
| Body.Capture | main.go:102 | the bytes of the bounded read; stated by Body.CaptureReplay and Body.Reader.ReadAllLimited |
| Body.CaptureReplay | main.go:102-104 | the peeked prefix followed by the rest is the whole body; a limit at or below zero captures nothing, a limit past the end captures everything |
| Body.Reader.constructor | main.go:104 | a new reader is open and will yield exactly its bytes |
| Body.Reader.ReadAllLimited | main.go:102 | the bytes read are the bounded prefix of what was unread, and the reader advances past exactly them |
| Body.Reader.DrainAndClose | main.go:230 | drainAndClose discards min(4096, unread) bytes and closes the stream |
| Http.Values | main.go:148 | Header.Values looks up the canonical form of the name; its use is stated by Headers.ForwardedAt |
| Http.Del | main.go:152 | Header.Del; its meaning through lookup is stated by Http.DelValues |
| Http.DelValues | main.go:152 | after Del no spelling of the name that canonicalises the same way reads any value, and every other name reads as before |
| Http.Add | main.go:155 | Header.Add; its meaning through lookup is stated by Http.AddValues |
| Http.AddValues | main.go:155 | after Add every spelling of the name reads its old values followed by the new one, and every other name reads as before |
| Http.Set | main.go:110-111 | Header.Set; its meaning through lookup is stated by Http.SetValues |
| Http.SetValues | main.go:110-111 | after Set every spelling of the name reads exactly the one value, and every other name reads as before |
| Http.ValuesCanonical | main.go:148 | looking up a name and its canonical form find the same values |
| Http.RequestUri | main.go:110 | the request URI is never empty, starts with the escaped path, and is that path ("/" when empty) when there is no query |
| Headers.IsSignatureKey | main.go:204-205 | the switch on the canonical key; its use is stated by Headers.SignatureHeadersShape |
| Headers.SignatureHeaders | main.go:201-210 | what cloneSubset returns; stated by Headers.SignatureHeadersShape |
| Headers.SignatureHeadersShape | main.go:201-210 | the signature entries are exactly the source entries whose canonical key is Signature or Signature-Date, with their original keys and values |
| Headers.CloneSubset | main.go:201-210 | the loop over the source map copies exactly the signature entries |
| Headers.NonBlank | main.go:153-157 | the kept values contain no empty string, exactly the non-empty values, and are never more |
| Headers.AddNonBlank | main.go:153-157 | the inner Add loop as a fold; its effect is stated by Headers.AddNonBlankEffect |
| Headers.AddNonBlankEffect | main.go:153-157 | the Add loop writes only the canonical key, appending the non-empty values in order; other keys are untouched |
| Headers.ForwardOne | main.go:148-157 | one pass of the outer loop; stated by Headers.ForwardOneElsewhere and Headers.ForwardedAt |
| Headers.Forwarded | main.go:146-158 | the outer loop as a fold over the allowlist; stated key by key by Headers.ForwardedAt |
| Headers.ForwardOneElsewhere | main.go:147-158 | one pass for a name leaves every other canonical key alone |
| Headers.ForwardedAt | main.go:146-158 | an allowlisted key with values in the authorization response holds exactly its non-empty values (and is deleted when there are none); every other key keeps what it had |
| Headers.ForwardedClientExample | main.go:146-158 | with allowlist {Client, Service} and a response carrying only `Client: alice`, Client becomes alice and Service is not added |
| Gateway.Bypass | main.go:82 | the bypass test on the decoded path and the method; its consequences are stated by Gateway.PipelineBypassed and Gateway.PipelineCalls |
| Gateway.Retargeted | main.go:84-87 | the retargeted clone; stated by Gateway.PipelineBypassed |
| Gateway.PeekLimit | main.go:102 | the peek limit `maxBodySize<<20`; stated by Numbers.ShiftLeft20 and Gateway.PeekSize |
| Gateway.AuthHeaders | main.go:109-111 | the authorization request headers; stated by Gateway.AuthHeadersShape |
| Gateway.AuthRequest | main.go:107-111 | the authorization request; stated by Gateway.PipelineAuthCall, Gateway.AuthHeadersShape and Gateway.PeekSize |
| Gateway.Denial | main.go:129-136 | the synthesized denial; stated by Gateway.PipelineDenied |
| Gateway.UpstreamRequest | main.go:140-162 | the request sent upstream after an allow; stated by Gateway.PipelineAllowed and Gateway.UpstreamHeaders |
| Gateway.Pipeline | main.go:80-169 | what one RoundTrip does; stated by the Gateway.Pipeline… lemmas and implemented by Gateway.AuthTransport.RoundTrip |
| Gateway.SetCanonicalKey | main.go:110-111 | Set with an already canonical key adds that key with one value and keeps the rest |
| Gateway.OrigKeys | main.go:110-111 | X-Orig-Uri and X-Orig-Method are already canonical and are not signature keys |
| Gateway.OrigUriKey | main.go:110 | X-Orig-Uri is its own canonical form |
| Gateway.OrigMethodKey | main.go:111 | X-Orig-Method is its own canonical form |
| Gateway.AuthHeadersShape | main.go:108-111 | the authorization request carries exactly the client's signature headers (unchanged), X-Orig-Uri with the request URI, and X-Orig-Method with the method |
| Gateway.PipelineBypassed | main.go:82-91 | a bypassed request goes upstream once and only; it keeps its method, headers, body, path and query, and takes the upstream's scheme and host |
| Gateway.PipelineAuthCall | main.go:99-117 | otherwise the first call is to the authorization endpoint with the configured method and the body prefix the peek limit allows |
| Gateway.PipelineAuthFailed | main.go:117-120 | a transport error from the authorization service is returned as is and upstream is never called |
| Gateway.PipelineDenied | main.go:121-137 | any status but 200 reaches the client with the authorization status, status text and headers and an empty body; upstream is never called; up to 4096 bytes are drained |
| Gateway.PipelineAllowed | main.go:121-168 | on 200 the request goes upstream retargeted with its whole body, the upstream reply is returned, and the authorization body is drained |
| Gateway.UpstreamHeaders | main.go:145-162 | after an allow, allowlisted headers with values in the authorization response are replaced by their non-empty values and all others are kept |
| Gateway.PipelineCalls | main.go:80-169 | at most one authorization call and at most one upstream call, authorization first; authorization is skipped exactly on a bypass; upstream is reached exactly on a bypass or an allow |
| Gateway.PipelineNoAllowlist | main.go:146 | without an allowlist the upstream request keeps the client's headers |
| Gateway.PeekSize | main.go:102 | MAX_BODY_SIZE_MB from -2^43 to zero gives the authorization service an empty body; a positive setting below 2^43 peeks that many mebibytes or the whole shorter body |
| Gateway.PeekWraps | main.go:102 | the wrap reaches the peek: a setting of -2^43 - 1 shows the authorization service the whole body (up to 2^63 - 2^20 bytes), and 2^43 shows it nothing |
| Gateway.EscapedPathExample | main.go:82-110 | the include pattern sees the decoded path `/public/data` of `/public%2Fdata`, while X-Orig-Uri carries the escaped form |
| Gateway.DenyExample | main.go:128-137 | a 403 with X-Reason reaches the client as 403 with the same X-Reason and no body, after one call; three body bytes are drained |
| Gateway.Request.constructor | main.go:108 | a new request holds the given method, URL, Host, headers and body |
| Gateway.Request.Clone | main.go:84 | the clone is a new request with the same fields that shares the body |
| Gateway.Request.RetargetTo | main.go:85-87 | retargeting sets the URL scheme and host and the Host field to the upstream's and changes nothing else |
| Gateway.Request.AddValues | main.go:153-157 | the inner loop leaves the headers as the non-blank Add fold says |
| Gateway.Request.ForwardAuthHeaders | main.go:147-158 | the outer loop leaves the headers as the forwarding rule says, name by name in allowlist order |
| Gateway.AuthTransport.constructor | main.go:60 | a new transport has the configuration and the underlying round tripper, and no calls yet |
| Gateway.AuthTransport.Send | main.go:117 | one round trip through the underlying transport, recorded in the trace with its leg |
| Gateway.AuthTransport.PeekBody | main.go:99-105 | the peek returns the bounded prefix of the body and leaves the request with a body that reads as before |
| Gateway.AuthTransport.NewAuthRequest | main.go:108-111 | the built authorization request is exactly the specified one |
| Gateway.AuthTransport.NewUpstreamRequest | main.go:140-162 | the built upstream request is exactly the specified one and shares the client body |
| Gateway.AuthTransport.Forward | main.go:84-91 | the bypass sends the retargeted clone upstream and returns its reply |
| Gateway.AuthTransport.Authorize | main.go:99-117 | peeking and sending make exactly the specified authorization call and leave the client request's fields as they were, with a body that reads as before |
| Gateway.AuthTransport.Drain | main.go:121 | the deferred drain reads min(4096, body length) bytes of the authorization response |
| Gateway.AuthTransport.SendUpstream | main.go:139-168 | the allowed request goes upstream exactly as specified and its reply is returned |
| Gateway.AuthTransport.RoundTrip | main.go:80-169 | RoundTrip makes exactly the specified calls in order, returns and drains what the specification says, and leaves the client request's fields as they were with a body that reads as before |

## Left out

- `main`, the HTTP server, its listen address and header timeout: these are process start-up, outside RoundTrip.
- Debug logging (`dump`, `log.Printf`): output only. `debug` is read into the configuration, and `trimNL` is modelled as a function.
- Go's regexp engine: the compiled `AUTH_INCLUDE_REGEX` is the abstract predicate `includes` of the configuration.
- regexp.Compile and url.Parse are parameters of `LoadConfig`. A failure is `None`, which stands for `log.Fatalf`.
- Settings.LoadConfig refuses, at start-up, an AUTH_ENDPOINT that url.Parse rejects and an AUTH_METHOD that is not an HTTP token. The code starts anyway. Then `http.NewRequest` fails at main.go:108 on every request that needs authorization, the ignored error leaves a nil request, and main.go:109 panics. Bypassed requests still work. The model does not capture that per-request panic. `Pipeline` is stated for any configuration, but only configurations that LoadConfig returns carry a valid method and endpoint.
- Network I/O: the underlying transport is the function `peer`, from the request as sent to a reply or a transport error. Two calls with the same request get the same reply.
- The transport reading the request body: `Sent` records the bytes not yet read, and the model does not advance the client body when a peer reads it.
- io.MultiReader and io.NopCloser: the replaying body is a fresh `Reader` over the captured prefix followed by the unread rest. The bytes a reader obtains are the same.
- Errors of `io.ReadAll` (ignored by the code) and of closing a body: bodies in the model never fail.
- Contexts, cancellation and concurrent use of the transport: the model is sequential.
- The Proto, ProtoMajor and ProtoMinor fields of the synthesized denial response (constants), its `Request` field (the client request `r`, main.go:133) and ContentLength are not part of `Response`.
- Host port normalisation and URL escaping: `Url` holds the decoded path (which the include pattern sees) and the escaped path (which URL.EscapedPath gives and X-Orig-Uri carries) as two independent fields. How one is derived from the other, opaque URLs and `ForceQuery` are not modelled.
- Headers the underlying transport adds on the wire (Content-Length, User-Agent, Accept-Encoding) are not part of `Sent`, which holds only the fields the proxy reads or sets.
- Text.ToLower: only ASCII letters are lower-cased. Go's strings.ToLower also lowers other letters, but the only ones that lower into ASCII are U+0130 (to 'i') and U+212A (to 'k'). Neither letter occurs in the six envBool keywords, so EnvBool gives the same result.
- Text.TrimSpace: strings are sequences of characters, so UTF-8 decoding of invalid byte sequences is not modelled.
