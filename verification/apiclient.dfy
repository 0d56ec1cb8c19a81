/** `LineAPIClient`: where replies go, the cached channel access token and
    its refresh, and the chunked push calls. HTTP itself is not modelled:
    a push call is the request value that would be sent, the credential
    endpoint's answer is an input, and the token cache directory is a map
    from file name to the decoded file. */
module LineApiClient {
  import opened Wrappers
  import opened Bytes
  import opened Json
  import opened LinePayloads

  // -------------------------------------------------------------- identity

  /** `$replyId`: `userId`, `groupId` or `roomId`, and its value. */
  datatype ReplyId = ReplyId(key: Bytes, value: Json)

  /** `$request->events[0]`: the first item of a list, null otherwise. */
  function FirstEvent(request: Json): Json {
    var events := Get(request, "events");
    if events.JArr? && |events.items| > 0 then events.items[0] else JNull
  }

  /** The constructor's reply target: the key is the source type followed by
      `Id`, the value is the source's field of that name. */
  function ReplyIdOf(request: Json): (r: Result<ReplyId>)
    ensures var source := Get(FirstEvent(request), "source");
      r.Success? <==> PhpString(Get(source, "type")).Some?
    ensures r.Success? ==>
      var source := Get(FirstEvent(request), "source");
      r.value.key == PhpString(Get(source, "type")).value + "Id" &&
      r.value.value == Get(source, r.value.key)
  {
    var source := Get(FirstEvent(request), "source");
    var sourceType :- PhpString(Get(source, "type")).ToResult(NotConvertibleToString);
    var key := sourceType + "Id";
    Success(ReplyId(key, Get(source, key)))
  }

  /** `getExternalId`: `'line-' . $replyId['value']`. */
  function ExternalId(replyId: ReplyId): (r: Result<Bytes>)
    ensures r.Success? <==> PhpString(replyId.value).Some?
    ensures r.Success? ==> r.value == "line-" + PhpString(replyId.value).value
  {
    var v :- PhpString(replyId.value).ToResult(NotConvertibleToString);
    Success("line-" + v)
  }

  /** `buildExternalIdFromRequest`: the same id, read straight from the
      webhook body; `None` when the body has no event with a source. */
  function BuildExternalIdFromRequest(request: Json): (r: Result<Option<Bytes>>)
    ensures !Has(request, "events") || !Has(FirstEvent(request), "source") ==> r == Success(None)
    ensures Has(request, "events") && Has(FirstEvent(request), "source") && ReplyIdOf(request).Success? ==>
      r.Success? == ExternalId(ReplyIdOf(request).value).Success? &&
      (r.Success? ==> r.value == Some(ExternalId(ReplyIdOf(request).value).value))
  {
    if Has(request, "events") && Has(FirstEvent(request), "source") then
      var replyId :- ReplyIdOf(request);
      var id :- ExternalId(replyId);
      Success(Some(id))
    else Success(None)
  }

  /** `rtrim($dir, '/')`. */
  function TrimTrailingSlashes(dir: Bytes): (r: Bytes)
    ensures |r| <= |dir|
    ensures r == dir[..|r|]
    ensures |r| == 0 || r[|r| - 1] != '/'
    ensures forall i :: |r| <= i < |dir| ==> dir[i] == '/'
  {
    if |dir| > 0 && dir[|dir| - 1] == '/' then TrimTrailingSlashes(dir[..|dir| - 1]) else dir
  }

  /** The token cache file of a conversation: the temp directory, then
      `cached-line-accesstoken-`, then the reply-target value with every
      character outside `[A-Za-z0-9 ]` removed. */
  function CacheFileName(tempDir: Bytes, replyId: ReplyId): (r: Result<Bytes>)
    ensures r.Success? <==> PhpString(replyId.value).Some?
    ensures r.Success? ==>
      r.value == TrimTrailingSlashes(tempDir) + "/" + "cached-line-accesstoken-" +
                 KeepAlnumOrSpace(PhpString(replyId.value).value)
  {
    var v :- PhpString(replyId.value).ToResult(NotConvertibleToString);
    Success(TrimTrailingSlashes(tempDir) + "/" + "cached-line-accesstoken-" + KeepAlnumOrSpace(v))
  }

  // ------------------------------------------------------------------ token

  /** `$accessToken` and `$ttl` (milliseconds since the epoch). */
  datatype TokenState = TokenState(accessToken: Option<Bytes>, ttl: Option<int>)

  const NoToken := TokenState(None, None)

  /** A decoded cache file that is an object. */
  datatype CachedToken = CachedToken(accessToken: Option<Bytes>, expiration: Option<int>)

  /** Cache files by name; a missing name is a missing file or one that does
      not decode to an object. */
  type TokenCache = map<Bytes, CachedToken>

  /** The credential endpoint's decoded answer. `messsage` is the misspelled
      field the source tests. */
  datatype TokenResponse = TokenResponse(
    accessToken: Option<Bytes>,
    expiresIn: Option<int>,
    message: Option<Bytes>,
    messsage: Option<Bytes>)

  /** Declared by the source and never read. */
  const TokenRefreshOffset: int := 180

  /** `validLineAccessToken`, with `now` the value of `time()` in seconds:
      no safety margin before the expiry. */
  predicate ValidToken(st: TokenState, now: int) {
    st.accessToken.Some? && st.ttl.Some? && st.ttl.value > now * 1000
  }

  /** `$cached->expiration < time() * 1000`. A missing expiration is PHP
      `null`, which compares below any non-zero number. */
  predicate CachedExpired(c: CachedToken, now: int) {
    match c.expiration
    case Some(e) => e < now * 1000
    case None => now * 1000 != 0
  }

  /** `getLineAccessTokenFromCache`: adopt the cached record unless it is
      missing or expired; otherwise keep the in-memory state. */
  function FromCache(st: TokenState, cache: TokenCache, file: Bytes, now: int): (r: TokenState)
    ensures file in cache && cache[file].expiration.Some? && cache[file].expiration.value >= now * 1000 ==>
      r == TokenState(cache[file].accessToken, cache[file].expiration)
    ensures file !in cache || CachedExpired(cache[file], now) ==> r == st
  {
    if file in cache && !CachedExpired(cache[file], now) then
      TokenState(cache[file].accessToken, cache[file].expiration)
    else st
  }

  /** `(time() + expires_in) * 1000`; a missing `expires_in` counts as 0. */
  function Expiration(resp: TokenResponse, now: int): int {
    (now + resp.expiresIn.GetOr(0)) * 1000
  }

  /** `getLineAccessTokenFromAPI` as written: the guard reads `messsage`,
      so a plain `{message: "Unauthorized"}` answer is stored as a token. */
  function FromApiAsWritten(cache: TokenCache, file: Bytes, now: int, resp: TokenResponse): (r: Result<(TokenState, TokenCache)>)
    ensures r.Failure? <==> resp.messsage.Some? && resp.message == Some("Unauthorized")
    ensures r.Success? ==>
      r.value.0 == TokenState(resp.accessToken, Some(Expiration(resp, now))) &&
      r.value.1 == cache[file := CachedToken(resp.accessToken, Some(Expiration(resp, now)))]
  {
    if resp.messsage.Some? && resp.message == Some("Unauthorized") then Failure(InvalidKeySecret)
    else
      var expiration := Expiration(resp, now);
      Success((TokenState(resp.accessToken, Some(expiration)),
               cache[file := CachedToken(resp.accessToken, Some(expiration))]))
  }

  /** The endpoint's unauthorized answer. */
  const UnauthorizedResponse := TokenResponse(None, None, Some("Unauthorized"), None)

  /** The guard never fires on the endpoint's real unauthorized answer: the
      client carries on with a null token whose ttl is already past. */
  lemma UnauthorizedSlipsThrough(cache: TokenCache, file: Bytes, now: int)
    ensures var r := FromApiAsWritten(cache, file, now, UnauthorizedResponse);
      r.Success? && r.value.0 == TokenState(None, Some(now * 1000)) && !ValidToken(r.value.0, now)
  {
  }

  /** `getLineAccessTokenFromAPI` with the guard on the field the endpoint
      actually sends: an unauthorized answer is an error, anything else is
      stored in memory and in the cache file. */
  function FromApi(cache: TokenCache, file: Bytes, now: int, resp: TokenResponse): (r: Result<(TokenState, TokenCache)>)
    ensures r.Failure? <==> resp.message == Some("Unauthorized")
    ensures r.Success? ==>
      r.value.0 == TokenState(resp.accessToken, Some(Expiration(resp, now))) &&
      r.value.1 == cache[file := CachedToken(resp.accessToken, Some(Expiration(resp, now)))]
    ensures r.Success? && resp.accessToken.Some? && resp.expiresIn.GetOr(0) > 0 ==> ValidToken(r.value.0, now)
  {
    if resp.message == Some("Unauthorized") then Failure(InvalidKeySecret)
    else
      var expiration := Expiration(resp, now);
      Success((TokenState(resp.accessToken, Some(expiration)),
               cache[file := CachedToken(resp.accessToken, Some(expiration))]))
  }

  /** The unauthorized answer is refused once the guard reads `message`. */
  lemma UnauthorizedRefused(cache: TokenCache, file: Bytes, now: int)
    ensures FromApi(cache, file, now, UnauthorizedResponse) == Failure(InvalidKeySecret)
  {
  }

  /** Which `getLineAccessTokenFromAPI` a refresh calls: the code as
      written, or the one whose guard reads `message`. */
  datatype TokenGuard = AsWritten | Corrected

  function FetchToken(guard: TokenGuard, cache: TokenCache, file: Bytes, now: int, resp: TokenResponse): Result<(TokenState, TokenCache)> {
    if guard == AsWritten then FromApiAsWritten(cache, file, now, resp) else FromApi(cache, file, now, resp)
  }

  /** Where the token in use came from. */
  datatype TokenSource = Current | Cached | CredentialEndpoint

  datatype Refreshed = Refreshed(token: TokenState, cache: TokenCache, source: TokenSource)

  /** `updateLineAccessToken`: keep a valid token; else try the cache file;
      only if that leaves the token invalid, ask the credential endpoint
      (OAuth 2.0 client-credentials grant, section 4.4 of RFC 6749), whose
      answer is `resp`, read through `guard`. */
  function UpdateLineAccessToken(guard: TokenGuard, st: TokenState, cache: TokenCache, file: Bytes, now: int,
                                 resp: TokenResponse): (r: Result<Refreshed>)
    ensures ValidToken(st, now) ==> r == Success(Refreshed(st, cache, Current))
    ensures r.Success? && r.value.source == Cached ==>
      !ValidToken(st, now) && r.value.token == FromCache(st, cache, file, now) &&
      ValidToken(r.value.token, now) && r.value.cache == cache
    ensures r.Failure? || (r.Success? && r.value.source == CredentialEndpoint) <==>
      !ValidToken(st, now) && !ValidToken(FromCache(st, cache, file, now), now)
    ensures r.Failure? ==> FetchToken(guard, cache, file, now, resp).Failure?
    ensures r.Success? && r.value.source == CredentialEndpoint ==>
      FetchToken(guard, cache, file, now, resp) == Success((r.value.token, r.value.cache))
  {
    if ValidToken(st, now) then Success(Refreshed(st, cache, Current))
    else
      var fromCache := FromCache(st, cache, file, now);
      if ValidToken(fromCache, now) then Success(Refreshed(fromCache, cache, Cached))
      else
        var (token, cache') :- FetchToken(guard, cache, file, now, resp);
        Success(Refreshed(token, cache', CredentialEndpoint))
  }

  /** After a refresh the token is valid, unless the endpoint was asked and
      its answer carried no token or a non-positive lifetime. */
  lemma RefreshedTokenIsValid(guard: TokenGuard, st: TokenState, cache: TokenCache, file: Bytes, now: int, resp: TokenResponse)
    requires UpdateLineAccessToken(guard, st, cache, file, now, resp).Success?
    ensures var r := UpdateLineAccessToken(guard, st, cache, file, now, resp).value;
      r.source != CredentialEndpoint || (resp.accessToken.Some? && resp.expiresIn.GetOr(0) > 0) ==>
        ValidToken(r.token, now)
  {
  }

  /** The credential endpoint's answer only matters when it is asked. */
  lemma ResponseIgnoredUnlessAsked(guard: TokenGuard, st: TokenState, cache: TokenCache, file: Bytes, now: int,
                                   resp1: TokenResponse, resp2: TokenResponse)
    requires ValidToken(st, now) || ValidToken(FromCache(st, cache, file, now), now)
    ensures UpdateLineAccessToken(guard, st, cache, file, now, resp1) == UpdateLineAccessToken(guard, st, cache, file, now, resp2)
  {
  }

  // ------------------------------------------------------------------ client

  /** The client's configuration, as the connector passes it in. */
  datatype LineSettings = LineSettings(
    channelId: Json,
    channelSecret: Json,
    switcherDestination: Json,
    switcherSecret: Json,
    serviceCode: Json)

  datatype Client = Client(settings: LineSettings, replyId: Option<ReplyId>, token: TokenState)

  /** The constructor: without `events` the client has no reply target and
      no token; otherwise it derives both and refreshes the token, starting
      from none. */
  function NewClient(guard: TokenGuard, settings: LineSettings, request: Json, tempDir: Bytes, cache: TokenCache,
                     now: int, resp: TokenResponse): (r: Result<(Client, TokenCache)>)
    ensures !Has(request, "events") ==> r == Success((Client(settings, None, NoToken), cache))
    ensures Has(request, "events") && r.Success? ==>
      ReplyIdOf(request).Success? && r.value.0.replyId == Some(ReplyIdOf(request).value) &&
      r.value.0.settings == settings &&
      CacheFileName(tempDir, ReplyIdOf(request).value).Success? &&
      var file := CacheFileName(tempDir, ReplyIdOf(request).value).value;
      UpdateLineAccessToken(guard, NoToken, cache, file, now, resp).Success? &&
      r.value.0.token == UpdateLineAccessToken(guard, NoToken, cache, file, now, resp).value.token &&
      r.value.1 == UpdateLineAccessToken(guard, NoToken, cache, file, now, resp).value.cache
    ensures Has(request, "events") && ReplyIdOf(request).Success? && CacheFileName(tempDir, ReplyIdOf(request).value).Success?
      ==> (r.Success? <==> UpdateLineAccessToken(guard, NoToken, cache,
                         CacheFileName(tempDir, ReplyIdOf(request).value).value, now, resp).Success?)
  {
    if !Has(request, "events") then Success((Client(settings, None, NoToken), cache))
    else
      var replyId :- ReplyIdOf(request);
      var file :- CacheFileName(tempDir, replyId);
      var refreshed :- UpdateLineAccessToken(guard, NoToken, cache, file, now, resp);
      Success((Client(settings, Some(replyId), refreshed.token), refreshed.cache))
  }

  /** As written, a client whose credentials the endpoint refuses is still
      built, with a null token; the error only shows once it tries to send
      (`line()` finds no token). */
  lemma UnauthorizedClientAsWritten(settings: LineSettings, request: Json, tempDir: Bytes, cache: TokenCache, now: int)
    requires Has(request, "events") && ReplyIdOf(request).Success?
    requires CacheFileName(tempDir, ReplyIdOf(request).value).Success?
    requires CacheFileName(tempDir, ReplyIdOf(request).value).value !in cache
    ensures var r := NewClient(AsWritten, settings, request, tempDir, cache, now, UnauthorizedResponse);
      r.Success? && r.value.0.token.accessToken.None? && LineHeaders(r.value.0).Failure?
  {
    UnauthorizedSlipsThrough(cache, CacheFileName(tempDir, ReplyIdOf(request).value).value, now);
  }

  /** With the corrected guard the constructor itself refuses them. */
  lemma UnauthorizedClientRefused(settings: LineSettings, request: Json, tempDir: Bytes, cache: TokenCache, now: int)
    requires Has(request, "events") && ReplyIdOf(request).Success?
    requires CacheFileName(tempDir, ReplyIdOf(request).value).Success?
    requires CacheFileName(tempDir, ReplyIdOf(request).value).value !in cache
    ensures NewClient(Corrected, settings, request, tempDir, cache, now, UnauthorizedResponse) == Failure(InvalidKeySecret)
  {
    UnauthorizedRefused(cache, CacheFileName(tempDir, ReplyIdOf(request).value).value, now);
  }

  /** A request header. */
  datatype Header = Header(name: Bytes, value: Json)

  /** The headers of `line()`: the bearer token, then the switcher secret
      and the service code when they are truthy. */
  function LineHeaders(c: Client): (r: Result<seq<Header>>)
    ensures r.Failure? <==> c.token.accessToken.None?
    ensures r.Success? ==> |r.value| > 0 && r.value[0] == Header("Authorization", JStr("Bearer " + c.token.accessToken.value))
    ensures r.Success? ==>
      ((exists h :: h in r.value && h.name == "X-Line-SwitcherSecret") <==> Truthy(c.settings.switcherSecret))
    ensures r.Success? ==>
      ((exists h :: h in r.value && h.name == "X-Line-ServiceCode") <==> Truthy(c.settings.serviceCode))
  {
    if c.token.accessToken.None? then Failure(NoAccessToken)
    else
      var auth := [Header("Authorization", JStr("Bearer " + c.token.accessToken.value))];
      var secret := if Truthy(c.settings.switcherSecret) then [Header("X-Line-SwitcherSecret", c.settings.switcherSecret)] else [];
      var code := if Truthy(c.settings.serviceCode) then [Header("X-Line-ServiceCode", c.settings.serviceCode)] else [];
      var r := auth + secret + code;
      assert secret != [] ==> r[|auth|] == secret[0];
      assert code != [] ==> r[|r| - 1] == code[0];
      Success(r)
  }

  // ---------------------------------------------------------------- sending

  /** `array_chunk($xs, $n)`. */
  function Chunk<T>(xs: seq<T>, n: nat): seq<seq<T>>
    requires n > 0
    decreases |xs|
  {
    if |xs| == 0 then []
    else if |xs| <= n then [xs]
    else [xs[..n]] + Chunk(xs[n..], n)
  }

  function Flatten<T>(xss: seq<seq<T>>): seq<T> {
    if |xss| == 0 then [] else xss[0] + Flatten(xss[1..])
  }

  /** Chunks rebuild the list. */
  lemma {:induction false} ChunkFlatten<T>(xs: seq<T>, n: nat)
    requires n > 0
    ensures Flatten(Chunk(xs, n)) == xs
    decreases |xs|
  {
    if |xs| > n {
      ChunkFlatten(xs[n..], n);
      var rest := Chunk(xs[n..], n);
      assert ([xs[..n]] + rest)[1..] == rest;
      assert xs == xs[..n] + xs[n..];
    } else if |xs| > 0 {
      assert [xs][1..] == [];
    }
  }

  /** Five messages to a push call give `ceil(|xs| / 5)` calls. */
  lemma {:induction false} ChunkCount<T>(xs: seq<T>)
    ensures |Chunk(xs, 5)| == (|xs| + 4) / 5
    decreases |xs|
  {
    if |xs| > 5 {
      ChunkCount(xs[5..]);
    }
  }

  /** No chunk is empty and none holds more than `n` items. */
  lemma {:induction false} ChunkSizes<T>(xs: seq<T>, n: nat)
    requires n > 0
    ensures forall i :: 0 <= i < |Chunk(xs, n)| ==> 0 < |Chunk(xs, n)[i]| <= n
    decreases |xs|
  {
    if |xs| > n {
      ChunkSizes(xs[n..], n);
      var rest := Chunk(xs[n..], n);
      assert Chunk(xs, n) == [xs[..n]] + rest;
      forall i | 0 <= i < |Chunk(xs, n)|
        ensures 0 < |Chunk(xs, n)[i]| <= n
      {
        if i > 0 {
          assert Chunk(xs, n)[i] == rest[i - 1];
        }
      }
    }
  }

  /** Messages per push call. */
  const MaxMessagesPerPush: nat := 5

  /** One `bot/message/push` call. */
  datatype PushCall = PushCall(to: Json, messages: seq<Payload>, headers: seq<Header>)

  /** `send`: one push call per chunk of five messages, all to the reply
      target; `line()` refuses every call when there is no token. */
  function Send(c: Client, messages: seq<Payload>): (r: Result<seq<PushCall>>)
    ensures |messages| == 0 ==> r == Success([])
    ensures |messages| > 0 ==> (r.Failure? <==> c.token.accessToken.None?)
    ensures r.Success? ==> |r.value| == |Chunk(messages, MaxMessagesPerPush)|
    ensures r.Success? ==> forall i :: 0 <= i < |r.value| ==>
      r.value[i].messages == Chunk(messages, MaxMessagesPerPush)[i] &&
      r.value[i].to == (if c.replyId.Some? then c.replyId.value.value else JNull)
  {
    var chunks := Chunk(messages, MaxMessagesPerPush);
    if |chunks| == 0 then Success([])
    else
      var headers :- LineHeaders(c);
      var to := if c.replyId.Some? then c.replyId.value.value else JNull;
      Success(seq(|chunks|, i requires 0 <= i < |chunks| => PushCall(to, chunks[i], headers)))
  }

  /** The messages of all push calls, in call order. */
  function Pushed(calls: seq<PushCall>): seq<Payload> {
    if |calls| == 0 then [] else calls[0].messages + Pushed(calls[1..])
  }

  lemma {:induction false} PushedIsFlatten(calls: seq<PushCall>, chunks: seq<seq<Payload>>)
    requires |calls| == |chunks|
    requires forall i :: 0 <= i < |calls| ==> calls[i].messages == chunks[i]
    ensures Pushed(calls) == Flatten(chunks)
  {
    if |calls| > 0 {
      PushedIsFlatten(calls[1..], chunks[1..]);
    }
  }

  /** `N` messages go out in `ceil(N / 5)` calls of at most five messages,
      which together carry the list unchanged and in order. */
  lemma SendDeliversInOrder(c: Client, messages: seq<Payload>)
    requires Send(c, messages).Success?
    ensures var calls := Send(c, messages).value;
      |calls| == (|messages| + 4) / 5 &&
      Pushed(calls) == messages &&
      forall i :: 0 <= i < |calls| ==> 0 < |calls[i].messages| <= MaxMessagesPerPush
  {
    ChunkFlatten(messages, MaxMessagesPerPush);
    ChunkCount(messages);
    ChunkSizes(messages, MaxMessagesPerPush);
    PushedIsFlatten(Send(c, messages).value, Chunk(messages, MaxMessagesPerPush));
  }
}
