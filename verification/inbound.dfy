/** The LINE → chatbot half of `LineDigester`: classification of webhook
    events (`checkExternalMessageType` and the `isLine*` checkers) and the
    `digestFromLine*` digesters, combined by `digestToApi`. */
module LineInbound {
  import opened Wrappers
  import opened Bytes
  import opened Json
  import opened Context

  /** `$externalMessageTypes`. */
  datatype EventKind = Text | Postback | Sticker | Image | Audio | File | Location | Video | Unknown

  /** The order in which the checkers are tried. */
  const ExternalMessageTypes: seq<EventKind> :=
    [Text, Postback, Sticker, Image, Audio, File, Location, Video, Unknown]

  /** `isset($event->message) && $event->message->type === t`. */
  predicate MessageTypeIs(e: Json, t: Bytes) {
    Has(e, "message") && IsStr(Get(Get(e, "message"), "type"), t)
  }

  /** The `isLine*` checker of each kind. */
  predicate IsLine(k: EventKind, e: Json) {
    match k
    case Text => MessageTypeIs(e, "text")
    case Postback => Has(e, "postback") && IsStr(Get(e, "type"), "postback")
    case Sticker => MessageTypeIs(e, "sticker")
    case Image => MessageTypeIs(e, "image")
    case Audio => MessageTypeIs(e, "audio")
    case File => MessageTypeIs(e, "file")
    case Location => MessageTypeIs(e, "location")
    case Video => MessageTypeIs(e, "video")
    case Unknown => true
  }

  /** Reference classification: the first kind, in checker order, whose
      checker accepts the event. */
  function Classify(e: Json): EventKind {
    if IsLine(Text, e) then Text
    else if IsLine(Postback, e) then Postback
    else if IsLine(Sticker, e) then Sticker
    else if IsLine(Image, e) then Image
    else if IsLine(Audio, e) then Audio
    else if IsLine(File, e) then File
    else if IsLine(Location, e) then Location
    else if IsLine(Video, e) then Video
    else Unknown
  }

  /** `checkExternalMessageType`: walk the checker list and stop at the first
      one that holds. `isLineUnknown` always holds, so the walk never falls
      off the end and only the first eight checkers need trying. */
  method CheckExternalMessageType(e: Json) returns (k: EventKind, pos: nat)
    ensures pos < |ExternalMessageTypes| && ExternalMessageTypes[pos] == k
    ensures IsLine(k, e)
    ensures forall j :: 0 <= j < pos ==> !IsLine(ExternalMessageTypes[j], e)
    ensures k == Classify(e)
  {
    var i := 0;
    while i < |ExternalMessageTypes| - 1
      invariant 0 <= i <= |ExternalMessageTypes| - 1
      invariant forall j :: 0 <= j < i ==> !IsLine(ExternalMessageTypes[j], e)
    {
      if IsLine(ExternalMessageTypes[i], e) {
        FirstMatchIsClassify(e, i);
        return ExternalMessageTypes[i], i;
      }
      i := i + 1;
    }
    assert !IsLine(ExternalMessageTypes[0], e) && !IsLine(ExternalMessageTypes[1], e)
        && !IsLine(ExternalMessageTypes[2], e) && !IsLine(ExternalMessageTypes[3], e)
        && !IsLine(ExternalMessageTypes[4], e) && !IsLine(ExternalMessageTypes[5], e)
        && !IsLine(ExternalMessageTypes[6], e) && !IsLine(ExternalMessageTypes[7], e);
    return Unknown, |ExternalMessageTypes| - 1;
  }

  /** The first accepting checker of the list is the reference classification. */
  lemma FirstMatchIsClassify(e: Json, i: nat)
    requires i < |ExternalMessageTypes| && IsLine(ExternalMessageTypes[i], e)
    requires forall j :: 0 <= j < i ==> !IsLine(ExternalMessageTypes[j], e)
    ensures Classify(e) == ExternalMessageTypes[i]
  {
    if i > 0 { assert !IsLine(ExternalMessageTypes[0], e); }
    if i > 1 { assert !IsLine(ExternalMessageTypes[1], e); }
    if i > 2 { assert !IsLine(ExternalMessageTypes[2], e); }
    if i > 3 { assert !IsLine(ExternalMessageTypes[3], e); }
    if i > 4 { assert !IsLine(ExternalMessageTypes[4], e); }
    if i > 5 { assert !IsLine(ExternalMessageTypes[5], e); }
    if i > 6 { assert !IsLine(ExternalMessageTypes[6], e); }
    if i > 7 { assert !IsLine(ExternalMessageTypes[7], e); }
  }

  /** An event with neither a message nor a postback is `unknown`. */
  lemma NoDiscriminantIsUnknown(e: Json)
    requires !Has(e, "message") && !Has(e, "postback")
    ensures Classify(e) == Unknown
  {
  }

  /** The kinds whose checker reads `message.type`. */
  predicate IsMessageKind(k: EventKind) {
    !(k == Postback || k == Unknown)
  }

  /** Message-type checkers test one field against distinct strings, so at
      most one of them holds and it is the classification unless the event
      is also a text message. */
  lemma MessageKindsExclusive(e: Json, k1: EventKind, k2: EventKind)
    requires IsMessageKind(k1) && IsMessageKind(k2)
    requires IsLine(k1, e) && IsLine(k2, e)
    ensures k1 == k2
  {
  }

  /** The digested request that stands for every unsupported event. */
  function UnknownTypeReply(env: Env): Json {
    SkipBotReply(Obj2("type", JStr("text"), "text", JStr(env.translate("unknownMessageType"))))
  }

  /** `['message' => m, 'skipBot' => true]`: a reply sent without asking the
      bot, always a single entry. */
  function SkipBotReply(m: Json): (r: Json)
    ensures Get(r, "message") == m && Get(r, "skipBot") == JBool(true)
    ensures !Has(r, "multiple_output")
  {
    var ms := [Member("message", m), Member("skipBot", JBool(true))];
    assert ms[1..][1..] == [];
    assert Lookup(ms, "multiple_output") == Lookup(ms[1..], "multiple_output");
    Obj2("message", m, "skipBot", JBool(true))
  }

  /** `digestFromLineText`. */
  function DigestText(e: Json): (r: Json)
    ensures Get(r, "message") == Get(Get(e, "message"), "text")
    ensures !Has(r, "skipBot") && !Has(r, "multiple_output")
  {
    var text := Get(Get(e, "message"), "text");
    Obj1Lacks("message", text, "skipBot");
    Obj1Lacks("message", text, "multiple_output");
    Obj1("message", text)
  }

  /** `explode('-', data)[0] === 'sessionSaved'`: the data is a session key. */
  predicate IsSessionKey(data: Bytes) {
    FirstSegment(data) == "sessionSaved"
  }

  /** `digestFromLinePostback`: a session key is resolved through the
      session, anything else is decoded as inline JSON. PHP 7's `json_decode`
      warns on a list or an object and yields null, so such data digests to
      null and the batch goes on. */
  function DigestPostback(e: Json, session: Session, env: Env): (r: Result<Json>)
    ensures r.Success?
    ensures var data := Get(Get(e, "postback"), "data");
      data.JStr? && IsSessionKey(data.s) ==> r.value == SessionGet(session, data.s, JNull)
    ensures var data := Get(Get(e, "postback"), "data");
      data.JStr? && !IsSessionKey(data.s) ==> r.value == env.decode(data.s)
    ensures var data := Get(Get(e, "postback"), "data");
      data.JArr? || data.JObj? ==> r.value == JNull
    ensures var data := Get(Get(e, "postback"), "data");
      !data.JStr? && !data.JArr? && !data.JObj? ==> r.value == env.decode(PhpString(data).value)
  {
    var data := Get(Get(e, "postback"), "data");
    if data.JStr? && IsSessionKey(data.s) then Success(SessionGet(session, data.s, JNull))
    else
      match PhpString(data)
      case Some(s) => Success(env.decode(s))
      case None => Success(JNull)
  }

  /** Whether the sticker's package is one LINE lets a bot send back. */
  predicate IsAvailablePackage(conf: DigesterConf, packageId: Json) {
    exists p :: p in conf.availablePackages && packageId == JStr(p)
  }

  /** The sticker message with its ids replaced, sticker id first. */
  function Replaced(msg: Json, packageId: Json, stickerId: Json): (r: Json)
    ensures Get(r, "packageId") == packageId
    ensures Get(r, "stickerId") == stickerId
    ensures msg.JObj? ==> forall k :: k != "packageId" && k != "stickerId" ==> Get(r, k) == Get(msg, k)
  {
    Put(Put(msg, "stickerId", stickerId), "packageId", packageId)
  }

  /** `digestFromLineSticker`: echo a sticker from an available package,
      otherwise swap in one of the configured replacement stickers. With no
      replacement configured, PHP 7's `array_rand` warns and yields null, and
      so do the two ids read through it. */
  function DigestSticker(e: Json, conf: DigesterConf, env: Env, draw: nat): (r: Result<Json>)
    ensures r.Success?
    ensures Get(r.value, "skipBot") == JBool(true) && !Has(r.value, "multiple_output")
    ensures IsAvailablePackage(conf, Get(Get(e, "message"), "packageId")) ==>
      r.value == SkipBotReply(Get(e, "message"))
    ensures !IsAvailablePackage(conf, Get(Get(e, "message"), "packageId")) && |conf.unknownStickerReplies| == 0 ==>
      Get(Get(r.value, "message"), "packageId") == JNull &&
      Get(Get(r.value, "message"), "stickerId") == JNull
    ensures !IsAvailablePackage(conf, Get(Get(e, "message"), "packageId")) && |conf.unknownStickerReplies| > 0 ==>
      exists k :: 0 <= k < |conf.unknownStickerReplies| &&
        Get(Get(r.value, "message"), "packageId") == JStr(conf.unknownStickerReplies[k].packageId) &&
        Get(Get(r.value, "message"), "stickerId") == JStr(conf.unknownStickerReplies[k].stickerId)
    ensures Get(e, "message").JObj? ==>
      forall k :: k != "packageId" && k != "stickerId" ==>
        Get(Get(r.value, "message"), k) == Get(Get(e, "message"), k)
  {
    var msg := Get(e, "message");
    if IsAvailablePackage(conf, Get(msg, "packageId")) then
      Success(SkipBotReply(msg))
    else if |conf.unknownStickerReplies| == 0 then
      Success(SkipBotReply(Replaced(msg, JNull, JNull)))
    else
      var pick := conf.unknownStickerReplies[Pick(env, draw, |conf.unknownStickerReplies|)];
      Success(SkipBotReply(Replaced(msg, JStr(pick.packageId), JStr(pick.stickerId))))
  }

  /** The digester `digestToApi` picks for each kind (`'digestFromLine' . ucfirst($type)`).
      Image, audio, file, location and video all delegate to `digestFromLineUnknown`. */
  function DigestEvent(e: Json, kind: EventKind, draw: nat, session: Session, env: Env, conf: DigesterConf): Result<Json> {
    match kind
    case Text => Success(DigestText(e))
    case Postback => DigestPostback(e, session, env)
    case Sticker => DigestSticker(e, conf, env, draw)
    case _ => Success(UnknownTypeReply(env))
  }

  /** Every unsupported kind gets the translated fallback and skips the bot. */
  lemma UnsupportedKindsFallBack(e: Json, kind: EventKind, draw: nat, session: Session, env: Env, conf: DigesterConf)
    requires kind in {Image, Audio, File, Location, Video, Unknown}
    ensures DigestEvent(e, kind, draw, session, env, conf) == Success(UnknownTypeReply(env))
    ensures Get(UnknownTypeReply(env), "skipBot") == JBool(true)
    ensures Get(Get(UnknownTypeReply(env), "message"), "text") == JStr(env.translate("unknownMessageType"))
  {
  }

  /** Digesting a single event never fails: every kind has a digester and
      each of them yields a value for any input. */
  lemma DigestEventSucceeds(e: Json, kind: EventKind, draw: nat, session: Session, env: Env, conf: DigesterConf)
    ensures DigestEvent(e, kind, draw, session, env, conf).Success?
  {
  }

  /** `isset($digestedMessage['multiple_output'])` splices a list of entries. */
  function Expand(d: Json): seq<Json> {
    if Has(d, "multiple_output") then Values(Get(d, "multiple_output")) else [d]
  }

  /** The loop of `digestToApi` over the events' digests: the first failure
      aborts, otherwise each digest contributes its expansion, in order. */
  function Combine(digests: seq<Result<Json>>): Result<seq<Json>> {
    if |digests| == 0 then Success([])
    else
      var d :- digests[0];
      var rest :- Combine(digests[1..]);
      Success(Expand(d) + rest)
  }

  /** The `i`-th event's digest. Digesting only reads the session, so each
      event's digest depends on that event and its position alone. */
  function DigestAt(events: seq<Json>, i: nat, session: Session, env: Env, conf: DigesterConf): Result<Json>
    requires i < |events|
  {
    DigestEvent(events[i], Classify(events[i]), i, session, env, conf)
  }

  /** `digestToApi` over the decoded webhook body. */
  function DigestToApi(request: Json, session: Session, env: Env, conf: DigesterConf): (r: Result<seq<Json>>)
    ensures !Has(request, "events") ==> r == Success([])
  {
    if !Has(request, "events") then Success([])
    else
      var events := Values(Get(request, "events"));
      Combine(seq(|events|, i requires 0 <= i < |events| => DigestAt(events, i, session, env, conf)))
  }

  /** `Combine` fails only on a failing digest. */
  lemma {:induction false} CombineSucceeds(digests: seq<Result<Json>>)
    requires forall j :: 0 <= j < |digests| ==> digests[j].Success?
    ensures Combine(digests).Success?
  {
    if |digests| > 0 {
      CombineSucceeds(digests[1..]);
    }
  }

  /** A whole batch always digests: no event aborts `digestToApi`. */
  lemma DigestToApiSucceeds(request: Json, session: Session, env: Env, conf: DigesterConf)
    ensures DigestToApi(request, session, env, conf).Success?
  {
    if Has(request, "events") {
      var events := Values(Get(request, "events"));
      var digests := seq(|events|, i requires 0 <= i < |events| => DigestAt(events, i, session, env, conf));
      forall j | 0 <= j < |events|
        ensures digests[j].Success?
      {
        DigestEventSucceeds(events[j], Classify(events[j]), j, session, env, conf);
      }
      CombineSucceeds(digests);
    }
  }

  /** A digest that is one entry. */
  predicate IsSingle(d: Result<Json>) {
    d.Success? && !Has(d.value, "multiple_output")
  }

  /** When every digest is a single entry, the output lists them in order. */
  lemma {:induction false} CombineSingles(digests: seq<Result<Json>>)
    requires forall j :: 0 <= j < |digests| ==> IsSingle(digests[j])
    ensures Combine(digests).Success?
    ensures |Combine(digests).value| == |digests|
    ensures forall j :: 0 <= j < |digests| ==>
      digests[j].Success? && Combine(digests).value[j] == digests[j].value
  {
    if |digests| > 0 {
      assert IsSingle(digests[0]);
      CombineSingles(digests[1..]);
      var rest := Combine(digests[1..]).value;
      assert Expand(digests[0].value) == [digests[0].value];
      assert Combine(digests).value == [digests[0].value] + rest;
    }
  }

  /** Only a postback can splice several entries: text, sticker and
      fallback digests never carry `multiple_output`. */
  lemma OnlyPostbackExpands(e: Json, kind: EventKind, draw: nat, session: Session, env: Env, conf: DigesterConf)
    requires kind != Postback
    requires DigestEvent(e, kind, draw, session, env, conf).Success?
    ensures !Has(DigestEvent(e, kind, draw, session, env, conf).value, "multiple_output")
  {
  }

  /** A batch without postbacks digests to one entry per event, in order. */
  lemma DigestToApiWithoutPostbacks(request: Json, session: Session, env: Env, conf: DigesterConf)
    requires Has(request, "events")
    requires var events := Values(Get(request, "events"));
      forall j :: 0 <= j < |events| ==>
        Classify(events[j]) != Postback && DigestAt(events, j, session, env, conf).Success?
    ensures var events := Values(Get(request, "events"));
      var r := DigestToApi(request, session, env, conf);
      r.Success? && |r.value| == |events| &&
      forall j :: 0 <= j < |events| ==>
        DigestAt(events, j, session, env, conf).Success? &&
        r.value[j] == DigestAt(events, j, session, env, conf).value
  {
    var events := Values(Get(request, "events"));
    var digests := seq(|events|, i requires 0 <= i < |events| => DigestAt(events, i, session, env, conf));
    forall j | 0 <= j < |events|
      ensures IsSingle(digests[j])
    {
      OnlyPostbackExpands(events[j], Classify(events[j]), j, session, env, conf);
    }
    CombineSingles(digests);
  }
}
