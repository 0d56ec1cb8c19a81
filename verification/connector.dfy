/** `LineConnector`: the per-request flow around the chatbot. The parent
    `ChatbotConnector`'s steps that this class calls but does not define
    (commands, rating comments, the chatbot call itself, the escalation and
    rating checks) are `Hooks`; everything this class decides is modelled. */
module LineConnectorFlow {
  import opened Wrappers
  import opened Bytes
  import opened Json
  import opened Context
  import opened LinePayloads
  import opened LineOutbound
  import opened LineApiClient

  // --------------------------------------------------------- configuration

  /** One element of the `line` extra-info results. */
  datatype ExtraInfoElement = ExtraInfoElement(name: Bytes, value: Json)

  /** `$list[0]`: the first item of a list, null otherwise. */
  function FirstItem(j: Json): Json {
    if j.JArr? && |j.items| > 0 then j.items[0] else JNull
  }

  /** The `line_conf` block for `environment`: the last element named
      `line_conf` wins; without one the block is an empty array. */
  function LineConf(results: seq<ExtraInfoElement>, environment: Bytes): (r: Json)
    ensures (forall i :: 0 <= i < |results| ==> results[i].name != "line_conf") ==> r == JArr([])
    ensures |results| > 0 && results[|results| - 1].name == "line_conf" ==>
      r == FirstItem(Get(results[|results| - 1].value, environment))
    decreases |results|
  {
    if |results| == 0 then JArr([])
    else if results[|results| - 1].name == "line_conf" then FirstItem(Get(results[|results| - 1].value, environment))
    else LineConf(results[..|results| - 1], environment)
  }

  /** `getTokensFromExtraInfo`: channel id and secret are required; the
      switcher destination, switcher secret and service code default to
      null. */
  function GetTokensFromExtraInfo(results: seq<ExtraInfoElement>, environment: Bytes): (r: Result<LineSettings>)
    ensures var c := LineConf(results, environment);
      r.Failure? <==> !Has(c, "channel_id") || !Has(c, "channel_secret")
    ensures r.Failure? ==> r.error == InvalidChannelCredentials
    ensures var c := LineConf(results, environment);
      r.Success? ==>
        r.value.channelId == Get(c, "channel_id") && r.value.channelId != JNull &&
        r.value.channelSecret == Get(c, "channel_secret") && r.value.channelSecret != JNull &&
        r.value.switcherDestination == Get(c, "switcher_destination") &&
        r.value.switcherSecret == Get(c, "switcher_secret") &&
        r.value.serviceCode == Get(c, "service_code")
  {
    var c := LineConf(results, environment);
    if !Has(c, "channel_id") || !Has(c, "channel_secret") then Failure(InvalidChannelCredentials)
    else Success(LineSettings(Get(c, "channel_id"), Get(c, "channel_secret"),
                              Get(c, "switcher_destination"), Get(c, "switcher_secret"), Get(c, "service_code")))
  }

  /** `getExternalIdFromRequest`: the LINE user's id; failing that, a
      HyperChat webhook-linking request (one carrying `X-Hook-Secret`) gets
      a temporary id derived from the API key; anything else is refused. */
  function GetExternalIdFromRequest(request: Json, apiKey: Bytes, hasHookSecret: bool): (r: Result<Bytes>)
    ensures BuildExternalIdFromRequest(request) == Success(None) ==>
      (hasHookSecret ==> r == Success("hc-challenge-" + KeepAlnumOrSpace(apiKey))) &&
      (!hasHookSecret ==> r == Failure(InvalidRequest))
    ensures BuildExternalIdFromRequest(request).Success? && BuildExternalIdFromRequest(request).value.Some? ==>
      r == Success(BuildExternalIdFromRequest(request).value.value)
    ensures r.Success? ==> StartsWith(r.value, "line-") || StartsWith(r.value, "hc-challenge-")
  {
    var id :- BuildExternalIdFromRequest(request);
    if id.Some? && !FalsyString(id.value) then Success(id.value)
    else if hasHookSecret then Success("hc-challenge-" + KeepAlnumOrSpace(apiKey))
    else Failure(InvalidRequest)
  }

  /** A numeric string without its leading sign. */
  function Unsigned(s: Bytes): (r: Bytes)
    ensures |r| <= |s|
  {
    if |s| > 0 && (s[0] == '+' || s[0] == '-') then s[1..] else s
  }

  predicate AllDigits(s: Bytes) {
    forall i :: 0 <= i < |s| ==> IsDigit(s[i])
  }

  /** `is_numeric`, for strings of an optional sign followed by at least
      one digit. */
  predicate IsNumericString(s: Bytes) {
    |Unsigned(s)| > 0 && AllDigits(Unsigned(s))
  }

  predicate IsNumeric(j: Json) {
    j.JInt? || (j.JStr? && IsNumericString(j.s))
  }

  /** `(int)$j` of a numeric value. */
  function IntCast(j: Json): int
    requires IsNumeric(j)
  {
    if j.JInt? then j.i
    else if |j.s| > 0 && j.s[0] == '-' then -(DigitsValue(Unsigned(j.s)) as int)
    else DigitsValue(Unsigned(j.s))
  }

  /** The constructor's check for LINE's "verify webhook" call: the first
      event's reply token is truthy, numeric, and casts to zero. */
  predicate IsVerifyWebhook(request: Json) {
    var token := Get(FirstEvent(request), "replyToken");
    Has(request, "events") && FirstEvent(request) != JNull &&
    Truthy(token) && IsNumeric(token) && IntCast(token) == 0
  }

  /** A string of zeros, with an optional sign. */
  predicate IsZeroString(s: Bytes) {
    |Unsigned(s)| > 0 && forall i :: 0 <= i < |Unsigned(s)| ==> Unsigned(s)[i] == '0'
  }

  /** The verify call is recognised exactly when the reply token is a
      string of zeros other than `"0"` itself (which PHP reads as false);
      integer tokens never qualify. */
  lemma VerifyWebhookIsZeroToken(request: Json)
    ensures IsVerifyWebhook(request) <==>
      Has(request, "events") && FirstEvent(request) != JNull &&
      var token := Get(FirstEvent(request), "replyToken");
      token.JStr? && token.s != "0" && IsZeroString(token.s)
  {
    var token := Get(FirstEvent(request), "replyToken");
    if token.JStr? {
      var d := Unsigned(token.s);
      if IsNumericString(token.s) {
        DigitsValueZero(d);
      }
      if IsZeroString(token.s) {
        assert AllDigits(d);
      }
    }
  }

  /** LINE's actual verify token, 32 zeros, is recognised. */
  lemma ThirtyTwoZerosVerify(request: Json, zeros: Bytes)
    requires |zeros| == 32 && forall i :: 0 <= i < |zeros| ==> zeros[i] == '0'
    requires Has(request, "events") && FirstEvent(request) == Obj1("replyToken", JStr(zeros))
    ensures IsVerifyWebhook(request)
  {
    VerifyWebhookIsZeroToken(request);
    assert Unsigned(zeros) == zeros;
    assert zeros != "0";
  }

  // ------------------------------------------------------------ escalation

  /** `session->get('askingForEscalation', false)` in a condition. */
  predicate AskingForEscalation(s: Session) {
    Truthy(SessionGet(s, "askingForEscalation", JBool(false)))
  }

  /** `buildTextMessage`: a plain chatbot answer carrying `text`. */
  function TextAnswer(text: Bytes): (m: BotMessage)
    ensures ApiKindOf(m) == Some(Answer) && m.message == text
  {
    BotMessage("answer", text, [], [], [], map[])
  }

  /** What `handleEscalation` does: ask, drop the question without an
      answer (returning null), hand off to an agent, or tell the user the
      escalation was declined. The last two end the request. */
  datatype EscalationStep = Prompt(message: Payload) | Cleared | HandOff | Rejected(reply: BotMessage)

  /** The escalation question was answered or dropped: the flag and both
      escalation counters are reset. */
  function ResetEscalation(s: Session): Session {
    s["askingForEscalation" := JBool(false)]["noResultsCount" := JInt(0)]["negativeRatingCount" := JInt(0)]
  }

  /** `handleEscalation($userAnswer)`; `null` is the empty list. */
  function HandleEscalation(answer: seq<Json>, session: Session, env: Env): (r: (EscalationStep, Session))
    ensures AskingForEscalation(r.1) <==> !AskingForEscalation(session)
    ensures r.0.Prompt? <==> !AskingForEscalation(session)
    ensures r.0.Prompt? ==> r.0.message == BuildEscalationMessage(env)
    ensures r.0.Prompt? ==> r.1 == session["askingForEscalation" := JBool(true)]
    ensures !r.0.Prompt? ==> r.1 == ResetEscalation(session)
    ensures r.0 == HandOff <==>
      AskingForEscalation(session) && |answer| > 0 && Truthy(Get(answer[0], "escalateOption"))
    ensures r.0.Rejected? <==>
      AskingForEscalation(session) && |answer| > 0 && Has(answer[0], "escalateOption") &&
      !Truthy(Get(answer[0], "escalateOption"))
    ensures r.0.Rejected? ==> r.0.reply == TextAnswer(env.translate("escalation_rejected"))
  {
    if !AskingForEscalation(session) then
      (Prompt(BuildEscalationMessage(env)), session["askingForEscalation" := JBool(true)])
    else
      var s := ResetEscalation(session);
      if |answer| > 0 && Has(answer[0], "escalateOption") then
        if Truthy(Get(answer[0], "escalateOption")) then (HandOff, s)
        else (Rejected(TextAnswer(env.translate("escalation_rejected"))), s)
      else (Cleared, s)
  }

  /** The escalation prompt's own answers are what `handleEscalation`
      reads: "yes" hands off, "no" is rejected. */
  lemma EscalationAnswersRoundTrip(session: Session, env: Env)
    requires AskingForEscalation(session)
    ensures HandleEscalation([EscalateDoc(true)], session, env).0 == HandOff
    ensures HandleEscalation([EscalateDoc(false)], session, env).0.Rejected?
  {
  }

  /** What `handleNonBotActions` leaves to do. */
  datatype NonBotOutcome =
    | Continue(session: Session)
    | EscalationAccepted(session: Session)
    | EscalationRejected(session: Session, reply: BotMessage)
    | FederatedAnswer(session: Session, answer: Json)

  function AfterEscalation(request: seq<Json>, session: Session): (r: NonBotOutcome)
    ensures r.Continue? || r.FederatedAnswer?
    ensures r.session == session
  {
    if |request| > 0 && Has(request[0], "extendedContentAnswer") then
      FederatedAnswer(session, Get(request[0], "extendedContentAnswer"))
    else Continue(session)
  }

  /** `handleNonBotActions`: a pending escalation question is settled first
      (its flag is cleared whatever the answer); then a chosen federated
      sub-answer is displayed instead of asking the chatbot. */
  function HandleNonBotActions(request: seq<Json>, session: Session, env: Env): (r: NonBotOutcome)
    ensures !AskingForEscalation(session) ==> r == AfterEscalation(request, session)
    ensures AskingForEscalation(session) ==> r.session == ResetEscalation(session) && !AskingForEscalation(r.session)
    ensures (r.EscalationAccepted? || r.EscalationRejected?) ==> AskingForEscalation(session)
    ensures r.FederatedAnswer? ==>
      |request| > 0 && r.answer == Get(request[0], "extendedContentAnswer") && r.answer != JNull
  {
    if AskingForEscalation(session) then
      var (step, s) := HandleEscalation(request, session, env);
      match step
      case HandOff => EscalationAccepted(s)
      case Rejected(m) => EscalationRejected(s, m)
      case _ => AfterEscalation(request, s)
    else AfterEscalation(request, session)
  }

  /** How `escalateToAgent` hands the user over. */
  datatype HandOffRoute =
    | SwitcherChat(notice: BotMessage)      // tell the user, then LINE's switcher event and notice
    | SwitcherMissing(notice: BotMessage)   // an external service without a switcher destination
    | HyperChat                             // the parent connector's escalation

  /** `escalateToAgent`: with an external chat service, LINE's switcher
      when a destination is configured and an error text otherwise; without
      one, the parent's escalation. */
  function EscalateToAgent(useExternal: Json, switcherDestination: Json, env: Env): (r: HandOffRoute)
    ensures r == HyperChat <==> !Truthy(useExternal)
    ensures r.SwitcherChat? <==> Truthy(useExternal) && Truthy(switcherDestination)
    ensures r.SwitcherChat? ==> r.notice == TextAnswer(env.translate("creating_chat"))
    ensures r.SwitcherMissing? ==> r.notice == TextAnswer(env.translate("error_creating_chat"))
  {
    if !Truthy(useExternal) then HyperChat
    else if Truthy(switcherDestination) then SwitcherChat(TextAnswer(env.translate("creating_chat")))
    else SwitcherMissing(TextAnswer(env.translate("error_creating_chat")))
  }

  // ----------------------------------------------------------------- events

  /** `sendEventToBot`: an untracked event type ends the request; a rating
      answers with a request for a comment or with thanks; a click answers
      nothing. */
  datatype EventReply = Untracked | Tracked(reply: Option<BotMessage>, session: Session)

  predicate AskingRatingComment(s: Session) {
    Truthy(SessionGet(s, "askingRatingComment", JBool(false)))
  }

  function SendEventToBot(event: Json, session: Session, willEscalate: bool, env: Env): (r: EventReply)
    ensures r == Untracked <==> Get(event, "type") != JStr("rate") && Get(event, "type") != JStr("click")
    ensures Get(event, "type") == JStr("click") ==> r == Tracked(None, session)
    ensures Get(event, "type") == JStr("rate") ==>
      r.Tracked? && r.reply.Some? &&
      (r.reply.value == TextAnswer(env.translate("ask_rating_comment")) <==>
         (AskingRatingComment(session) && !willEscalate) || env.translate("ask_rating_comment") == env.translate("thanks"))
    ensures Get(event, "type") == JStr("rate") && AskingRatingComment(session) && !willEscalate ==>
      r == Tracked(Some(TextAnswer(env.translate("ask_rating_comment"))), session)
    ensures Get(event, "type") == JStr("rate") && !(AskingRatingComment(session) && !willEscalate) ==>
      r == Tracked(Some(TextAnswer(env.translate("thanks"))), session["askingRatingComment" := JBool(false)]) &&
      !AskingRatingComment(r.session)
    ensures r.Tracked? && r.session != session ==> !AskingRatingComment(r.session)
  {
    var kind := Get(event, "type");
    if kind != JStr("rate") && kind != JStr("click") then Untracked
    else if kind == JStr("rate") then
      if AskingRatingComment(session) && !willEscalate then
        Tracked(Some(TextAnswer(env.translate("ask_rating_comment"))), session)
      else
        Tracked(Some(TextAnswer(env.translate("thanks"))), session["askingRatingComment" := JBool(false)])
    else Tracked(None, session)
  }

  // ------------------------------------------------------------- stickers

  /** The connector's configuration as this class reads it. */
  datatype ConnectorConf = ConnectorConf(
    digester: DigesterConf,
    ratingOptions: seq<RatingOption>,   // conversation.content_ratings.ratings
    ratingSticker: bool)                // conversation.content_ratings.sticker

  /** A configured sticker with `type` set, ready to send. */
  function ThanksSticker(s: StickerRef): (j: Json)
    ensures Get(j, "type") == JStr("sticker")
    ensures Get(j, "packageId") == JStr(s.packageId) && Get(j, "stickerId") == JStr(s.stickerId)
  {
    Obj3("packageId", JStr(s.packageId), "stickerId", JStr(s.stickerId), "type", JStr("sticker"))
  }

  /** The response is the chatbot's "thanks" after a rating and a sticker
      may replace it. */
  predicate IsStickerThanks(resp: BotResponse, conf: ConnectorConf, env: Env) {
    conf.ratingSticker && resp.Single? && resp.msg.message == env.translate("thanks") &&
    |conf.digester.thanksRatingStickers| >= 1
  }

  /** `thanksRatingToSticker`: the thanks answer becomes one configured
      sticker and the chatbot response is dropped; anything else passes
      through untouched. */
  function ThanksRatingToSticker(resp: BotResponse, extras: seq<Payload>, conf: ConnectorConf, env: Env, draw: nat): (r: (BotResponse, seq<Payload>))
    ensures IsStickerThanks(resp, conf, env) ==>
      r.0 == NoResponse && |r.1| == 1 &&
      exists k :: 0 <= k < |conf.digester.thanksRatingStickers| &&
        r.1[0] == Raw(ThanksSticker(conf.digester.thanksRatingStickers[k]))
    ensures !IsStickerThanks(resp, conf, env) ==> r == (resp, extras)
  {
    var stickers := conf.digester.thanksRatingStickers;
    if IsStickerThanks(resp, conf, env) then
      var k := Pick(env, draw, |stickers|);
      (NoResponse, [Raw(ThanksSticker(stickers[k]))])
    else (resp, extras)
  }

  /** Only a single answer can be swapped for a sticker: an answer list,
      or no response, is never touched. */
  lemma StickerOnlyForSingleThanks(resp: BotResponse, extras: seq<Payload>, conf: ConnectorConf, env: Env, draw: nat)
    requires !resp.Single? || !conf.ratingSticker
    ensures ThanksRatingToSticker(resp, extras, conf, env, draw) == (resp, extras)
  {
  }

  // --------------------------------------------------------------- sending

  /** The digested chatbot response `sendMessagesToExternal` puts first;
      nothing when the chatbot was not asked. */
  function BotPayloads(resp: BotResponse, session: Session, conf: ConnectorConf, env: Env): Result<seq<Payload>> {
    if resp == NoResponse then Success([])
    else
      var (bot, _) :- DigestFromApi(resp, SessionGet(session, "lastUserQuestion", JNull), session, conf.digester, env);
      Success(bot)
  }

  /** The session once the digester has written the keys the response's
      actions refer to; unchanged when the chatbot was not asked. */
  function SessionAfterSend(resp: BotResponse, session: Session, conf: ConnectorConf, env: Env): Session {
    if resp == NoResponse then session
    else
      match DigestFromApi(resp, SessionGet(session, "lastUserQuestion", JNull), session, conf.digester, env)
      case Success((_, s)) => s
      case Failure(_) => session
  }

  /** Sending writes only `sessionSaved-` keys. */
  lemma SessionAfterSendKeepsUnsaved(resp: BotResponse, session: Session, conf: ConnectorConf, env: Env, k: Bytes)
    requires !IsSavedKey(k)
    ensures SameAt(SessionAfterSend(resp, session, conf, env), session, k)
  {
    if resp != NoResponse {
      var d := DigestFromApi(resp, SessionGet(session, "lastUserQuestion", JNull), session, conf.digester, env);
      if d.Success? {
        DigestFromApiKeepsUnsaved(resp, SessionGet(session, "lastUserQuestion", JNull), session, conf.digester, env, k);
      }
    }
  }

  /** `sendMessagesToExternal`: the digested chatbot response (if any)
      followed by the extra messages, as one list. */
  function SendMessagesToExternal(resp: BotResponse, extras: seq<Payload>, session: Session,
                                  conf: ConnectorConf, env: Env): (r: Result<(seq<Payload>, Session)>)
    ensures resp == NoResponse ==> r == Success((extras, session))
    ensures resp != NoResponse ==>
      var d := DigestFromApi(resp, SessionGet(session, "lastUserQuestion", JNull), session, conf.digester, env);
      (r.Success? <==> d.Success?) &&
      (r.Success? ==> r.value.0 == d.value.0 + extras && r.value.1 == d.value.1)
    ensures r.Success? <==> BotPayloads(resp, session, conf, env).Success?
    ensures r.Success? ==> r.value.0 == BotPayloads(resp, session, conf, env).value + extras
    ensures r.Success? ==> r.value.1 == SessionAfterSend(resp, session, conf, env)
  {
    if resp == NoResponse then Success((extras, session))
    else
      var (bot, s) :- DigestFromApi(resp, SessionGet(session, "lastUserQuestion", JNull), session, conf.digester, env);
      Success((bot + extras, s))
  }

  // ------------------------------------------------------------ bot actions

  /** The parent connector's steps, as functions of what they read. */
  datatype Hooks = Hooks(
    prepare: (Session, Json) -> (Session, Json),           // handleCommands, saveLastTextMessage, checkContentRatingsComment
    askBot: (Session, Json) -> (Session, BotResponse),     // sendMessageToBot
    checkEscalation: (Session, BotResponse) -> bool,       // checkEscalation
    checkContentRatings: (Session, BotResponse) -> Json)   // checkContentRatings: false or the rating code

  /** Extra messages taken verbatim from the request. */
  function RawAll(js: seq<Json>): (r: seq<Payload>)
    ensures |r| == |js| && forall i :: 0 <= i < |js| ==> r[i] == Raw(js[i])
  {
    seq(|js|, i requires 0 <= i < |js| => Raw(js[i]))
  }

  /** Asking the chatbot, unless the prepared message says `skipBot`: then
      there is no response and the message's other fields are sent as they
      are. */
  function AskBot(message: Json, session: Session, hooks: Hooks): (r: (Session, BotResponse, seq<Payload>))
    ensures Has(message, "skipBot") ==> r == (session, NoResponse, RawAll(Values(Unset(message, "skipBot"))))
    ensures !Has(message, "skipBot") ==> (r.0, r.1) == hooks.askBot(session, message) && r.2 == []
  {
    if Has(message, "skipBot") then (session, NoResponse, RawAll(Values(Unset(message, "skipBot"))))
    else
      var (s, resp) := hooks.askBot(session, message);
      (s, resp, [])
  }

  /** `handleEscalation()` without an answer, as the bot loop calls it:
      the prompt when not yet asking, null otherwise. */
  function EscalationPayload(step: EscalationStep): Payload {
    if step.Prompt? then step.message else Raw(JNull)
  }

  /** The entry the escalation part of one event adds: none when escalation
      is not needed, the question when it is not yet asked, null when it is. */
  function EscalationEntries(needEscalation: bool, session: Session, env: Env): seq<Payload> {
    if !needEscalation then []
    else if AskingForEscalation(session) then [Raw(JNull)]
    else [BuildEscalationMessage(env)]
  }

  /** The escalation part of one event: while escalation is needed, each
      event either asks the question or drops the pending one. */
  function AppendEscalation(needEscalation: bool, session: Session, extras: seq<Payload>, env: Env): (r: (Session, seq<Payload>))
    ensures !needEscalation ==> r == (session, extras)
    ensures needEscalation ==>
      AskingForEscalation(r.0) == !AskingForEscalation(session) &&
      |r.1| == |extras| + 1 && r.1[..|extras|] == extras &&
      r.1[|extras|] == (if AskingForEscalation(session) then Raw(JNull) else BuildEscalationMessage(env))
    ensures r.1 == extras + EscalationEntries(needEscalation, session, env)
    ensures needEscalation && !AskingForEscalation(session) ==> r.0 == session["askingForEscalation" := JBool(true)]
    ensures needEscalation && AskingForEscalation(session) ==> r.0 == ResetEscalation(session)
  {
    if needEscalation then
      var (step, s) := HandleEscalation([], session, env);
      (s, extras + [EscalationPayload(step)])
    else (session, extras)
  }

  /** The entry the rating part of one event adds: the rating question when
      a rating is pending and escalation is not being asked. */
  function RatingEntries(needRating: Json, session: Session, conf: ConnectorConf, env: Env): seq<Payload> {
    if Truthy(needRating) && !AskingForEscalation(session) then [ContentRatingsMessage(conf.ratingOptions, env)] else []
  }

  /** The rating part of one event: the rating question is added when a
      rating is pending and escalation is not being asked. */
  function AppendRating(needRating: Json, session: Session, extras: seq<Payload>,
                        conf: ConnectorConf, env: Env): (r: (Session, seq<Payload>))
    ensures !(Truthy(needRating) && !AskingForEscalation(session)) ==> r == (session, extras)
    ensures Truthy(needRating) && !AskingForEscalation(session) ==>
      |r.1| == |extras| + 1 && r.1[..|extras|] == extras &&
      r.1[|extras|].QuickReply? && |r.1[|extras|].items| == |conf.ratingOptions| &&
      forall i :: 0 <= i < |conf.ratingOptions| ==>
        RateKey(i) in r.0 && r.0[RateKey(i)] == RatingDoc(conf.ratingOptions[i], needRating)
    ensures r.1 == extras + RatingEntries(needRating, session, conf, env)
    ensures Truthy(needRating) && !AskingForEscalation(session) ==>
      r.0 == BuildContentRatingsMessage(conf.ratingOptions, needRating, session, env).1
  {
    if Truthy(needRating) && !AskingForEscalation(session) then
      var (p, s) := BuildContentRatingsMessage(conf.ratingOptions, needRating, session, env);
      (s, extras + [p])
    else (session, extras)
  }

  /** `ResetEscalation` and the other escalation writes leave
      `askingForEscalation` as the only flag `AppendRating` reads. */
  lemma PromptSuppressesRating(needRating: Json, session: Session, extras: seq<Payload>,
                               conf: ConnectorConf, env: Env)
    requires !AskingForEscalation(session)
    ensures var (s, e) := AppendEscalation(true, session, extras, env);
      AppendRating(needRating, s, e, conf, env) == (s, e) &&
      e[|e| - 1] == BuildEscalationMessage(env)
  {
  }

  /** The flags carried from one event to the next. */
  datatype Flags = Flags(needEscalation: bool, needContentRating: Json)

  const InitialFlags := Flags(false, JBool(false))

  /** What one event of the loop produced. */
  datatype StepRecord = StepRecord(
    response: BotResponse,        // after the sticker substitution
    escalationSignal: bool,       // checkEscalation on this response
    ratingSignal: Json,           // checkContentRatings on this response
    flags: Flags,                 // the flags after this event
    escalation: seq<Payload>,     // the entry the escalation part added
    outgoing: seq<Payload>,       // what sendMessagesToExternal sends
    calls: seq<PushCall>,         // the push calls carrying it
    session: Session)

  /** What one event sends once the chatbot has answered (or been skipped)
      with `resp0` and the extra messages `extras0`: after the sticker
      substitution, the digested response, then the extras, then the
      escalation entry, then the rating question. The two signals are the
      parent's checks on the response that is sent, each on the session as
      it stands when the check runs. */
  predicate ComposesEvent(rec: StepRecord, session: Session, resp0: BotResponse, extras0: seq<Payload>, draw: nat,
                          checkEscalation: (Session, BotResponse) -> bool,
                          checkContentRatings: (Session, BotResponse) -> Json,
                          conf: ConnectorConf, env: Env)
  {
    var (resp, extras1) := ThanksRatingToSticker(resp0, extras0, conf, env, draw);
    var s3 := AppendEscalation(rec.flags.needEscalation, session, extras1, env).0;
    var s4 := if Truthy(rec.flags.needContentRating) && !AskingForEscalation(s3)
              then BuildContentRatingsMessage(conf.ratingOptions, rec.flags.needContentRating, s3, env).1
              else s3;
    var bot := BotPayloads(resp, s4, conf, env);
    rec.response == resp &&
    rec.escalationSignal == checkEscalation(session, resp) &&
    rec.ratingSignal == checkContentRatings(s3, resp) &&
    bot.Success? &&
    rec.outgoing == bot.value + (extras1 + EscalationEntries(rec.flags.needEscalation, session, env) +
                                 RatingEntries(rec.flags.needContentRating, s3, conf, env)) &&
    rec.escalation == EscalationEntries(rec.flags.needEscalation, session, env) &&
    rec.session == SessionAfterSend(resp, s4, conf, env)
  }

  /** One iteration of `handleBotActions`. */
  function HandleEvent(event: Json, draw: nat, session: Session, flags: Flags, hooks: Hooks,
                       conf: ConnectorConf, client: Client, env: Env): (r: Result<StepRecord>)
    ensures r.Success? ==>
      r.value.flags.needEscalation == (r.value.escalationSignal || flags.needEscalation)
    ensures r.Success? ==>
      r.value.flags.needContentRating ==
        (if Truthy(r.value.ratingSignal) then r.value.ratingSignal else flags.needContentRating)
    ensures r.Success? ==> Send(client, r.value.outgoing) == Success(r.value.calls)
    ensures r.Success? ==>
      var (s1, message) := hooks.prepare(session, event);
      var (s2, resp0, extras0) := AskBot(message, s1, hooks);
      ComposesEvent(r.value, s2, resp0, extras0, draw, hooks.checkEscalation, hooks.checkContentRatings, conf, env)
  {
    var (s1, message) := hooks.prepare(session, event);
    var (s2, resp0, extras0) := AskBot(message, s1, hooks);
    AfterBot(s2, resp0, extras0, draw, flags, hooks.checkEscalation, hooks.checkContentRatings, conf, client, env)
  }

  /** The rest of the iteration once the chatbot has answered (or been
      skipped): sticker substitution, the escalation and rating checks, and
      the sending. */
  function AfterBot(session: Session, resp0: BotResponse, extras0: seq<Payload>, draw: nat, flags: Flags,
                    checkEscalation: (Session, BotResponse) -> bool,
                    checkContentRatings: (Session, BotResponse) -> Json,
                    conf: ConnectorConf, client: Client, env: Env): (r: Result<StepRecord>)
    ensures r.Success? ==>
      r.value.flags.needEscalation == (r.value.escalationSignal || flags.needEscalation)
    ensures r.Success? ==>
      r.value.flags.needContentRating ==
        (if Truthy(r.value.ratingSignal) then r.value.ratingSignal else flags.needContentRating)
    ensures r.Success? ==> Send(client, r.value.outgoing) == Success(r.value.calls)
    ensures r.Success? && resp0 == NoResponse ==> r.value.response == NoResponse
    ensures r.Success? ==>
      ComposesEvent(r.value, session, resp0, extras0, draw, checkEscalation, checkContentRatings, conf, env)
  {
    var (resp, extras1) := ThanksRatingToSticker(resp0, extras0, conf, env, draw);
    var signal := checkEscalation(session, resp);
    var needEscalation := signal || flags.needEscalation;
    var (s3, extras2) := AppendEscalation(needEscalation, session, extras1, env);
    var hasRating := checkContentRatings(s3, resp);
    var needRating := if Truthy(hasRating) then hasRating else flags.needContentRating;
    RateAndSend(resp, signal, hasRating, Flags(needEscalation, needRating), EscalationEntries(needEscalation, session, env),
                s3, extras2, conf, client, env)
  }

  /** The end of the iteration: the rating question, then the sending. */
  function RateAndSend(resp: BotResponse, signal: bool, hasRating: Json, next: Flags, escalation: seq<Payload>,
                       session: Session, extras: seq<Payload>, conf: ConnectorConf, client: Client, env: Env): (r: Result<StepRecord>)
    ensures r.Success? ==>
      r.value.response == resp && r.value.escalationSignal == signal &&
      r.value.ratingSignal == hasRating && r.value.flags == next && r.value.escalation == escalation
    ensures r.Success? ==> Send(client, r.value.outgoing) == Success(r.value.calls)
    ensures r.Success? ==>
      var s4 := if Truthy(next.needContentRating) && !AskingForEscalation(session)
                then BuildContentRatingsMessage(conf.ratingOptions, next.needContentRating, session, env).1
                else session;
      BotPayloads(resp, s4, conf, env).Success? &&
      r.value.outgoing == BotPayloads(resp, s4, conf, env).value +
                          (extras + RatingEntries(next.needContentRating, session, conf, env)) &&
      r.value.session == SessionAfterSend(resp, s4, conf, env)
  {
    var (s4, extras3) := AppendRating(next.needContentRating, session, extras, conf, env);
    var (outgoing, s5) :- SendMessagesToExternal(resp, extras3, s4, conf, env);
    var calls :- Send(client, outgoing);
    Success(StepRecord(resp, signal, hasRating, next, escalation, outgoing, calls, s5))
  }

  /** A `skipBot` message never reaches the chatbot: the event's outcome is
      the same whatever the chatbot would have answered, and there is no
      chatbot response. */
  lemma SkipBotNeverAsksBot(event: Json, draw: nat, session: Session, flags: Flags, hooks: Hooks,
                            otherBot: (Session, Json) -> (Session, BotResponse),
                            conf: ConnectorConf, client: Client, env: Env)
    requires Has(hooks.prepare(session, event).1, "skipBot")
    ensures HandleEvent(event, draw, session, flags, hooks, conf, client, env) ==
            HandleEvent(event, draw, session, flags, hooks.(askBot := otherBot), conf, client, env)
    ensures HandleEvent(event, draw, session, flags, hooks, conf, client, env).Success? ==>
            HandleEvent(event, draw, session, flags, hooks, conf, client, env).value.response == NoResponse
  {
    var (s1, message) := hooks.prepare(session, event);
    assert AskBot(message, s1, hooks) == AskBot(message, s1, hooks.(askBot := otherBot));
  }

  /** The asking flag is not among the digester's `sessionSaved-` keys. */
  lemma AskingKeyIsUnsaved()
    ensures !IsSavedKey("askingForEscalation")
  {
    var k: Bytes := "askingForEscalation";
    assert k[..13][0] != "sessionSaved-"[0];
  }

  /** Within one event the asking flag flips exactly when escalation is
      needed: the escalation part toggles it, and neither the rating writes
      nor the digester's writes touch it. */
  lemma ComposedAsking(rec: StepRecord, session: Session, resp0: BotResponse, extras0: seq<Payload>, draw: nat,
                       checkEscalation: (Session, BotResponse) -> bool,
                       checkContentRatings: (Session, BotResponse) -> Json,
                       conf: ConnectorConf, env: Env)
    requires ComposesEvent(rec, session, resp0, extras0, draw, checkEscalation, checkContentRatings, conf, env)
    ensures AskingForEscalation(rec.session) == (rec.flags.needEscalation != AskingForEscalation(session))
  {
    var k: Bytes := "askingForEscalation";
    AskingKeyIsUnsaved();
    var (resp, extras1) := ThanksRatingToSticker(resp0, extras0, conf, env, draw);
    var s3 := AppendEscalation(rec.flags.needEscalation, session, extras1, env).0;
    var s4 := if Truthy(rec.flags.needContentRating) && !AskingForEscalation(s3)
              then BuildContentRatingsMessage(conf.ratingOptions, rec.flags.needContentRating, s3, env).1
              else s3;
    BuildContentRatingsKeepsUnsaved(conf.ratingOptions, rec.flags.needContentRating, s3, env, k);
    SessionAfterSendKeepsUnsaved(resp, s4, conf, env, k);
    assert AskingForEscalation(rec.session) == AskingForEscalation(s4);
  }

  /** The parent's steps before the chatbot answers leave the asking flag
      alone: the commands, the saved question, the rating comment and the
      chatbot call touch other keys. */
  ghost predicate KeepsAsking(hooks: Hooks) {
    (forall s, e :: AskingForEscalation(hooks.prepare(s, e).0) == AskingForEscalation(s)) &&
    (forall s, m :: AskingForEscalation(hooks.askBot(s, m).0) == AskingForEscalation(s))
  }

  /** One event with escalation needed: it sends the question when not yet
      asking and null when asking, and it flips the asking flag. Without
      escalation needed it sends no escalation entry and keeps the flag. */
  lemma EventAlternates(event: Json, draw: nat, session: Session, flags: Flags, hooks: Hooks,
                        conf: ConnectorConf, client: Client, env: Env)
    requires KeepsAsking(hooks)
    requires HandleEvent(event, draw, session, flags, hooks, conf, client, env).Success?
    ensures var rec := HandleEvent(event, draw, session, flags, hooks, conf, client, env).value;
      rec.escalation == EscalationEntries(rec.flags.needEscalation, session, env) &&
      AskingForEscalation(rec.session) == (rec.flags.needEscalation != AskingForEscalation(session))
  {
    var rec := HandleEvent(event, draw, session, flags, hooks, conf, client, env).value;
    var (s1, message) := hooks.prepare(session, event);
    var (s2, resp0, extras0) := AskBot(message, s1, hooks);
    assert AskingForEscalation(s2) == AskingForEscalation(session) by {
      if !Has(message, "skipBot") {
        assert s2 == hooks.askBot(s1, message).0;
      }
    }
    ComposedAsking(rec, s2, resp0, extras0, draw, hooks.checkEscalation, hooks.checkContentRatings, conf, env);
  }

  /** How a batch ended: the events handled, and the error that stopped the
      loop, if any. Messages of handled events have been sent. */
  datatype BatchResult = BatchResult(trace: seq<StepRecord>, stopped: Option<Fault>)

  /** The body of the loop: an event, its position, the session and the
      flags before it. */
  type EventHandler = (Json, nat, Session, Flags) -> Result<StepRecord>

  /** The loop of `handleBotActions` from event `i` on, for any body. */
  function Run(events: seq<Json>, i: nat, session: Session, flags: Flags, step: EventHandler): (r: BatchResult)
    requires i <= |events|
    ensures |r.trace| <= |events| - i
    ensures r.stopped.None? ==> |r.trace| == |events| - i
    decreases |events| - i
  {
    if i == |events| then BatchResult([], None)
    else
      match step(events[i], i, session, flags)
      case Failure(f) => BatchResult([], Some(f))
      case Success(rec) =>
        var rest := Run(events, i + 1, rec.session, rec.flags, step);
        BatchResult([rec] + rest.trace, rest.stopped)
  }

  /** The body `handleBotActions` runs: `HandleEvent` with the connector's
      collaborators fixed. */
  function Handler(hooks: Hooks, conf: ConnectorConf, client: Client, env: Env): EventHandler {
    (event: Json, draw: nat, session: Session, flags: Flags) =>
      HandleEvent(event, draw, session, flags, hooks, conf, client, env)
  }

  /** `handleBotActions` over the digested request. */
  function HandleBotActions(events: seq<Json>, session: Session, hooks: Hooks,
                            conf: ConnectorConf, client: Client, env: Env): BatchResult {
    Run(events, 0, session, InitialFlags, Handler(hooks, conf, client, env))
  }

  /** The flags after an event, given those before it. */
  function NextFlags(before: Flags, rec: StepRecord): Flags {
    Flags(rec.escalationSignal || before.needEscalation,
          if Truthy(rec.ratingSignal) then rec.ratingSignal else before.needContentRating)
  }

  /** A body that carries the flags forward as `handleBotActions` does. */
  ghost predicate ChainsFlags(step: EventHandler) {
    forall e, d, s, f :: step(e, d, s, f).Success? ==>
      step(e, d, s, f).value.flags == NextFlags(f, step(e, d, s, f).value)
  }

  /** A body that sends every message it produces. */
  ghost predicate SendsAll(step: EventHandler, client: Client) {
    forall e, d, s, f :: step(e, d, s, f).Success? ==>
      Send(client, step(e, d, s, f).value.outgoing) == Success(step(e, d, s, f).value.calls)
  }

  /** `HandleEvent` is such a body. */
  lemma HandlerIsSound(hooks: Hooks, conf: ConnectorConf, client: Client, env: Env)
    ensures ChainsFlags(Handler(hooks, conf, client, env))
    ensures SendsAll(Handler(hooks, conf, client, env), client)
  {
    var step := Handler(hooks, conf, client, env);
    forall e, d, s, f | step(e, d, s, f).Success?
      ensures step(e, d, s, f).value.flags == NextFlags(f, step(e, d, s, f).value)
      ensures Send(client, step(e, d, s, f).value.outgoing) == Success(step(e, d, s, f).value.calls)
    {
      assert step(e, d, s, f) == HandleEvent(e, d, s, f, hooks, conf, client, env);
    }
  }

  /** A body whose events send the escalation entry the session calls for
      and flip the asking flag exactly when escalation is needed. */
  ghost predicate TogglesAsking(step: EventHandler, env: Env) {
    forall e, d, s, f :: step(e, d, s, f).Success? ==>
      step(e, d, s, f).value.escalation == EscalationEntries(step(e, d, s, f).value.flags.needEscalation, s, env) &&
      AskingForEscalation(step(e, d, s, f).value.session) ==
        (step(e, d, s, f).value.flags.needEscalation != AskingForEscalation(s))
  }

  /** `HandleEvent` is such a body when the parent's steps leave the flag
      alone. */
  lemma HandlerTogglesAsking(hooks: Hooks, conf: ConnectorConf, client: Client, env: Env)
    requires KeepsAsking(hooks)
    ensures TogglesAsking(Handler(hooks, conf, client, env), env)
  {
    var step := Handler(hooks, conf, client, env);
    forall e, d, s, f | step(e, d, s, f).Success?
      ensures step(e, d, s, f).value.escalation == EscalationEntries(step(e, d, s, f).value.flags.needEscalation, s, env)
      ensures AskingForEscalation(step(e, d, s, f).value.session) ==
        (step(e, d, s, f).value.flags.needEscalation != AskingForEscalation(s))
    {
      assert step(e, d, s, f) == HandleEvent(e, d, s, f, hooks, conf, client, env);
      EventAlternates(e, d, s, f, hooks, conf, client, env);
    }
  }

  /** One step of `Run`: a handled event heads the rest of the trace, an
      event that fails stops the loop there. */
  lemma RunUnfold(events: seq<Json>, i: nat, session: Session, flags: Flags, step: EventHandler)
    requires i < |events|
    ensures var h := step(events[i], i, session, flags);
      var r := Run(events, i, session, flags, step);
      (h.Failure? ==> r == BatchResult([], Some(h.error))) &&
      (h.Success? ==>
        var rest := Run(events, i + 1, h.value.session, h.value.flags, step);
        r == BatchResult([h.value] + rest.trace, rest.stopped))
  {
  }

  /** Each record's flags follow from the previous record's. */
  predicate Chained(t: seq<StepRecord>, initial: Flags) {
    forall k {:trigger FlagsBefore(t, k, initial)} :: 0 <= k < |t| ==>
      t[k].flags == NextFlags(FlagsBefore(t, k, initial), t[k])
  }

  /** The flags in force when record `k` began. */
  function FlagsBefore(t: seq<StepRecord>, k: nat, initial: Flags): Flags
    requires k <= |t|
  {
    if k == 0 then initial else t[k - 1].flags
  }

  /** The session in force when record `k` began. */
  function SessionBefore(t: seq<StepRecord>, k: nat, initial: Session): Session
    requires k <= |t|
  {
    if k == 0 then initial else t[k - 1].session
  }

  /** Record `k` of the trace is what the body made of event `i + k` from
      the session and flags the previous record left. */
  lemma {:induction false} RunStep(events: seq<Json>, i: nat, session: Session, flags: Flags, step: EventHandler, k: nat)
    requires i <= |events|
    requires k < |Run(events, i, session, flags, step).trace|
    ensures i + k < |events|
    ensures var t := Run(events, i, session, flags, step).trace;
      step(events[i + k], i + k, SessionBefore(t, k, session), FlagsBefore(t, k, flags)) == Success(t[k])
    decreases k
  {
    RunUnfold(events, i, session, flags, step);
    var rec := step(events[i], i, session, flags).value;
    var rest := Run(events, i + 1, rec.session, rec.flags, step).trace;
    var t := Run(events, i, session, flags, step).trace;
    assert t == [rec] + rest;
    if k > 0 {
      RunStep(events, i + 1, rec.session, rec.flags, step, k - 1);
      assert t[k] == rest[k - 1];
      assert t[k - 1] == if k == 1 then rec else rest[k - 2];
    }
  }

  /** Every handled event's messages went out in its push calls. */
  predicate Delivered(t: seq<StepRecord>, client: Client) {
    forall k :: 0 <= k < |t| ==> Send(client, t[k].outgoing) == Success(t[k].calls)
  }

  lemma {:induction false} RunIsChained(events: seq<Json>, i: nat, session: Session, flags: Flags, step: EventHandler)
    requires i <= |events| && ChainsFlags(step)
    ensures Chained(Run(events, i, session, flags, step).trace, flags)
    decreases |events| - i
  {
    if i < |events| {
      RunUnfold(events, i, session, flags, step);
      var h := step(events[i], i, session, flags);
      if h.Success? {
        var rec := h.value;
        RunIsChained(events, i + 1, rec.session, rec.flags, step);
        var rest := Run(events, i + 1, rec.session, rec.flags, step).trace;
        ChainedCons(rec, rest, flags);
      }
    }
  }

  lemma ChainedCons(rec: StepRecord, rest: seq<StepRecord>, initial: Flags)
    requires rec.flags == NextFlags(initial, rec) && Chained(rest, rec.flags)
    ensures Chained([rec] + rest, initial)
  {
    var t := [rec] + rest;
    forall k | 0 <= k < |t|
      ensures t[k].flags == NextFlags(FlagsBefore(t, k, initial), t[k])
    {
      if k > 0 {
        assert t[k] == rest[k - 1];
        assert t[k - 1] == if k == 1 then rec else rest[k - 2];
        assert rest[k - 1].flags == NextFlags(FlagsBefore(rest, k - 1, rec.flags), rest[k - 1]);
      }
    }
  }

  lemma {:induction false} RunDelivers(events: seq<Json>, i: nat, session: Session, flags: Flags,
                                       step: EventHandler, client: Client)
    requires i <= |events| && SendsAll(step, client)
    ensures Delivered(Run(events, i, session, flags, step).trace, client)
    decreases |events| - i
  {
    if i < |events| {
      RunUnfold(events, i, session, flags, step);
      var h := step(events[i], i, session, flags);
      if h.Success? {
        var rec := h.value;
        RunDelivers(events, i + 1, rec.session, rec.flags, step, client);
        var rest := Run(events, i + 1, rec.session, rec.flags, step).trace;
        var t := [rec] + rest;
        forall k | 0 <= k < |t|
          ensures Send(client, t[k].outgoing) == Success(t[k].calls)
        {
          if k > 0 {
            assert t[k] == rest[k - 1];
          }
        }
      }
    }
  }

  /** Some of the first `n` records signalled escalation. */
  function AnySignal(t: seq<StepRecord>, n: nat): bool
    requires n <= |t|
  {
    n > 0 && (t[n - 1].escalationSignal || AnySignal(t, n - 1))
  }

  lemma {:induction false} AnySignalExists(t: seq<StepRecord>, n: nat)
    requires n <= |t|
    ensures AnySignal(t, n) <==> exists j :: 0 <= j < n && t[j].escalationSignal
  {
    if n > 0 {
      AnySignalExists(t, n - 1);
      if exists j :: 0 <= j < n && t[j].escalationSignal {
        var j :| 0 <= j < n && t[j].escalationSignal;
        if j < n - 1 {
          assert 0 <= j < n - 1 && t[j].escalationSignal;
        }
      }
    }
  }

  /** In a chained trace the escalation flag after record `k` is set
      exactly when it was set before the first record or some record up to
      `k` signalled escalation. */
  lemma {:induction false} ChainedEscalation(t: seq<StepRecord>, initial: Flags, k: nat)
    requires Chained(t, initial) && k < |t|
    ensures t[k].flags.needEscalation <==> initial.needEscalation || AnySignal(t, k + 1)
  {
    assert t[k].flags == NextFlags(FlagsBefore(t, k, initial), t[k]);
    if k > 0 {
      ChainedEscalation(t, initial, k - 1);
    }
  }

  /** In a chained trace the pending rating code after record `k` is the
      last rating code seen up to `k`. */
  lemma {:induction false} ChainedRating(t: seq<StepRecord>, initial: Flags, k: nat)
    requires Chained(t, initial) && k < |t|
    ensures t[k].flags.needContentRating == LastRatingCode(t, k + 1, initial.needContentRating)
  {
    assert t[k].flags == NextFlags(FlagsBefore(t, k, initial), t[k]);
    if k > 0 {
      ChainedRating(t, initial, k - 1);
    }
  }

  /** The most recent truthy rating signal among the first `n` records, or
      `initial` when there is none. */
  function LastRatingCode(t: seq<StepRecord>, n: nat, initial: Json): Json
    requires n <= |t|
  {
    if n == 0 then initial
    else if Truthy(t[n - 1].ratingSignal) then t[n - 1].ratingSignal
    else LastRatingCode(t, n - 1, initial)
  }

  /** In a chained trace starting without escalation, the flag after record
      `k` is set exactly when some record up to `k` signalled escalation. */
  lemma ChainedIsSticky(t: seq<StepRecord>, initial: Flags)
    requires Chained(t, initial) && !initial.needEscalation
    ensures forall k :: 0 <= k < |t| ==>
      (t[k].flags.needEscalation <==> exists j :: 0 <= j < k + 1 && t[j].escalationSignal)
  {
    forall k | 0 <= k < |t|
      ensures t[k].flags.needEscalation <==> exists j :: 0 <= j < k + 1 && t[j].escalationSignal
    {
      ChainedEscalation(t, initial, k);
      AnySignalExists(t, k + 1);
    }
  }

  /** In a delivered trace every record's messages went out, in order, in
      push calls of at most five. */
  lemma DeliveredInOrder(t: seq<StepRecord>, client: Client)
    requires Delivered(t, client)
    ensures forall k :: 0 <= k < |t| ==>
      Pushed(t[k].calls) == t[k].outgoing && |t[k].calls| == (|t[k].outgoing| + 4) / 5
  {
    forall k | 0 <= k < |t|
      ensures Pushed(t[k].calls) == t[k].outgoing && |t[k].calls| == (|t[k].outgoing| + 4) / 5
    {
      assert Send(client, t[k].outgoing) == Success(t[k].calls);
      SendDeliversInOrder(client, t[k].outgoing);
    }
  }

  /** Over a whole request, once escalation is needed it stays needed: the
      flag after event `k` is set exactly when some event up to `k`
      signalled escalation. */
  lemma EscalationIsSticky(events: seq<Json>, session: Session, hooks: Hooks,
                           conf: ConnectorConf, client: Client, env: Env)
    ensures var t := HandleBotActions(events, session, hooks, conf, client, env).trace;
      forall k :: 0 <= k < |t| ==>
        (t[k].flags.needEscalation <==> exists j :: 0 <= j < k + 1 && t[j].escalationSignal)
  {
    HandlerIsSound(hooks, conf, client, env);
    RunIsChained(events, 0, session, InitialFlags, Handler(hooks, conf, client, env));
    ChainedIsSticky(HandleBotActions(events, session, hooks, conf, client, env).trace, InitialFlags);
  }

  /** Over a whole request, once escalation is needed the events alternate
      as long as the parent's steps leave the asking flag alone: an event
      that finds the question unasked sends it, the next one sends null and
      drops it, the one after asks again. */
  lemma EscalationAlternates(events: seq<Json>, session: Session, hooks: Hooks,
                             conf: ConnectorConf, client: Client, env: Env, k: nat)
    requires KeepsAsking(hooks)
    requires var t := HandleBotActions(events, session, hooks, conf, client, env).trace;
      k + 1 < |t| && t[k].flags.needEscalation
    ensures var t := HandleBotActions(events, session, hooks, conf, client, env).trace;
      t[k + 1].escalation == [if AskingForEscalation(t[k].session) then Raw(JNull) else BuildEscalationMessage(env)] &&
      AskingForEscalation(t[k + 1].session) == !AskingForEscalation(t[k].session)
  {
    HandlerIsSound(hooks, conf, client, env);
    HandlerTogglesAsking(hooks, conf, client, env);
    TraceAlternates(events, 0, session, InitialFlags, Handler(hooks, conf, client, env), env, k);
  }

  /** Consecutive records of a trace: record `k + 1` is the body applied to
      the session and flags record `k` left. */
  lemma TraceStep(events: seq<Json>, i: nat, session: Session, flags: Flags, step: EventHandler, k: nat)
    requires i <= |events|
    requires k + 1 < |Run(events, i, session, flags, step).trace|
    ensures i + k + 1 < |events|
    ensures var t := Run(events, i, session, flags, step).trace;
      step(events[i + k + 1], i + k + 1, t[k].session, t[k].flags) == Success(t[k + 1])
  {
    var t := Run(events, i, session, flags, step).trace;
    RunStep(events, i, session, flags, step, k + 1);
    assert SessionBefore(t, k + 1, session) == t[k].session && FlagsBefore(t, k + 1, flags) == t[k].flags;
  }

  /** One event of such a body, with escalation needed before it. */
  lemma StepAlternates(step: EventHandler, env: Env, e: Json, d: nat, s: Session, f: Flags, rec: StepRecord)
    requires ChainsFlags(step) && TogglesAsking(step, env)
    requires step(e, d, s, f) == Success(rec) && f.needEscalation
    ensures rec.escalation == [if AskingForEscalation(s) then Raw(JNull) else BuildEscalationMessage(env)]
    ensures AskingForEscalation(rec.session) == !AskingForEscalation(s)
  {
    assert rec.flags == NextFlags(f, rec);
  }

  /** The same for any body that carries the flags forward and toggles the
      asking flag as `HandleEvent` does. */
  lemma TraceAlternates(events: seq<Json>, i: nat, session: Session, flags: Flags, step: EventHandler, env: Env, k: nat)
    requires i <= |events| && ChainsFlags(step) && TogglesAsking(step, env)
    requires var t := Run(events, i, session, flags, step).trace;
      k + 1 < |t| && t[k].flags.needEscalation
    ensures var t := Run(events, i, session, flags, step).trace;
      t[k + 1].escalation == [if AskingForEscalation(t[k].session) then Raw(JNull) else BuildEscalationMessage(env)] &&
      AskingForEscalation(t[k + 1].session) == !AskingForEscalation(t[k].session)
  {
    var t := Run(events, i, session, flags, step).trace;
    TraceStep(events, i, session, flags, step, k);
    StepAlternates(step, env, events[i + k + 1], i + k + 1, t[k].session, t[k].flags, t[k + 1]);
  }

  /** Over a whole request, the pending rating code after event `k` is the
      last one a response up to `k` carried: a later response without one
      does not clear it. */
  lemma RatingCodeIsLastSeen(events: seq<Json>, session: Session, hooks: Hooks,
                             conf: ConnectorConf, client: Client, env: Env)
    ensures var t := HandleBotActions(events, session, hooks, conf, client, env).trace;
      forall k :: 0 <= k < |t| ==> t[k].flags.needContentRating == LastRatingCode(t, k + 1, JBool(false))
  {
    var t := HandleBotActions(events, session, hooks, conf, client, env).trace;
    HandlerIsSound(hooks, conf, client, env);
    RunIsChained(events, 0, session, InitialFlags, Handler(hooks, conf, client, env));
    forall k | 0 <= k < |t|
      ensures t[k].flags.needContentRating == LastRatingCode(t, k + 1, JBool(false))
    {
      ChainedRating(t, InitialFlags, k);
    }
  }

  /** Every handled event's messages went out, in order, in push calls of
      at most five. */
  lemma EveryEventDelivered(events: seq<Json>, session: Session, hooks: Hooks,
                            conf: ConnectorConf, client: Client, env: Env)
    ensures var t := HandleBotActions(events, session, hooks, conf, client, env).trace;
      forall k :: 0 <= k < |t| ==>
        Pushed(t[k].calls) == t[k].outgoing && |t[k].calls| == (|t[k].outgoing| + 4) / 5
  {
    HandlerIsSound(hooks, conf, client, env);
    RunDelivers(events, 0, session, InitialFlags, Handler(hooks, conf, client, env), client);
    DeliveredInOrder(HandleBotActions(events, session, hooks, conf, client, env).trace, client);
  }
}
