/** The round trip through LINE: a button or quick-reply item the digester
    builds posts back a session key, and digesting that postback yields
    what was stored under the key. */
module PostbackRoundTrip {
  import opened Wrappers
  import opened Bytes
  import opened Json
  import opened Context
  import opened LinePayloads
  import opened LineOutbound
  import opened LineInbound
  import LineConnectorFlow

  /** The webhook event LINE sends when a postback action with `data` is
      tapped. */
  function PostbackEvent(data: Bytes): (e: Json)
    ensures Get(Get(e, "postback"), "data") == JStr(data)
  {
    Obj2("type", JStr("postback"), "postback", Obj1("data", JStr(data)))
  }

  lemma PostbackEventIsPostback(data: Bytes)
    ensures Classify(PostbackEvent(data)) == Postback
  {
    var e := PostbackEvent(data);
    var ms := [Member("type", JStr("postback")), Member("postback", Obj1("data", JStr(data)))];
    assert e == JObj(ms);
    assert ms[1..][1..] == [];
    assert Lookup(ms[1..], "message") == None;
    assert Get(e, "type") == JStr("postback");
    assert Get(e, "message") == JNull;
  }

  /** A saved key's first segment is `sessionSaved`, whatever the name. */
  lemma SavedKeyIsSessionKey(name: Bytes)
    ensures IsSessionKey(SavedKey(name))
  {
    FirstSegmentOfDashed("sessionSaved", name);
  }

  /** Both key families are read back from the session. */
  lemma ExtendedKeyIsSessionKey(n: nat)
    ensures IsSessionKey(ExtendedKey(n))
  {
    SavedKeyIsSessionKey("extendedContentAnswer" + NatToDecimal(n));
  }

  lemma RateKeyIsSessionKey(n: nat)
    ensures IsSessionKey(RateKey(n))
  {
    SavedKeyIsSessionKey("rateCode" + NatToDecimal(n));
  }

  /** Tapping the `i`-th option of an extended-contents answer brings back
      the `i`-th sub-answer, wrapped as `extendedContentAnswer`. */
  lemma ExtendedContentsRoundTrip(m: BotMessage, session: Session, conf: DigesterConf, env: Env, draw: nat, i: nat)
    requires ApiKindOf(m) == Some(ExtendedContentsAnswer) && i < |m.subAnswers|
    ensures var p := DigestExtendedContents(m, conf, env);
      p.actions[i].PostbackAction? && p.actions[i].data.SessionRef? &&
      var e := PostbackEvent(p.actions[i].data.key);
      Classify(e) == Postback &&
      DigestEvent(e, Classify(e), draw, MessageWrites(session, m), env, conf) == Success(ExtendedDoc(m.subAnswers[i]))
  {
    var key := ExtendedKey(i);
    PostbackEventIsPostback(key);
    ExtendedKeyIsSessionKey(i);
    StoreSubAnswersContents(session, m.subAnswers);
  }

  /** Keys are numbered per message, so a second extended-contents answer
      in the same response takes over the first one's keys: tapping the
      first answer's `j`-th button then brings back the second answer's
      `j`-th sub-answer. */
  lemma LaterExtendedAnswerTakesOverKeys(session: Session, m1: BotMessage, m2: BotMessage, j: nat)
    requires ApiKindOf(m1) == Some(ExtendedContentsAnswer) && ApiKindOf(m2) == Some(ExtendedContentsAnswer)
    requires j < |m1.subAnswers| && j < |m2.subAnswers|
    ensures var s := MessageWrites(MessageWrites(session, m1), m2);
      ExtendedKey(j) in s && s[ExtendedKey(j)] == ExtendedDoc(m2.subAnswers[j])
  {
    StoreSubAnswersContents(MessageWrites(session, m1), m2.subAnswers);
  }

  /** ...and the connector then shows that sub-answer instead of asking the
      chatbot, unless an escalation question is pending. */
  lemma ChosenSubAnswerIsDisplayed(m: BotMessage, session: Session, conf: DigesterConf, env: Env, i: nat)
    requires ApiKindOf(m) == Some(ExtendedContentsAnswer) && i < |m.subAnswers|
    requires m.subAnswers[i].body != JNull
    requires !LineConnectorFlow.AskingForEscalation(session)
    ensures LineConnectorFlow.HandleNonBotActions([ExtendedDoc(m.subAnswers[i])], session, env) ==
            LineConnectorFlow.FederatedAnswer(session, m.subAnswers[i].body)
  {
  }

  /** A stored rating is the `rate` event for its option and rate code. */
  lemma RatingDocIsRateEvent(o: RatingOption, rateCode: Json)
    ensures var data := Get(Get(RatingDoc(o, rateCode), "ratingData"), "data");
      Get(Get(RatingDoc(o, rateCode), "ratingData"), "type") == JStr("rate") &&
      Get(data, "code") == rateCode && Get(data, "value") == o.id && Get(data, "comment") == JNull
  {
  }

  /** Tapping the `i`-th rating option brings back that option's rating,
      carrying the rate code the question was built with. */
  lemma RatingRoundTrip(options: seq<RatingOption>, rateCode: Json, session: Session, conf: DigesterConf, env: Env, draw: nat, i: nat)
    requires i < |options|
    ensures var (p, s) := BuildContentRatingsMessage(options, rateCode, session, env);
      p.items[i].PostbackAction? && p.items[i].data.SessionRef? &&
      var e := PostbackEvent(p.items[i].data.key);
      Classify(e) == Postback &&
      DigestEvent(e, Classify(e), draw, s, env, conf) == Success(RatingDoc(options[i], rateCode))
  {
    var (p, s) := BuildContentRatingsMessage(options, rateCode, session, env);
    var key := RateKey(i);
    assert p.items[i].data == SessionRef(key);
    assert key in s && s[key] == RatingDoc(options[i], rateCode);
    var e := PostbackEvent(key);
    PostbackEventIsPostback(key);
    RateKeyIsSessionKey(i);
    assert DigestPostback(e, s, env) == Success(RatingDoc(options[i], rateCode));
  }
}
