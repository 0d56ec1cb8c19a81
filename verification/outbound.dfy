/** The chatbot → LINE half of `LineDigester`: `digestFromApi`, the
    `digestFromApi*` digesters, and the builders for content-rating and
    escalation quick replies. */
module LineOutbound {
  import opened Wrappers
  import opened Bytes
  import opened Json
  import opened Context
  import opened LinePayloads

  /** An option of a polar or multiple-choice question. */
  datatype BotOption = BotOption(labelText: Bytes, value: Json, attributes: map<Bytes, Bytes>)

  /** A sub-answer of an extended-contents answer; `body` is the whole
      object, which is what gets stored in the session. */
  datatype SubAnswer = SubAnswer(message: Bytes, attributes: map<Bytes, Bytes>, body: Json)

  /** One message of a chatbot answer. Absent fields read as empty. */
  datatype BotMessage = BotMessage(
    msgType: Bytes,
    message: Bytes,
    flags: seq<Bytes>,
    options: seq<BotOption>,
    subAnswers: seq<SubAnswer>,
    attributes: map<Bytes, Json>)

  /** What `sendMessageToBot` hands back: nothing (`[]` or `null`), a
      response object whose `answers` is a list, or a single message object. */
  datatype BotResponse = NoResponse | Answers(answers: seq<BotMessage>) | Single(msg: BotMessage)

  /** A configured content-rating option (`conversation.content_ratings.ratings`). */
  datatype RatingOption = RatingOption(id: Json, labelText: Bytes, comment: bool, isNegative: bool)

  datatype ApiKind = Answer | PolarQuestion | MultipleChoiceQuestion | ExtendedContentsAnswer

  /** The four `isApi*` checkers; they test `type` against distinct strings,
      so their order does not matter. */
  function ApiKindOf(m: BotMessage): Option<ApiKind> {
    if m.msgType == "answer" then Some(Answer)
    else if m.msgType == "polarQuestion" then Some(PolarQuestion)
    else if m.msgType == "multipleChoiceQuestion" then Some(MultipleChoiceQuestion)
    else if m.msgType == "extendedContentsAnswer" then Some(ExtendedContentsAnswer)
    else None
  }

  /** The result of one `digestFromApi*` digester: one payload, or a
      `multiple_output` list. */
  datatype Digested = One(payload: Payload) | Many(payloads: seq<Payload>)

  /** The `buttons` template every question and button answer uses. */
  function Template(m: BotMessage, env: Env, actions: seq<Action>): (p: Payload)
    ensures p.Buttons? && p.actions == actions
    ensures p.text == env.stripTags(m.message)
    ensures p.altText == Prefix(p.text, AltTextLimit)
  {
    var text := env.stripTags(m.message);
    Buttons(Prefix(text, AltTextLimit), text, actions)
  }

  // ---------------------------------------------------------------- answers

  /** `strpos($s, '<img')` used as a condition: an occurrence at index 0
      reads as false. */
  predicate HasInlineImage(s: Bytes) {
    var at := IndexOf(s, "<img");
    at.Some? && at.value > 0
  }

  function SecureUrl(part: Bytes): Bytes {
    ReplaceAll(part, "http://", "https://")
  }

  /** One part of a split message: a URL becomes an image, anything else text. */
  function ImageOrText(part: Bytes): Payload {
    if Prefix(part, 4) == "http" then ImageMsg(SecureUrl(part), SecureUrl(part))
    else TextMsg(part)
  }

  /** `handleMessageWithImages`, given the parts `preg_split` produced. */
  function HandleMessageWithImages(parts: seq<Bytes>): (r: seq<Payload>)
    ensures |r| == |parts|
    ensures forall i :: 0 <= i < |parts| ==> (r[i].ImageMsg? <==> StartsWith(parts[i], "http"))
    ensures forall i :: 0 <= i < |parts| && r[i].ImageMsg? ==>
      r[i].originalContentUrl == r[i].previewImageUrl == SecureUrl(parts[i])
    ensures forall i :: 0 <= i < |parts| && !r[i].ImageMsg? ==> r[i] == TextMsg(parts[i])
  {
    seq(|parts|, i requires 0 <= i < |parts| => ImageOrText(parts[i]))
  }

  /** Image URLs given as `http://` are sent as `https://`; other URLs and
      text parts go out unchanged. */
  lemma ImageUrlsAreSecured(parts: seq<Bytes>, i: nat)
    requires i < |parts|
    ensures StartsWith(parts[i], "http://") ==>
      HandleMessageWithImages(parts)[i].ImageMsg? &&
      StartsWith(HandleMessageWithImages(parts)[i].originalContentUrl, "https://")
    ensures StartsWith(parts[i], "http") && (forall j: nat :: !OccursAt(parts[i], "http://", j)) ==>
      HandleMessageWithImages(parts)[i] == ImageMsg(parts[i], parts[i])
  {
    if StartsWith(parts[i], "http://") {
      assert parts[i][..4] == parts[i][..7][..4];
      ReplaceAllLeading(parts[i], "http://", "https://");
    }
    if forall j: nat :: !OccursAt(parts[i], "http://", j) {
      ReplaceAllAbsent(parts[i], "http://", "https://");
    }
  }

  /** A URL button with a non-empty title and URL. */
  predicate UsableButton(b: Json, conf: DigesterConf) {
    Has(b, conf.urlButtons.urlVar) && Has(b, conf.urlButtons.titleVar) &&
    !Empty(Get(b, conf.urlButtons.urlVar)) && !Empty(Get(b, conf.urlButtons.titleVar))
  }

  /** `a` is the `uri` action button `b` yields: its URL, and its title cut
      to 20 bytes as the label. */
  predicate IsUriActionFor(a: Action, b: Json, conf: DigesterConf) {
    a.UriAction? && a.uri == Get(b, conf.urlButtons.urlVar) &&
    PhpString(Get(b, conf.urlButtons.titleVar)).Some? &&
    a.labelText == Prefix(PhpString(Get(b, conf.urlButtons.titleVar)).value, LabelLimit)
  }

  /** The loop of `buildUrlButtonMessage`: `None` as soon as a button is
      unusable, otherwise one `uri` action per button. */
  function UrlActions(buttons: seq<Json>, conf: DigesterConf): (r: Result<Option<seq<Action>>>)
    ensures r.Success? && r.value.Some? ==> |r.value.value| == |buttons|
  {
    if |buttons| == 0 then Success(Some([]))
    else
      var b := buttons[0];
      if !UsableButton(b, conf) then Success(None)
      else
        var title :- PhpString(Get(b, conf.urlButtons.titleVar)).ToResult(NotConvertibleToString);
        var rest :- UrlActions(buttons[1..], conf);
        if rest.None? then Success(None)
        else Success(Some([UriAction(Prefix(title, LabelLimit), Get(b, conf.urlButtons.urlVar))] + rest.value))
  }

  /** One turn of the loop: actions come out only when the first button is
      usable and the rest yield actions. */
  lemma UrlActionsStep(buttons: seq<Json>, conf: DigesterConf)
    requires |buttons| > 0
    ensures var r := UrlActions(buttons, conf);
      var rest := UrlActions(buttons[1..], conf);
      r.Success? && r.value.Some? ==>
        UsableButton(buttons[0], conf) && rest.Success? && rest.value.Some? &&
        |r.value.value| > 0 && IsUriActionFor(r.value.value[0], buttons[0], conf) &&
        r.value.value[1..] == rest.value.value
    ensures UsableButton(buttons[0], conf) && UrlActions(buttons[1..], conf) != Success(None) ==>
      UrlActions(buttons, conf) != Success(None)
  {
  }

  /** Actions come out only when every button is usable, one per button in
      order. */
  lemma {:induction false} UrlActionsContents(buttons: seq<Json>, conf: DigesterConf)
    ensures var r := UrlActions(buttons, conf);
      r.Success? && r.value.Some? ==>
        (forall i :: 0 <= i < |buttons| ==> UsableButton(buttons[i], conf)) &&
        forall i :: 0 <= i < |buttons| ==> IsUriActionFor(r.value.value[i], buttons[i], conf)
  {
    if |buttons| > 0 {
      var tail := buttons[1..];
      UrlActionsContents(tail, conf);
      UrlActionsStep(buttons, conf);
      var r := UrlActions(buttons, conf);
      if r.Success? && r.value.Some? {
        var out := r.value.value;
        var rest := UrlActions(tail, conf).value.value;
        forall i | 0 <= i < |buttons|
          ensures UsableButton(buttons[i], conf) && IsUriActionFor(out[i], buttons[i], conf)
        {
          if i > 0 {
            assert buttons[i] == tail[i - 1];
            assert out[i] == out[1..][i - 1] == rest[i - 1];
            assert IsUriActionFor(rest[i - 1], tail[i - 1], conf);
          }
        }
      }
    }
  }

  /** When every button is usable the loop never gives up. */
  lemma {:induction false} UrlActionsAllUsable(buttons: seq<Json>, conf: DigesterConf)
    requires forall i :: 0 <= i < |buttons| ==> UsableButton(buttons[i], conf)
    ensures UrlActions(buttons, conf) != Success(None)
  {
    if |buttons| > 0 {
      var tail := buttons[1..];
      forall i | 0 <= i < |tail|
        ensures UsableButton(tail[i], conf)
      {
        assert tail[i] == buttons[i + 1];
      }
      UrlActionsAllUsable(tail, conf);
      UrlActionsStep(buttons, conf);
    }
  }

  /** `buildUrlButtonMessage`. A single button object is treated as a list of one. */
  function BuildUrlButtonMessage(m: BotMessage, urlButton: Json, conf: DigesterConf, env: Env): Result<Payload> {
    var buttons := if urlButton.JArr? then urlButton.items else [urlButton];
    var actions :- UrlActions(buttons, conf);
    if actions.None? then Success(TextMsg(env.stripTags(m.message)))
    else Success(Template(m, env, actions.value))
  }

  /** The answer carries a non-empty URL-button attribute. */
  predicate HasUrlButtons(m: BotMessage, conf: DigesterConf) {
    conf.urlButtons.attributeName in m.attributes && !Empty(m.attributes[conf.urlButtons.attributeName])
  }

  /** `digestFromApiAnswer`. */
  function DigestAnswer(m: BotMessage, conf: DigesterConf, env: Env): Result<Digested> {
    if HasInlineImage(m.message) then Success(Many(HandleMessageWithImages(env.imageParts(m.message))))
    else if HasUrlButtons(m, conf) then
      var p :- BuildUrlButtonMessage(m, m.attributes[conf.urlButtons.attributeName], conf, env);
      Success(One(p))
    else Success(One(TextMsg(env.stripTags(m.message))))
  }

  /** Which branch an answer takes: images only when `<img` occurs past the
      first byte; URL buttons degrade to plain stripped text when any
      button lacks a title or URL. */
  lemma DigestAnswerBranches(m: BotMessage, conf: DigesterConf, env: Env)
    ensures var r := DigestAnswer(m, conf, env);
      (r.Success? && r.value.Many?) <==> HasInlineImage(m.message)
    ensures StartsWith(m.message, "<img") ==> !HasInlineImage(m.message)
    ensures !HasInlineImage(m.message) && !HasUrlButtons(m, conf) ==>
      DigestAnswer(m, conf, env) == Success(One(TextMsg(env.stripTags(m.message))))
    ensures var r := DigestAnswer(m, conf, env);
      (!HasInlineImage(m.message) && HasUrlButtons(m, conf) &&
       (exists b :: b in ButtonList(m.attributes[conf.urlButtons.attributeName]) && !UsableButton(b, conf)) &&
       r.Success?) ==> r.value == One(TextMsg(env.stripTags(m.message)))
  {
    if StartsWith(m.message, "<img") {
      assert OccursAt(m.message, "<img", 0);
    }
    if !HasInlineImage(m.message) && HasUrlButtons(m, conf) {
      var attr := m.attributes[conf.urlButtons.attributeName];
      UrlActionsContents(ButtonList(attr), conf);
    }
  }

  /** The buttons `buildUrlButtonMessage` iterates over. */
  function ButtonList(urlButton: Json): seq<Json> {
    if urlButton.JArr? then urlButton.items else [urlButton]
  }

  // -------------------------------------------------------------- questions

  /** The inline data of a question option: `{message, option}`. */
  function QuestionData(lastUserQuestion: Json, value: Json): Json {
    Obj2("message", lastUserQuestion, "option", value)
  }

  /** A question option's action: the title shown in full as the display
      text and cut to 20 bytes as the label. */
  function QuestionAction(title: Bytes, lastUserQuestion: Json, value: Json): (a: Action)
    ensures a.PostbackAction? && a.displayText == Some(title)
    ensures a.labelText == Prefix(title, LabelLimit) && |a.labelText| <= LabelLimit
    ensures a.data == Inline(QuestionData(lastUserQuestion, value))
  {
    PostbackAction(Prefix(title, LabelLimit), Some(title), Inline(QuestionData(lastUserQuestion, value)))
  }

  /** `digestFromApiPolarQuestion`: option labels are translation keys. */
  function DigestPolarQuestion(m: BotMessage, lastUserQuestion: Json, env: Env): Payload {
    Template(m, env, seq(|m.options|, i requires 0 <= i < |m.options| =>
      QuestionAction(env.translate(m.options[i].labelText), lastUserQuestion, m.options[i].value)))
  }

  /** The `multiple-options` flag. */
  predicate IsMultiple(m: BotMessage) {
    "multiple-options" in m.flags
  }

  /** The title of a multiple-choice option: the configured button-title
      attribute when the flag is set and the option has it, else its label. */
  function ChoiceTitle(m: BotMessage, o: BotOption, conf: DigesterConf): Bytes {
    if IsMultiple(m) && conf.buttonTitle in o.attributes then o.attributes[conf.buttonTitle] else o.labelText
  }

  /** `digestFromApiMultipleChoiceQuestion`. */
  function DigestMultipleChoice(m: BotMessage, lastUserQuestion: Json, conf: DigesterConf, env: Env): Payload {
    Template(m, env, seq(|m.options|, i requires 0 <= i < |m.options| =>
      QuestionAction(ChoiceTitle(m, m.options[i], conf), lastUserQuestion, m.options[i].value)))
  }

  /** A question template: one postback action per option, in option order,
      each carrying `{message: lastUserQuestion, option: value}` and a label
      of at most 20 bytes cut from its display text. */
  predicate IsQuestionTemplate(p: Payload, options: seq<BotOption>, lastUserQuestion: Json) {
    p.Buttons? && |p.actions| == |options| &&
    p.altText == Prefix(p.text, AltTextLimit) &&
    forall i :: 0 <= i < |options| ==>
      p.actions[i].PostbackAction? && p.actions[i].displayText.Some? &&
      p.actions[i].labelText == Prefix(p.actions[i].displayText.value, LabelLimit) &&
      p.actions[i].data == Inline(QuestionData(lastUserQuestion, options[i].value))
  }

  /** Polar questions show translated option labels. */
  lemma PolarQuestionTemplate(m: BotMessage, lastUserQuestion: Json, env: Env)
    ensures IsQuestionTemplate(DigestPolarQuestion(m, lastUserQuestion, env), m.options, lastUserQuestion)
    ensures forall i :: 0 <= i < |m.options| ==>
      DigestPolarQuestion(m, lastUserQuestion, env).actions[i].displayText == Some(env.translate(m.options[i].labelText))
  {
    var p := DigestPolarQuestion(m, lastUserQuestion, env);
    forall i | 0 <= i < |m.options|
      ensures p.actions[i].PostbackAction? && p.actions[i].displayText.Some?
      ensures p.actions[i].labelText == Prefix(p.actions[i].displayText.value, LabelLimit)
      ensures p.actions[i].data == Inline(QuestionData(lastUserQuestion, m.options[i].value))
    {
      assert p.actions[i] == QuestionAction(env.translate(m.options[i].labelText), lastUserQuestion, m.options[i].value);
    }
  }

  /** Multiple-choice questions show the button-title attribute only when
      the `multiple-options` flag is set and the option has it. */
  lemma MultipleChoiceTemplate(m: BotMessage, lastUserQuestion: Json, conf: DigesterConf, env: Env)
    ensures IsQuestionTemplate(DigestMultipleChoice(m, lastUserQuestion, conf, env), m.options, lastUserQuestion)
    ensures forall i :: 0 <= i < |m.options| ==>
      DigestMultipleChoice(m, lastUserQuestion, conf, env).actions[i].displayText ==
        Some(if IsMultiple(m) && conf.buttonTitle in m.options[i].attributes
             then m.options[i].attributes[conf.buttonTitle] else m.options[i].labelText)
  {
  }

  // ----------------------------------------------------- extended contents

  /** No key occurs twice. */
  predicate DistinctKeys(keys: seq<Bytes>) {
    forall a, b :: 0 <= a < b < |keys| ==> keys[a] != keys[b]
  }

  /** The loop `$_SESSION[keys[j]] = docs[j]` for `j` from `i` on. */
  function StoreDocs(session: Session, keys: seq<Bytes>, docs: seq<Json>, i: nat): Session
    requires |keys| == |docs|
    decreases |keys| - i
  {
    if i >= |keys| then session
    else StoreDocs(session[keys[i] := docs[i]], keys, docs, i + 1)
  }

  /** A key the loop does not write keeps its value. */
  lemma {:induction false} StoreDocsOther(session: Session, keys: seq<Bytes>, docs: seq<Json>, i: nat, k: Bytes)
    requires |keys| == |docs|
    requires forall j :: i <= j < |keys| ==> k != keys[j]
    ensures var s' := StoreDocs(session, keys, docs, i);
      (k in s' <==> k in session) && (k in session ==> s'[k] == session[k])
    decreases |keys| - i
  {
    if i < |keys| {
      StoreDocsOther(session[keys[i] := docs[i]], keys, docs, i + 1, k);
    }
  }

  /** With distinct keys, key `j` ends up holding document `j`. */
  lemma {:induction false} StoreDocsAt(session: Session, keys: seq<Bytes>, docs: seq<Json>, i: nat, j: nat)
    requires |keys| == |docs| && DistinctKeys(keys)
    requires i <= j < |keys|
    ensures var s' := StoreDocs(session, keys, docs, i);
      keys[j] in s' && s'[keys[j]] == docs[j]
    decreases |keys| - i
  {
    var s1 := session[keys[i] := docs[i]];
    if j == i {
      StoreDocsOther(s1, keys, docs, i + 1, keys[i]);
    } else {
      StoreDocsAt(s1, keys, docs, i + 1, j);
    }
  }

  /** `'sessionSaved-extendedContentAnswer' . $count`. */
  function ExtendedKey(n: nat): Bytes {
    SavedKey("extendedContentAnswer" + NatToDecimal(n))
  }

  /** `'sessionSaved-rateCode' . $count`. */
  function RateKey(n: nat): Bytes {
    SavedKey("rateCode" + NatToDecimal(n))
  }

  lemma ExtendedKeyInjective(m: nat, n: nat)
    requires ExtendedKey(m) == ExtendedKey(n)
    ensures m == n
  {
    var p: Bytes := "extendedContentAnswer";
    SavedKeyInjective(p + NatToDecimal(m), p + NatToDecimal(n));
    assert NatToDecimal(m) == (p + NatToDecimal(m))[|p|..];
    assert NatToDecimal(n) == (p + NatToDecimal(n))[|p|..];
    NatToDecimalInjective(m, n);
  }

  lemma RateKeyInjective(m: nat, n: nat)
    requires RateKey(m) == RateKey(n)
    ensures m == n
  {
    var p: Bytes := "rateCode";
    SavedKeyInjective(p + NatToDecimal(m), p + NatToDecimal(n));
    assert NatToDecimal(m) == (p + NatToDecimal(m))[|p|..];
    assert NatToDecimal(n) == (p + NatToDecimal(n))[|p|..];
    NatToDecimalInjective(m, n);
  }

  /** The two key families never meet. */
  lemma ExtendedKeyIsNotRateKey(m: nat, n: nat)
    ensures ExtendedKey(m) != RateKey(n)
  {
    var x := "extendedContentAnswer" + NatToDecimal(m);
    var y := "rateCode" + NatToDecimal(n);
    assert x[0] == 'e' && y[0] == 'r';
    if ExtendedKey(m) == RateKey(n) {
      SavedKeyInjective(x, y);
    }
  }

  /** The title of a sub-answer's button. */
  function SubAnswerTitle(s: SubAnswer, conf: DigesterConf): Bytes {
    if conf.buttonTitle in s.attributes then s.attributes[conf.buttonTitle] else s.message
  }

  /** The document stored for a sub-answer. */
  function ExtendedDoc(s: SubAnswer): Json {
    Obj1("extendedContentAnswer", s.body)
  }

  /** The template of `digestFromApiExtendedContentsAnswer`: action `i` posts
      back the key of the `i`-th sub-answer instead of its content. */
  function DigestExtendedContents(m: BotMessage, conf: DigesterConf, env: Env): (p: Payload)
    ensures p.Buttons? && |p.actions| == |m.subAnswers|
    ensures p.altText == Prefix(p.text, AltTextLimit)
    ensures forall i :: 0 <= i < |m.subAnswers| ==>
      p.actions[i] == PostbackAction(Prefix(SubAnswerTitle(m.subAnswers[i], conf), LabelLimit), None,
                                     SessionRef(ExtendedKey(i)))
  {
    Template(m, env, seq(|m.subAnswers|, i requires 0 <= i < |m.subAnswers| =>
      PostbackAction(Prefix(SubAnswerTitle(m.subAnswers[i], conf), LabelLimit), None, SessionRef(ExtendedKey(i)))))
  }

  /** The keys `digestFromApiExtendedContentsAnswer` writes, one per sub-answer. */
  function ExtendedKeys(n: nat): (keys: seq<Bytes>)
    ensures |keys| == n && DistinctKeys(keys)
    ensures forall j :: 0 <= j < n ==> keys[j] == ExtendedKey(j)
  {
    var keys := seq(n, j requires 0 <= j < n => ExtendedKey(j));
    forall a, b | 0 <= a < b < n
      ensures keys[a] != keys[b]
    {
      if keys[a] == keys[b] { ExtendedKeyInjective(a, b); }
    }
    keys
  }

  /** The session writes of `digestFromApiExtendedContentsAnswer`. */
  function StoreSubAnswers(session: Session, subs: seq<SubAnswer>): Session {
    StoreDocs(session, ExtendedKeys(|subs|),
              seq(|subs|, j requires 0 <= j < |subs| => ExtendedDoc(subs[j])), 0)
  }

  /** After storing, key `j` holds sub-answer `j` for every sub-answer, and
      every other key is untouched. */
  lemma StoreSubAnswersContents(session: Session, subs: seq<SubAnswer>)
    ensures var s' := StoreSubAnswers(session, subs);
      forall j :: 0 <= j < |subs| ==> ExtendedKey(j) in s' && s'[ExtendedKey(j)] == ExtendedDoc(subs[j])
    ensures var s' := StoreSubAnswers(session, subs);
      forall k :: (forall j :: 0 <= j < |subs| ==> k != ExtendedKey(j)) ==>
        (k in s' <==> k in session) && (k in session ==> s'[k] == session[k])
  {
    var keys := ExtendedKeys(|subs|);
    var docs := seq(|subs|, j requires 0 <= j < |subs| => ExtendedDoc(subs[j]));
    var s' := StoreSubAnswers(session, subs);
    forall j | 0 <= j < |subs|
      ensures ExtendedKey(j) in s' && s'[ExtendedKey(j)] == ExtendedDoc(subs[j])
    {
      StoreDocsAt(session, keys, docs, 0, j);
    }
    forall k | forall j :: 0 <= j < |subs| ==> k != ExtendedKey(j)
      ensures (k in s' <==> k in session) && (k in session ==> s'[k] == session[k])
    {
      StoreDocsOther(session, keys, docs, 0, k);
    }
  }

  // ------------------------------------------------------------ digestFromApi

  /** The digester `'digestFromApi' . ucfirst($msgType)` selects. For a
      message of no known type the name is `digestFromApi` itself, and the
      nested call on a message that is neither an answer list nor typed
      throws "Unknown ChatbotAPI response". */
  function DigestMessage(m: BotMessage, lastUserQuestion: Json, conf: DigesterConf, env: Env): Result<Digested> {
    match ApiKindOf(m)
    case None => Failure(UnknownChatbotResponse)
    case Some(Answer) => DigestAnswer(m, conf, env)
    case Some(PolarQuestion) => Success(One(DigestPolarQuestion(m, lastUserQuestion, env)))
    case Some(MultipleChoiceQuestion) => Success(One(DigestMultipleChoice(m, lastUserQuestion, conf, env)))
    case Some(ExtendedContentsAnswer) => Success(One(DigestExtendedContents(m, conf, env)))
  }

  /** The session writes one message's digester makes. */
  function MessageWrites(session: Session, m: BotMessage): Session {
    if ApiKindOf(m) == Some(ExtendedContentsAnswer) then StoreSubAnswers(session, m.subAnswers) else session
  }

  /** The digesters write only `sessionSaved-` keys. */
  lemma MessageWritesKeepUnsaved(session: Session, m: BotMessage, k: Bytes)
    requires !IsSavedKey(k)
    ensures SameAt(MessageWrites(session, m), session, k)
  {
    if ApiKindOf(m) == Some(ExtendedContentsAnswer) {
      forall j | 0 <= j < |m.subAnswers|
        ensures k != ExtendedKey(j)
      {
        SavedKeyIsSaved("extendedContentAnswer" + NatToDecimal(j));
      }
      StoreSubAnswersContents(session, m.subAnswers);
    }
  }

  /** `!$msg->message || $msg->message === ''`: messages skipped. */
  predicate Skipped(m: BotMessage) {
    FalsyString(m.message)
  }

  /** The messages `digestFromApi` iterates over. */
  function MessagesOf(r: BotResponse): Result<seq<BotMessage>> {
    match r
    case Answers(ms) => Success(ms)
    case Single(m) => if ApiKindOf(m).Some? then Success([m]) else Failure(UnknownChatbotResponse)
    case NoResponse => Failure(UnknownChatbotResponse)
  }

  /** The output accumulator of `digestFromApi`: a single payload is
      appended, a `multiple_output` list replaces what came before. */
  function Accumulate(out: seq<Payload>, d: Digested): seq<Payload> {
    match d
    case One(p) => out + [p]
    case Many(ps) => ps
  }

  /** The loop of `digestFromApi` from the `i`-th message on, threading the
      output and the session. */
  function DigestLoop(ms: seq<BotMessage>, i: nat, out: seq<Payload>, session: Session,
                      lastUserQuestion: Json, conf: DigesterConf, env: Env): Result<(seq<Payload>, Session)>
    decreases |ms| - i
  {
    if i >= |ms| then Success((out, session))
    else if Skipped(ms[i]) then DigestLoop(ms, i + 1, out, session, lastUserQuestion, conf, env)
    else
      var d :- DigestMessage(ms[i], lastUserQuestion, conf, env);
      DigestLoop(ms, i + 1, Accumulate(out, d), MessageWrites(session, ms[i]), lastUserQuestion, conf, env)
  }

  /** `digestFromApi`: the payloads to send and the session afterwards. */
  function DigestFromApi(r: BotResponse, lastUserQuestion: Json, session: Session,
                         conf: DigesterConf, env: Env): Result<(seq<Payload>, Session)>
  {
    var ms :- MessagesOf(r);
    DigestLoop(ms, 0, [], session, lastUserQuestion, conf, env)
  }

  /** The loop leaves every key outside the `sessionSaved-` family as it was. */
  lemma {:induction false} DigestLoopKeepsUnsaved(ms: seq<BotMessage>, i: nat, out: seq<Payload>, session: Session,
                                                  lastUserQuestion: Json, conf: DigesterConf, env: Env, k: Bytes)
    requires !IsSavedKey(k)
    requires DigestLoop(ms, i, out, session, lastUserQuestion, conf, env).Success?
    ensures SameAt(DigestLoop(ms, i, out, session, lastUserQuestion, conf, env).value.1, session, k)
    decreases |ms| - i
  {
    if i < |ms| {
      if Skipped(ms[i]) {
        DigestLoopKeepsUnsaved(ms, i + 1, out, session, lastUserQuestion, conf, env, k);
      } else {
        var d := DigestMessage(ms[i], lastUserQuestion, conf, env).value;
        var s1 := MessageWrites(session, ms[i]);
        DigestLoopKeepsUnsaved(ms, i + 1, Accumulate(out, d), s1, lastUserQuestion, conf, env, k);
        MessageWritesKeepUnsaved(session, ms[i], k);
      }
    }
  }

  /** `digestFromApi` writes only `sessionSaved-` keys. */
  lemma DigestFromApiKeepsUnsaved(r: BotResponse, lastUserQuestion: Json, session: Session,
                                  conf: DigesterConf, env: Env, k: Bytes)
    requires !IsSavedKey(k)
    requires DigestFromApi(r, lastUserQuestion, session, conf, env).Success?
    ensures SameAt(DigestFromApi(r, lastUserQuestion, session, conf, env).value.1, session, k)
  {
    DigestLoopKeepsUnsaved(MessagesOf(r).value, 0, [], session, lastUserQuestion, conf, env, k);
  }

  /** Reference for the output: the payloads of the digests in `ds`, except
      that everything before the last `multiple_output` is dropped. */
  function AfterLastMany(ds: seq<Digested>): seq<Payload> {
    if |ds| == 0 then []
    else if ds[|ds| - 1].Many? then ds[|ds| - 1].payloads
    else AfterLastMany(ds[..|ds| - 1]) + [ds[|ds| - 1].payload]
  }

  /** Folding `Accumulate` over digests is the reference: the last
      `multiple_output` list followed by the single payloads after it, or
      all single payloads in order when there is none. */
  lemma {:induction false} AccumulateIsAfterLastMany(out: seq<Payload>, ds: seq<Digested>)
    ensures FoldAccumulate(out, ds) ==
      (if exists j :: 0 <= j < |ds| && ds[j].Many? then AfterLastMany(ds) else out + AfterLastMany(ds))
  {
    if |ds| > 0 {
      var init, last := ds[..|ds| - 1], ds[|ds| - 1];
      assert ds == init + [last];
      FoldAccumulateSnoc(out, init, last);
      AccumulateIsAfterLastMany(out, init);
      if exists j :: 0 <= j < |init| && init[j].Many? {
        var j :| 0 <= j < |init| && init[j].Many?;
        assert ds[j].Many?;
      }
      if last.One? && exists j :: 0 <= j < |ds| && ds[j].Many? {
        var j :| 0 <= j < |ds| && ds[j].Many?;
        assert j < |init| && init[j].Many?;
      }
    }
  }

  /** `Accumulate` folded over a list of digests, left to right. */
  function FoldAccumulate(out: seq<Payload>, ds: seq<Digested>): seq<Payload>
    decreases |ds|
  {
    if |ds| == 0 then out else FoldAccumulate(Accumulate(out, ds[0]), ds[1..])
  }

  lemma {:induction false} FoldAccumulateSnoc(out: seq<Payload>, ds: seq<Digested>, d: Digested)
    ensures FoldAccumulate(out, ds + [d]) == Accumulate(FoldAccumulate(out, ds), d)
    decreases |ds|
  {
    if |ds| > 0 {
      assert (ds + [d])[1..] == ds[1..] + [d];
      FoldAccumulateSnoc(Accumulate(out, ds[0]), ds[1..], d);
    }
  }

  /** The digests `digestFromApi` computes for the messages it does not skip. */
  function DigestsOf(ms: seq<BotMessage>, lastUserQuestion: Json, conf: DigesterConf, env: Env): Result<seq<Digested>> {
    if |ms| == 0 then Success([])
    else if Skipped(ms[0]) then DigestsOf(ms[1..], lastUserQuestion, conf, env)
    else
      var d :- DigestMessage(ms[0], lastUserQuestion, conf, env);
      var rest :- DigestsOf(ms[1..], lastUserQuestion, conf, env);
      Success([d] + rest)
  }

  /** The loop's output is the fold of its digests; it fails exactly when
      some non-skipped message has no digester. */
  lemma {:induction false} DigestLoopIsFold(ms: seq<BotMessage>, i: nat, out: seq<Payload>, session: Session,
                                            lastUserQuestion: Json, conf: DigesterConf, env: Env)
    requires i <= |ms|
    ensures var r := DigestLoop(ms, i, out, session, lastUserQuestion, conf, env);
      var ds := DigestsOf(ms[i..], lastUserQuestion, conf, env);
      r.Success? == ds.Success? && (r.Success? ==> r.value.0 == FoldAccumulate(out, ds.value))
    decreases |ms| - i
  {
    if i < |ms| {
      var tail := ms[i..];
      assert tail[0] == ms[i] && tail[1..] == ms[i + 1..];
      if Skipped(ms[i]) {
        DigestLoopIsFold(ms, i + 1, out, session, lastUserQuestion, conf, env);
      } else {
        var d := DigestMessage(ms[i], lastUserQuestion, conf, env);
        var rest := DigestsOf(ms[i + 1..], lastUserQuestion, conf, env);
        if d.Success? {
          DigestLoopIsFold(ms, i + 1, Accumulate(out, d.value), MessageWrites(session, ms[i]),
                           lastUserQuestion, conf, env);
          assert DigestLoop(ms, i, out, session, lastUserQuestion, conf, env) ==
                 DigestLoop(ms, i + 1, Accumulate(out, d.value), MessageWrites(session, ms[i]), lastUserQuestion, conf, env);
          if rest.Success? {
            assert DigestsOf(tail, lastUserQuestion, conf, env) == Success([d.value] + rest.value);
            assert ([d.value] + rest.value)[1..] == rest.value;
          } else {
            assert DigestsOf(tail, lastUserQuestion, conf, env).Failure?;
          }
        } else {
          assert DigestLoop(ms, i, out, session, lastUserQuestion, conf, env).Failure?;
          assert DigestsOf(tail, lastUserQuestion, conf, env).Failure?;
        }
      }
    }
  }

  /** `digestFromApi` skips empty messages, throws when the response is not
      an answer list or a known single message, and otherwise returns the
      payloads after the last `multiple_output` (all of them if none). */
  lemma DigestFromApiOutput(r: BotResponse, lastUserQuestion: Json, session: Session, conf: DigesterConf, env: Env)
    ensures r.NoResponse? ==> DigestFromApi(r, lastUserQuestion, session, conf, env) == Failure(UnknownChatbotResponse)
    ensures r.Single? && ApiKindOf(r.msg).None? ==>
      DigestFromApi(r, lastUserQuestion, session, conf, env) == Failure(UnknownChatbotResponse)
    ensures MessagesOf(r).Success? ==>
      var out := DigestFromApi(r, lastUserQuestion, session, conf, env);
      var ds := DigestsOf(MessagesOf(r).value, lastUserQuestion, conf, env);
      out.Success? == ds.Success? && (out.Success? ==> out.value.0 == AfterLastMany(ds.value))
  {
    if MessagesOf(r).Success? {
      var ms := MessagesOf(r).value;
      assert ms[0..] == ms;
      DigestLoopIsFold(ms, 0, [], session, lastUserQuestion, conf, env);
      var ds := DigestsOf(ms, lastUserQuestion, conf, env);
      if ds.Success? {
        AccumulateIsAfterLastMany([], ds.value);
      }
    }
  }

  /** Messages with an empty (or `"0"`) text contribute nothing. */
  lemma SkippedMessagesVanish(m: BotMessage, ms: seq<BotMessage>, lastUserQuestion: Json, conf: DigesterConf, env: Env)
    requires Skipped(m)
    ensures DigestsOf([m] + ms, lastUserQuestion, conf, env) == DigestsOf(ms, lastUserQuestion, conf, env)
  {
    assert ([m] + ms)[1..] == ms;
  }

  // ------------------------------------------------------------- builders

  /** The document stored for a rating option. */
  function RatingDoc(o: RatingOption, rateCode: Json): Json {
    Obj3("askRatingComment", JBool(o.comment),
         "isNegativeRating", JBool(o.isNegative),
         "ratingData", Obj2("type", JStr("rate"),
                            "data", Obj3("code", rateCode, "value", o.id, "comment", JNull)))
  }

  /** The keys `buildContentRatingsMessage` writes, one per rating option. */
  function RateKeys(n: nat): (keys: seq<Bytes>)
    ensures |keys| == n && DistinctKeys(keys)
    ensures forall j :: 0 <= j < n ==> keys[j] == RateKey(j)
  {
    var keys := seq(n, j requires 0 <= j < n => RateKey(j));
    forall a, b | 0 <= a < b < n
      ensures keys[a] != keys[b]
    {
      if keys[a] == keys[b] { RateKeyInjective(a, b); }
    }
    keys
  }

  /** The session writes of `buildContentRatingsMessage`. */
  function StoreRatings(session: Session, options: seq<RatingOption>, rateCode: Json): Session {
    StoreDocs(session, RateKeys(|options|),
              seq(|options|, j requires 0 <= j < |options| => RatingDoc(options[j], rateCode)), 0)
  }

  /** After storing, key `j` holds option `j`'s rating for every option,
      and every other key is untouched. */
  lemma StoreRatingsContents(session: Session, options: seq<RatingOption>, rateCode: Json)
    ensures var s' := StoreRatings(session, options, rateCode);
      forall j :: 0 <= j < |options| ==> RateKey(j) in s' && s'[RateKey(j)] == RatingDoc(options[j], rateCode)
    ensures var s' := StoreRatings(session, options, rateCode);
      forall k :: (forall j :: 0 <= j < |options| ==> k != RateKey(j)) ==>
        (k in s' <==> k in session) && (k in session ==> s'[k] == session[k])
  {
    var keys := RateKeys(|options|);
    var docs := seq(|options|, j requires 0 <= j < |options| => RatingDoc(options[j], rateCode));
    var s' := StoreRatings(session, options, rateCode);
    forall j | 0 <= j < |options|
      ensures RateKey(j) in s' && s'[RateKey(j)] == RatingDoc(options[j], rateCode)
    {
      StoreDocsAt(session, keys, docs, 0, j);
    }
    forall k | forall j :: 0 <= j < |options| ==> k != RateKey(j)
      ensures (k in s' <==> k in session) && (k in session ==> s'[k] == session[k])
    {
      StoreDocsOther(session, keys, docs, 0, k);
    }
  }

  /** The quick reply of `buildContentRatingsMessage`. */
  function ContentRatingsMessage(options: seq<RatingOption>, env: Env): (p: Payload)
    ensures p.QuickReply? && |p.items| == |options|
    ensures p.text == env.translate("rate_content_intro")
    ensures forall i :: 0 <= i < |options| ==>
      p.items[i].PostbackAction? && p.items[i].data == SessionRef(RateKey(i)) &&
      p.items[i].displayText == Some(env.translate(options[i].labelText)) &&
      p.items[i].labelText == Prefix(env.translate(options[i].labelText), LabelLimit)
  {
    QuickReply(env.translate("rate_content_intro"), seq(|options|, i requires 0 <= i < |options| =>
      PostbackAction(Prefix(env.translate(options[i].labelText), LabelLimit), Some(env.translate(options[i].labelText)),
                     SessionRef(RateKey(i)))))
  }

  /** `buildContentRatingsMessage`: one quick-reply item per rating option;
      item `i` posts back `sessionSaved-rateCode<i>`, under which option
      `i`'s rating (`code`, `value = id`, `comment = null`) is stored. */
  function BuildContentRatingsMessage(options: seq<RatingOption>, rateCode: Json, session: Session, env: Env): (r: (Payload, Session))
    ensures r.0.QuickReply? && |r.0.items| == |options|
    ensures forall i :: 0 <= i < |options| ==>
      r.0.items[i].PostbackAction? && r.0.items[i].data == SessionRef(RateKey(i)) &&
      RateKey(i) in r.1 && r.1[RateKey(i)] == RatingDoc(options[i], rateCode)
    ensures forall k :: (forall i :: 0 <= i < |options| ==> k != RateKey(i)) ==>
      (k in r.1 <==> k in session) && (k in session ==> r.1[k] == session[k])
  {
    StoreRatingsContents(session, options, rateCode);
    (ContentRatingsMessage(options, env), StoreRatings(session, options, rateCode))
  }

  /** The rating question writes only `sessionSaved-` keys. */
  lemma BuildContentRatingsKeepsUnsaved(options: seq<RatingOption>, rateCode: Json, session: Session, env: Env, k: Bytes)
    requires !IsSavedKey(k)
    ensures SameAt(BuildContentRatingsMessage(options, rateCode, session, env).1, session, k)
  {
    forall i | 0 <= i < |options|
      ensures k != RateKey(i)
    {
      SavedKeyIsSaved("rateCode" + NatToDecimal(i));
    }
  }

  /** The inline data of an escalation answer. */
  function EscalateDoc(escalate: bool): Json {
    Obj1("escalateOption", JBool(escalate))
  }

  /** `buildEscalationMessage`: a yes/no quick reply posting back
      `{escalateOption: true}` and `{escalateOption: false}` inline. */
  function BuildEscalationMessage(env: Env): (p: Payload)
    ensures p.QuickReply? && |p.items| == 2 && p.text == env.translate("ask_to_escalate")
    ensures p.items[0].PostbackAction? && p.items[0].data == Inline(EscalateDoc(true))
    ensures p.items[1].PostbackAction? && p.items[1].data == Inline(EscalateDoc(false))
    ensures p.items[0].labelText == env.translate("yes") && p.items[1].labelText == env.translate("no")
  {
    QuickReply(env.translate("ask_to_escalate"),
      [PostbackAction(env.translate("yes"), Some(env.translate("yes")), Inline(EscalateDoc(true))),
       PostbackAction(env.translate("no"), Some(env.translate("no")), Inline(EscalateDoc(false)))])
  }
}
