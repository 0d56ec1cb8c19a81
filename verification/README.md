# LINE connector for the Inbenta chatbot: a Dafny model

The connector sits between the LINE Messaging API and the Inbenta
Chatbot API. LINE posts webhook events to it. The connector turns each
event into a chatbot request, asks the chatbot, turns the answer into LINE
messages, and pushes them back to the user, group or room that wrote.
Around that sit four more pieces:

- a small escalation dialogue: ask the user whether they want a human, then
  hand off or decline;
- content-rating quick replies;
- sticker replies;
- the LINE channel access token, cached in a file per conversation.

This project models the three classes that do that work and proves
properties of the model:

- `LineDigester` (files `inbound.dfy` and `outbound.dfy`):
  - LINE → chatbot: classification of webhook events, the `digestFromLine*`
    digesters, and `digestToApi`;
  - chatbot → LINE: `digestFromApi`, the `digestFromApi*` digesters, images
    inside answers, URL buttons, extended-content sub-answers kept in the
    session, content-rating quick replies, and the escalation quick reply.
- `LineAPIClient` (`apiclient.dfy`): the reply target, the external id, the
  token cache file name, the token refresh, the request headers, and pushes
  in chunks of five messages.
- `LineConnector` (`connector.dfy`): credentials from extra info, the
  external id, the verify-webhook test, the escalation state machine, event
  tracking, the sticker that replaces the "thanks" answer, message ordering
  on send, and the per-event loop of `handleBotActions`.
- `roundtrip.dfy` joins the two halves. A postback key that the digester
  writes is later read back by the postback digester.

Shared vocabulary lives in these files:

- `bytes.dfy`: byte strings and the PHP string built-ins the code relies on;
- `json.dfy`: decoded JSON with PHP's `isset`, `empty` and truthiness;
- `context.dfy`: the session, the digester configuration, and the
  collaborators;
- `payloads.dfy`: LINE messages;
- `wrappers.dfy`: `Option`, `Result`, and the error kinds. An error kind
  stands for a thrown exception.

PHP's own semantics are those of PHP 7, the version under which the bot
loop's `handleEscalation()` call without an answer runs (`count(null)` is 0
there; PHP 8 throws). In particular `array_rand` on an empty list warns and
yields null rather than throwing.

The model follows the code where it differs from the connector's
documentation:

- A token counts as valid until the moment it expires. `TOKEN_REFRESH_OFFSET`
  (180 s) is declared but never read.
- Session keys are `sessionSaved-extendedContentAnswer<n>` and
  `sessionSaved-rateCode<n>`, with no dash before the number.

Two behaviours of the code that the model makes explicit:

- Keys are numbered per message. A second extended-contents answer in the
  same response therefore takes over the first answer's keys
  (`PostbackRoundTrip.LaterExtendedAnswerTakesOverKeys`).
- LINE's verify call is recognised by its all-zero reply token, but a
  one-character token `"0"` is read as false
  (`LineConnectorFlow.VerifyWebhookIsZeroToken`).

## Model

| member | source | states |
|---|---|---|
| LineInbound.CheckExternalMessageType | lib/LineConnector/ExternalDigester/LineDigester.php:123-132 | the checkers are tried in list order; the kind returned is the first whose checker accepts the event; every earlier checker rejected it; the result equals the reference classification `Classify` |
| LineInbound.FirstMatchIsClassify | lib/LineConnector/ExternalDigester/LineDigester.php:125-131 | the first accepting checker in list order is the reference classification |
| LineInbound.NoDiscriminantIsUnknown | lib/LineConnector/ExternalDigester/LineDigester.php:151-196 | an event with neither `message` nor `postback` is classified `unknown` |
| LineInbound.MessageKindsExclusive | lib/LineConnector/ExternalDigester/LineDigester.php:151-191 | no two message-type checkers accept the same event |
| LineInbound.SkipBotReply | lib/LineConnector/ExternalDigester/LineDigester.php:255-258 | the reply carries the given message, is marked `skipBot`, and is never a `multiple_output` splice |
| LineInbound.DigestText | lib/LineConnector/ExternalDigester/LineDigester.php:227-232 | the digest's `message` is the event's text; it neither skips the bot nor splices |
| LineInbound.DigestPostback | lib/LineConnector/ExternalDigester/LineDigester.php:234-242 | the digest never fails; string data whose first dash-separated segment is `sessionSaved` is looked up in the session (null when missing); other string and scalar data is decoded; list or object data, which `json_decode` refuses, digests to null |
| LineInbound.Replaced | lib/LineConnector/ExternalDigester/LineDigester.php:252-253 | the replaced sticker carries the given package id and sticker id, and every other member of the message is left as it was |
| LineInbound.DigestSticker | lib/LineConnector/ExternalDigester/LineDigester.php:244-260 | a sticker from an available package is echoed; any other sticker gets the ids of one of the configured replacements, or null ids when none is configured; every other member of the sticker message is echoed unchanged; the digest always succeeds, skips the bot and never splices |
| LineInbound.UnsupportedKindsFallBack | lib/LineConnector/ExternalDigester/LineDigester.php:262-298 | image, audio, file, location, video and unknown events all get the translated `unknownMessageType` text and skip the bot |
| LineInbound.DigestEventSucceeds | lib/LineConnector/ExternalDigester/LineDigester.php:70-75 | every event kind has a digester and digesting a single event never fails |
| LineInbound.DigestToApiSucceeds | lib/LineConnector/ExternalDigester/LineDigester.php:60-84 | no event of a batch aborts `digestToApi`: the whole batch always digests |
| LineInbound.DigestToApi | lib/LineConnector/ExternalDigester/LineDigester.php:60-67 | a request without `events` digests to the empty list |
| LineInbound.CombineSingles | lib/LineConnector/ExternalDigester/LineDigester.php:74-82 | when no digest splices, the output lists the digests one per event, in order |
| LineInbound.OnlyPostbackExpands | lib/LineConnector/ExternalDigester/LineDigester.php:76-82 | only a postback digest can carry `multiple_output` |
| LineInbound.DigestToApiWithoutPostbacks | lib/LineConnector/ExternalDigester/LineDigester.php:60-85 | a batch without postbacks yields exactly one entry per event, in event order |
| LineOutbound.Template | lib/LineConnector/ExternalDigester/LineDigester.php:341-349 | a `buttons` template whose text is the stripped message and whose alt text is that text cut to 400 bytes |
| LineOutbound.HandleMessageWithImages | lib/LineConnector/ExternalDigester/LineDigester.php:456-480 | one message per part; a part becomes an image exactly when it starts with `http`; both image URLs are the secured URL; other parts stay text unchanged |
| LineOutbound.ImageUrlsAreSecured | lib/LineConnector/ExternalDigester/LineDigester.php:464-470 | an `http://` image URL goes out as `https://`; a URL that contains no `http://` goes out unchanged |
| LineOutbound.UrlActionsContents | lib/LineConnector/ExternalDigester/LineDigester.php:495-510 | actions come out only when every button has a non-empty title and URL; action `i` is the `uri` action of button `i`, its URL, labelled with its title cut to 20 bytes |
| LineOutbound.UrlActionsAllUsable | lib/LineConnector/ExternalDigester/LineDigester.php:495-510 | when every button is usable the loop does not give up, so a single unusable button is the only way all actions are cancelled |
| LineOutbound.DigestAnswerBranches | lib/LineConnector/ExternalDigester/LineDigester.php:303-322 | an answer is split into images exactly when `<img` occurs after the first byte; with no image and no URL buttons it is the stripped text; a broken URL button also gives the stripped text |
| LineOutbound.QuestionAction | lib/LineConnector/ExternalDigester/LineDigester.php:330-339 | the option's title is the display text and, cut to 20 bytes, the label; the data is `{message: lastUserQuestion, option: value}` |
| LineOutbound.PolarQuestionTemplate | lib/LineConnector/ExternalDigester/LineDigester.php:354-379 | one postback action per option, in order, showing the translated label and carrying the option's value |
| LineOutbound.MultipleChoiceTemplate | lib/LineConnector/ExternalDigester/LineDigester.php:324-352 | one postback action per option, in order; the configured button-title attribute is shown only when the `multiple-options` flag is set and the option has it |
| LineOutbound.StoreDocsOther | lib/LineConnector/ExternalDigester/LineDigester.php:385-391 | a session key the write loop does not name keeps its value, and stays absent when it was absent |
| LineOutbound.StoreDocsAt | lib/LineConnector/ExternalDigester/LineDigester.php:385-391 | with distinct keys, the loop leaves key `j` holding document `j` |
| LineOutbound.ExtendedKeyInjective | lib/LineConnector/ExternalDigester/LineDigester.php:387-396 | distinct sub-answer numbers give distinct session keys |
| LineOutbound.RateKeyInjective | lib/LineConnector/ExternalDigester/LineDigester.php:419-440 | distinct rating-option numbers give distinct session keys |
| LineOutbound.ExtendedKeyIsNotRateKey | lib/LineConnector/ExternalDigester/LineDigester.php:387-440 | sub-answer keys and rating keys never coincide |
| LineOutbound.DigestExtendedContents | lib/LineConnector/ExternalDigester/LineDigester.php:381-410 | one postback action per sub-answer; action `i` carries the session key of sub-answer `i` and a label of at most 20 bytes |
| LineOutbound.StoreSubAnswersContents | lib/LineConnector/ExternalDigester/LineDigester.php:385-391 | after the writes, key `i` holds sub-answer `i` wrapped as `extendedContentAnswer`; every other key is untouched |
| LineOutbound.MessageWritesKeepUnsaved | lib/LineConnector/ExternalDigester/LineDigester.php:385-391 | a message's digester writes only `sessionSaved-` keys: every other key keeps its value or stays absent |
| LineOutbound.DigestLoopKeepsUnsaved | lib/LineConnector/ExternalDigester/LineDigester.php:101-117 | the whole loop over the answer list writes only `sessionSaved-` keys |
| LineOutbound.DigestFromApiKeepsUnsaved | lib/LineConnector/ExternalDigester/LineDigester.php:89-118 | `digestFromApi` leaves every key outside the `sessionSaved-` family as it was |
| LineOutbound.AccumulateIsAfterLastMany | lib/LineConnector/ExternalDigester/LineDigester.php:108-115 | the accumulated output is everything after (and including) the last `multiple_output` list; with no such list it is every payload in order |
| LineOutbound.DigestLoopIsFold | lib/LineConnector/ExternalDigester/LineDigester.php:101-117 | the loop fails exactly when a message it does not skip has no digester; otherwise its output is the fold of the digests |
| LineOutbound.DigestFromApiOutput | lib/LineConnector/ExternalDigester/LineDigester.php:90-118 | a response that is neither an answer list nor a known single message is rejected; otherwise the output is the payloads after the last `multiple_output` |
| LineOutbound.SkippedMessagesVanish | lib/LineConnector/ExternalDigester/LineDigester.php:103 | a message whose text is empty or `"0"` contributes nothing |
| LineOutbound.StoreRatingsContents | lib/LineConnector/ExternalDigester/LineDigester.php:417-432 | after the writes, key `i` holds option `i`'s rating (comment flag, negativity, `rate` data with the code and the option id); every other key is untouched |
| LineOutbound.ContentRatingsMessage | lib/LineConnector/ExternalDigester/LineDigester.php:433-449 | one quick-reply item per rating option, labelled with its translated label cut to 20 bytes |
| LineOutbound.BuildContentRatingsMessage | lib/LineConnector/ExternalDigester/LineDigester.php:414-451 | item `i` posts back the key under which option `i`'s rating is stored; keys of other options and other keys keep their values |
| LineOutbound.BuildContentRatingsKeepsUnsaved | lib/LineConnector/ExternalDigester/LineDigester.php:417-431 | the rating question writes only `sessionSaved-` keys |
| LineOutbound.BuildEscalationMessage | lib/LineConnector/ExternalDigester/LineDigester.php:526-559 | two quick-reply items, translated yes and no, posting back `{escalateOption: true}` and `{escalateOption: false}` |
| LineApiClient.ReplyIdOf | lib/LineConnector/ExternalAPI/LineAPIClient.php:118-121 | the reply key is the first event's source type followed by `Id`; its value is that field of the source |
| LineApiClient.ExternalId | lib/LineConnector/ExternalAPI/LineAPIClient.php:219-222 | the external id is `line-` followed by the reply-target value |
| LineApiClient.BuildExternalIdFromRequest | lib/LineConnector/ExternalAPI/LineAPIClient.php:224-233 | no id without an event that has a source; otherwise the same id `ExternalId` gives |
| LineApiClient.TrimTrailingSlashes | lib/LineConnector/ExternalAPI/LineAPIClient.php:126 | the result is a prefix of the directory that does not end in `/`, and only slashes were removed |
| LineApiClient.CacheFileName | lib/LineConnector/ExternalAPI/LineAPIClient.php:126-127 | the temporary directory, then `cached-line-accesstoken-`, then the reply-target value with every character outside `[A-Za-z0-9 ]` removed |
| LineApiClient.FromCache | lib/LineConnector/ExternalAPI/LineAPIClient.php:282-290 | a cached record is adopted when its expiration is not before now; a missing or expired record leaves the token as it was |
| LineApiClient.FromApiAsWritten | lib/LineConnector/ExternalAPI/LineAPIClient.php:295-310 | the code as written: it refuses only when the misspelled `messsage` field is set; otherwise it stores the answer's token, with expiry now plus `expires_in`, in memory and in the cache |
| LineApiClient.UnauthorizedSlipsThrough | lib/LineConnector/ExternalAPI/LineAPIClient.php:304-308 | the endpoint's `{message: "Unauthorized"}` answer is accepted as written, leaving a null token |
| LineApiClient.FromApi | lib/LineConnector/ExternalAPI/LineAPIClient.php:295-310 | refuses exactly the unauthorized answer; otherwise stores the token in memory and in the cache; a token with a positive lifetime is valid |
| LineApiClient.UnauthorizedRefused | lib/LineConnector/ExternalAPI/LineAPIClient.php:304-306 | the corrected guard raises the key/secret error on the unauthorized answer |
| LineApiClient.UpdateLineAccessToken | lib/LineConnector/ExternalAPI/LineAPIClient.php:259-270 | a valid token is kept and nothing else is consulted; the cache is tried only when the token is invalid; the endpoint is asked exactly when both the token and the cache give an invalid token, and its answer is then read by `getLineAccessTokenFromAPI` as written or with the corrected guard, as the caller chooses |
| LineApiClient.RefreshedTokenIsValid | lib/LineConnector/ExternalAPI/LineAPIClient.php:259-277 | after a refresh the token is valid unless the endpoint's answer had no token or a non-positive lifetime |
| LineApiClient.ResponseIgnoredUnlessAsked | lib/LineConnector/ExternalAPI/LineAPIClient.php:262-268 | when the current or cached token is valid, the endpoint's answer has no effect |
| LineApiClient.NewClient | lib/LineConnector/ExternalAPI/LineAPIClient.php:109-133 | without `events` the client has no reply target and no token; otherwise its reply target is the one derived from the first event, and its token and cache are those of a refresh that starts from no token; it is built exactly when that refresh succeeds |
| LineApiClient.UnauthorizedClientAsWritten | lib/LineConnector/ExternalAPI/LineAPIClient.php:129-146 | as written, a client the endpoint refuses is still built, with a null token, so every later push fails for lack of a token |
| LineApiClient.UnauthorizedClientRefused | lib/LineConnector/ExternalAPI/LineAPIClient.php:129 | with the corrected guard the constructor fails with the key/secret error on the same answer |
| LineApiClient.LineHeaders | lib/LineConnector/ExternalAPI/LineAPIClient.php:143-161 | refused without a token; otherwise the bearer header comes first, and the switcher-secret and service-code headers are present exactly when those settings are truthy |
| LineApiClient.ChunkFlatten | lib/LineConnector/ExternalAPI/LineAPIClient.php:172 | the chunks, concatenated, are the original list |
| LineApiClient.ChunkCount | lib/LineConnector/ExternalAPI/LineAPIClient.php:172 | chunks of five number `ceil(N / 5)` |
| LineApiClient.ChunkSizes | lib/LineConnector/ExternalAPI/LineAPIClient.php:172 | no chunk is empty and none is longer than the chunk size |
| LineApiClient.Send | lib/LineConnector/ExternalAPI/LineAPIClient.php:169-180 | no messages means no calls; otherwise it fails exactly when there is no token; one call per chunk, each addressed to the reply target |
| LineApiClient.SendDeliversInOrder | lib/LineConnector/ExternalAPI/LineAPIClient.php:169-180 | `N` messages go out in `ceil(N / 5)` calls of one to five messages, which together carry the list unchanged and in order |
| LineConnectorFlow.LineConf | lib/LineConnector/LineConnector.php:68-75 | the last `line_conf` element wins; with none, the block is an empty array |
| LineConnectorFlow.GetTokensFromExtraInfo | lib/LineConnector/LineConnector.php:66-91 | fails exactly when the channel id or secret is missing; otherwise every setting is copied, and the optional ones default to null |
| LineConnectorFlow.GetExternalIdFromRequest | lib/LineConnector/LineConnector.php:96-111 | the LINE id when the request has one; otherwise `hc-challenge-` plus the API key's alphanumeric characters when a hook secret is present; otherwise an invalid-request error |
| LineConnectorFlow.VerifyWebhookIsZeroToken | lib/LineConnector/LineConnector.php:30-33 | the verify call is recognised exactly when the first event's reply token is a string of zeros (optionally signed) other than `"0"` |
| LineConnectorFlow.ThirtyTwoZerosVerify | lib/LineConnector/LineConnector.php:30 | LINE's verify token of 32 zeros is recognised |
| LineConnectorFlow.TextAnswer | lib/LineConnector/LineConnector.php:215 | the text message built for the connector's own replies is an `answer` carrying that text |
| LineConnectorFlow.HandleEscalation | lib/LineConnector/LineConnector.php:197-220 | every call flips the asking flag; the prompt comes exactly when the user was not being asked, and then only `askingForEscalation` is written; otherwise both counters are reset; hand-off happens exactly on a truthy `escalateOption`, rejection exactly on a falsy one that is set |
| LineConnectorFlow.EscalationAnswersRoundTrip | lib/LineConnector/LineConnector.php:210-217 | the escalation prompt's yes data hands off and its no data is rejected |
| LineConnectorFlow.AfterEscalation | lib/LineConnector/LineConnector.php:142-146 | a request whose first entry carries `extendedContentAnswer` ends with that sub-answer displayed; otherwise the request continues |
| LineConnectorFlow.EscalateToAgent | lib/LineConnector/LineConnector.php:255-273 | the parent's escalation exactly when no external chat service is used; LINE's switcher, announced with `creating_chat`, exactly when one is used and a switcher destination is set; otherwise the `error_creating_chat` text |
| LineConnectorFlow.HandleNonBotActions | lib/LineConnector/LineConnector.php:135-147 | without a pending question, escalation is not touched; with one, the flag is cleared whatever the answer; hand-off and rejection happen only when a question was pending; a federated answer is the first entry's `extendedContentAnswer` |
| LineConnectorFlow.SendEventToBot | lib/LineConnector/LineConnector.php:225-249 | untracked exactly when the type is neither `rate` nor `click`; a click replies nothing and writes nothing; a rating asks for a comment only when one is pending and no escalation follows; otherwise it thanks and clears the pending comment |
| LineConnectorFlow.ThanksSticker | lib/LineConnector/LineConnector.php:284-285 | the configured sticker with `type` set to `sticker` |
| LineConnectorFlow.ThanksRatingToSticker | lib/LineConnector/LineConnector.php:279-293 | with stickers enabled, a single "thanks" answer, and at least one sticker configured, the response is dropped and the extras become one configured sticker; otherwise both pass through unchanged |
| LineConnectorFlow.StickerOnlyForSingleThanks | lib/LineConnector/LineConnector.php:281 | answer lists, empty responses, and disabled stickers are never replaced |
| LineConnectorFlow.SendMessagesToExternal | lib/LineConnector/LineConnector.php:116-129 | the digested chatbot response comes first and the extra messages follow, in order; with no response only the extras are sent; the session afterwards is the one the digester's writes leave |
| LineConnectorFlow.SessionAfterSendKeepsUnsaved | lib/LineConnector/LineConnector.php:116-129 | sending leaves every key outside the `sessionSaved-` family, such as `askingForEscalation`, as it was |
| LineConnectorFlow.AskBot | lib/LineConnector/LineConnector.php:165-171 | a `skipBot` message is not sent to the chatbot: the response is empty and the message's other fields become the messages; otherwise the chatbot is asked |
| LineConnectorFlow.AppendEscalation | lib/LineConnector/LineConnector.php:176-179 | while escalation is needed, each event appends one entry: the prompt when not yet asking (setting only the asking flag), null otherwise (resetting the flag and the counters) |
| LineConnectorFlow.AppendRating | lib/LineConnector/LineConnector.php:180-188 | the rating question is appended exactly when a rating code is pending and escalation is not being asked; it stores every option's rating with the session writes of `buildContentRatingsMessage` |
| LineConnectorFlow.PromptSuppressesRating | lib/LineConnector/LineConnector.php:176-188 | an event that shows the escalation prompt never also shows the rating question |
| LineConnectorFlow.HandleEvent | lib/LineConnector/LineConnector.php:156-191 | the flags after an event follow from those before it and this response's signals; the signals are the parent's escalation and rating checks on the response that is sent; the event sends the digested response, then the sticker or `skipBot` extras, then the escalation entry, then the rating question, and the push calls carry exactly that; the escalation entry is recorded, and the session left for the next event is the one after the escalation, rating and digest writes |
| LineConnectorFlow.AfterBot | lib/LineConnector/LineConnector.php:173-190 | once the chatbot has answered: the signals are the checks on the response after the sticker substitution; the outgoing list is the digested response, then the extras, then the escalation entry, then the rating question; an empty response stays empty; the record keeps the escalation entry and the session after all of this event's writes |
| LineConnectorFlow.RateAndSend | lib/LineConnector/LineConnector.php:184-190 | the rating question follows the earlier extras and the digested response comes first; the push calls carry that list; the record's session is the one the digester's writes leave |
| LineConnectorFlow.ComposedAsking | lib/LineConnector/LineConnector.php:176-185 | within one event `askingForEscalation` flips exactly when escalation is needed: the question sets it, the null entry clears it, and the rating and digest writes leave it alone |
| LineConnectorFlow.EventAlternates | lib/LineConnector/LineConnector.php:176-179 | when the parent's steps leave the flag alone, an event's escalation entry is none, the question or null according to the session before it, and the flag after it is flipped exactly when escalation is needed |
| LineConnectorFlow.SkipBotNeverAsksBot | lib/LineConnector/LineConnector.php:165-171 | a `skipBot` event's outcome is the same whatever the chatbot would answer, and its response is empty |
| LineConnectorFlow.Run | lib/LineConnector/LineConnector.php:156-191 | one record per handled event; a failing event stops the loop; without a failure, every event is handled |
| LineConnectorFlow.HandlerIsSound | lib/LineConnector/LineConnector.php:156-191 | the per-event handler chains the flags from one event to the next and pushes every message of the event |
| LineConnectorFlow.HandlerTogglesAsking | lib/LineConnector/LineConnector.php:176-185 | with such parent steps, the per-event handler sends the escalation entry its session calls for and flips the flag exactly when escalation is needed |
| LineConnectorFlow.RunStep | lib/LineConnector/LineConnector.php:156-191 | record `k` of a run is the body applied to event `k` with the session and flags the previous record left |
| LineConnectorFlow.TraceStep | lib/LineConnector/LineConnector.php:156-191 | record `k + 1` is the body applied to the session and flags record `k` left |
| LineConnectorFlow.StepAlternates | lib/LineConnector/LineConnector.php:198-209 | one event with escalation already needed sends null and clears the flag when asking, otherwise sends the question and sets it |
| LineConnectorFlow.TraceAlternates | lib/LineConnector/LineConnector.php:176-179 | in any run of such a body, once escalation is needed consecutive events alternate between the question and null |
| LineConnectorFlow.ChainedIsSticky | lib/LineConnector/LineConnector.php:176 | in a chained run, escalation is needed after event `k` exactly when some event up to `k` signalled it |
| LineConnectorFlow.DeliveredInOrder | lib/LineConnector/LineConnector.php:190 | in a delivered run, each event's messages go out in calls of at most five that carry them in order |
| LineConnectorFlow.EscalationIsSticky | lib/LineConnector/LineConnector.php:176 | over a request, escalation is needed after event `k` exactly when some event up to `k` signalled it |
| LineConnectorFlow.EscalationAlternates | lib/LineConnector/LineConnector.php:176-185 | over a request, once escalation is needed the events alternate: the question when the previous event left it unasked, then null, then the question again, each flipping `askingForEscalation` |
| LineConnectorFlow.RatingCodeIsLastSeen | lib/LineConnector/LineConnector.php:181-183 | over a request, the pending rating code after event `k` is the last code any response up to `k` carried |
| LineConnectorFlow.EveryEventDelivered | lib/LineConnector/LineConnector.php:190 | every handled event's messages go out in order, in calls of at most five |
| PostbackRoundTrip.PostbackEventIsPostback | lib/LineConnector/ExternalDigester/LineDigester.php:157-161 | the event LINE sends for a tapped postback action is classified as a postback |
| PostbackRoundTrip.SavedKeyIsSessionKey | lib/LineConnector/ExternalDigester/LineDigester.php:236 | every `sessionSaved-` key, whatever its name, is resolved through the session when posted back |
| PostbackRoundTrip.ExtendedKeyIsSessionKey | lib/LineConnector/ExternalDigester/LineDigester.php:236 | every sub-answer key is read back from the session |
| PostbackRoundTrip.RateKeyIsSessionKey | lib/LineConnector/ExternalDigester/LineDigester.php:236 | every rating key is read back from the session |
| PostbackRoundTrip.ExtendedContentsRoundTrip | lib/LineConnector/ExternalDigester/LineDigester.php:381-398 | tapping the `i`-th sub-answer button digests to sub-answer `i` |
| PostbackRoundTrip.LaterExtendedAnswerTakesOverKeys | lib/LineConnector/ExternalDigester/LineDigester.php:384-391 | a second extended-contents answer in the same response overwrites the first answer's keys |
| PostbackRoundTrip.ChosenSubAnswerIsDisplayed | lib/LineConnector/LineConnector.php:141-146 | the digested sub-answer is displayed when no escalation question is pending |
| PostbackRoundTrip.RatingDocIsRateEvent | lib/LineConnector/ExternalDigester/LineDigester.php:419-431 | a stored rating is a `rate` event with the question's code, the option's id, and no comment |
| PostbackRoundTrip.RatingRoundTrip | lib/LineConnector/ExternalDigester/LineDigester.php:414-443 | tapping the `i`-th rating item digests to option `i`'s stored rating |
| Bytes.FirstSegment | lib/LineConnector/ExternalDigester/LineDigester.php:236 | `explode('-', s)[0]`: the longest dash-free prefix of `s` |
| Bytes.KeepAlnumOrSpaceClean | lib/LineConnector/ExternalAPI/LineAPIClient.php:127 | a string already made only of letters, digits and spaces passes the `[^A-Za-z0-9 ]` filter unchanged |
| Context.Pick | lib/LineConnector/ExternalDigester/LineDigester.php:251 | `array_rand` picks an index inside the list |
| Context.SavedKeyInjective | lib/LineConnector/ExternalDigester/LineDigester.php:387 | distinct names give distinct `sessionSaved-` keys |

## Left out

- HTTP is not modelled. That covers the Guzzle and cURL calls, the
  `X-Line-Signature` header, and `sendSwitcherEvent` and
  `sendSwitcherNotice`. A push call is the request value that would be sent.
  The credential endpoint's answer is an input. A failed or malformed answer
  from it is not modelled.
- File system and clock: the token cache directory is a map from file name
  to the decoded file. `time()` is a parameter.
- PHP built-ins and collaborators are parameters (`Env`):
  - `strip_tags`;
  - the `<img>` splitting regular expression;
  - `json_decode` of inline postback data;
  - the translations;
  - `array_rand`'s random source.

  Values written to the session with `json_encode` are stored as the JSON
  they encode.
- Parent-class behaviour is given as `Hooks`, or as outcomes the model
  returns:
  - `handleCommands`, `saveLastTextMessage` and
    `checkContentRatingsComment`;
  - `sendMessageToBot`, `checkEscalation` and `checkContentRatings`;
  - `displayFederatedBotAnswer`;
  - `trackEvent`, `trackContactEvent`, `buildTextMessage` and
    `shouldEscalateFromNegativeRating` (an input).
- `escalateToAgent`: the model picks the route (`EscalateToAgent`) and the
  text shown. The switcher calls, the `CONTACT_ATTENDED` tracking and the
  parent's own escalation are not modelled. `HandleNonBotActions` returns
  the `EscalationAccepted` outcome where the code calls it.
- `die()` and thrown exceptions end the request. The model returns a
  terminal outcome or a `Result` failure instead. Session writes made before
  a failure are not kept in the failure value.
- `checkRequest`, `getChannel`, `showBotTyping` and the constructor's wiring
  (session manager, chatbot client, translations from extra info) are not
  modelled. `lineReplyToken` is read but never used.
- `LineConnectorFlow.IsNumeric`: `is_numeric` is modelled for integers and
  for strings of an optional sign followed by digits. Floats, exponents and
  surrounding whitespace are not covered.
- A PHP string is a sequence of `char`, one per byte. The model does not
  require the codes to stay below 256, and nothing in it depends on that.
- Loose comparisons (`in_array` on sticker packages and event types, `==` on
  `type`) are modelled as exact string equality.
- `Json.PhpString`: a list or an object used where a string is needed is an
  error in the reply-target, external-id, cache-file and URL-button paths of
  the model. PHP 7 instead goes on after a notice or warning: string
  concatenation yields `Array` (an object is a fatal error), and
  `preg_replace` on an array filters each member. Postback data is the
  exception: `digestFromLinePostback` tests `is_string` before `explode`,
  and PHP 7's `json_decode` of a list or object warns and yields null,
  which the model follows.
- `LineConnectorFlow.EscalationAlternates`: the parent's steps before the
  chatbot answers are given as `Hooks`, so the alternation is proved for
  parent steps that leave `askingForEscalation` alone (`KeepsAsking`). The
  parent class is not part of this model; within this class only
  `handleEscalation` writes that flag.
- `LineOutbound.DigestMessage`: for a message of no known type the source
  calls `digestFromApi` on the message itself. The model follows that call
  only for a message without an `answers` list of its own, where it throws
  "Unknown ChatbotAPI response". A message that carries its own `answers`
  list would be digested recursively and its output appended as one nested
  entry; bot messages in the model have no such field, so that case is not
  modelled.
- A chatbot message's absent `message` field is read as the empty string,
  and absent options and sub-answers as empty lists. The `actions` of a
  question with no options is the empty list rather than null.
- Option and sub-answer attributes are modelled as strings.
- Indexing something that is not a list (`$request->events[0]`, or
  `$line_conf` read from a non-list) reads as null.
- A batch of webhook events that is given as an object is iterated over its
  values.

## Findings

| source | as written | input that shows it | evidently intended | confidence | as-written member | corrected member |
|---|---|---|---|---|---|---|
| lib/LineConnector/ExternalAPI/LineAPIClient.php:304 | the guard tests `isset($accessInfo->messsage)`, a misspelled field no answer carries, so it never fires | a credential-endpoint answer `{"message": "Unauthorized"}`: the client stores a null token that is already past its ttl, and the failure surfaces later as "No line access token" | refuse an answer whose `message` is `Unauthorized` with "Invalid key/secret" | high (not executed) | LineApiClient.FromApiAsWritten, LineApiClient.UnauthorizedSlipsThrough, LineApiClient.UnauthorizedClientAsWritten | LineApiClient.FromApi, LineApiClient.UnauthorizedRefused, LineApiClient.UnauthorizedClientRefused |
