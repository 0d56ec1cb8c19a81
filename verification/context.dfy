/** What the core reads from outside itself: the conversation session, the
    digester configuration, and the collaborators the PHP code calls but this
    model does not look inside (translations, markup stripping, JSON
    decoding of raw strings, the random source). */
module Context {
  import opened Bytes
  import opened Json

  /** The session store (`SessionManager`): a key/value bag for one
      conversation. Values written as `json_encode(x)` are kept as `x`: the
      only reader of those keys decodes them straight away. */
  type Session = map<Bytes, Json>

  /** `$session->get(k, default)`. */
  function SessionGet(s: Session, k: Bytes, default: Json): Json {
    if k in s then s[k] else default
  }

  /** `'sessionSaved-' . name`: the keys under which the digester saves what
      a postback will later refer to. */
  function SavedKey(name: Bytes): Bytes {
    "sessionSaved" + ['-'] + name
  }

  lemma SavedKeyInjective(a: Bytes, b: Bytes)
    requires SavedKey(a) == SavedKey(b)
    ensures a == b
  {
    assert a == SavedKey(a)[13..];
    assert b == SavedKey(b)[13..];
  }

  /** The keys of the `sessionSaved-` family. */
  predicate IsSavedKey(k: Bytes) {
    StartsWith(k, "sessionSaved-")
  }

  lemma SavedKeyIsSaved(name: Bytes)
    ensures IsSavedKey(SavedKey(name))
  {
    assert SavedKey(name)[..13] == "sessionSaved-";
  }

  /** The two sessions hold the same thing under `k`, or both lack it. */
  predicate SameAt(a: Session, b: Session, k: Bytes) {
    (k in a <==> k in b) && (k in a ==> a[k] == b[k])
  }

  /** Collaborators, as functions of their inputs. */
  datatype Env = Env(
    translate: Bytes -> Bytes,        // LanguageManager::translate
    stripTags: Bytes -> Bytes,        // strip_tags($s)
    imageParts: Bytes -> seq<Bytes>,  // strip_tags($s, "<img>"), drop \r \n \t, preg_split on <img> tags
    decode: Bytes -> Json,            // json_decode($s, true); null when $s is not JSON
    rand: nat -> nat)                 // the random draw made for the i-th pick of a request

  /** A `{packageId, stickerId}` pair from configuration. */
  datatype StickerRef = StickerRef(packageId: Bytes, stickerId: Bytes)

  /** The `url_buttons` block: where an answer keeps its URL buttons and the
      property names of a button's title and URL. */
  datatype UrlButtonConf = UrlButtonConf(attributeName: Bytes, titleVar: Bytes, urlVar: Bytes)

  /** `conversation.digester`, as the digester reads it. A missing
      `button_title` or `url_buttons.attribute_name` reads as the empty name. */
  datatype DigesterConf = DigesterConf(
    buttonTitle: Bytes,
    urlButtons: UrlButtonConf,
    availablePackages: seq<Bytes>,
    unknownStickerReplies: seq<StickerRef>,
    thanksRatingStickers: seq<StickerRef>)

  /** `array_rand` over a list of `n > 0` entries, driven by the random source.
      Both callers, the sticker digester and the thanks sticker, pass the
      event's position as `draw`, so within one event they read the same
      value of the source. Nothing here depends on the two picks being
      related or independent. */
  function Pick(env: Env, draw: nat, n: nat): (k: nat)
    requires n > 0
    ensures k < n
  {
    env.rand(draw) % n
  }
}
