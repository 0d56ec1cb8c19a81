/** LINE message objects the connector sends (`text`, `image`,
    `template`/`buttons`, `text` with `quickReply`) and the actions inside
    them. */
module LinePayloads {
  import opened Wrappers
  import opened Bytes
  import opened Json

  /** What an action posts back when tapped: a JSON document written inline
      (`json_encode([...])`), or a session key under which that document was
      stored. */
  datatype PostbackData = Inline(doc: Json) | SessionRef(key: Bytes)

  datatype Action =
    | PostbackAction(labelText: Bytes, displayText: Option<Bytes>, data: PostbackData)
    | UriAction(labelText: Bytes, uri: Json)

  datatype Payload =
    | TextMsg(text: Bytes)
    | ImageMsg(originalContentUrl: Bytes, previewImageUrl: Bytes)
    /** `{type: template, altText, template: {type: buttons, text, actions}}` */
    | Buttons(altText: Bytes, text: Bytes, actions: seq<Action>)
    /** `{type: text, text, quickReply: {items: [{type: action, action}, ...]}}` */
    | QuickReply(text: Bytes, items: seq<Action>)
    /** An object passed through verbatim: a sticker taken from an inbound
        event or from configuration, or `null`. */
    | Raw(value: Json)

  /** Character limits of LINE's fields as the connector enforces them. */
  const LabelLimit: nat := 20
  const AltTextLimit: nat := 400
}
