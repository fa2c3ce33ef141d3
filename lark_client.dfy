/** The one pure function of the Lark client: pulling the text out of a received
    message's `content`, which Lark sends as a JSON string such as {"text":"..."}. */
module LarkClient {
  import opened Wrappers
  import opened Json
  import opened JsText

  /** The `text` property of a parsed value when it is a string. `obj?.text` on anything
      else is `undefined` or `null` (the fallback applies) or a non-string whose `trim`
      throws (the `catch` applies); both end in the original content. */
  function TextOf(parsed: Option<JsonValue>): Option<string>
  {
    match parsed
    case Some(JObject(fields)) =>
      if "text" in fields && fields["text"].JString? then Some(fields["text"].s) else None
    case _ => None
  }

  /** `parseMessageContent(content)`; `parseJson` is `JSON.parse`, `None` when it throws. */
  function ParseMessageContent(content: string, parseJson: string -> Option<JsonValue>): (r: string)
    ensures Trimmed(r)
  {
    match TextOf(parseJson(content))
    case Some(t) => Trim(t)
    case None => Trim(content)
  }

  /** Content that parses to an object whose `text` is a string yields that text, trimmed. */
  lemma TextFieldUsed(content: string, parseJson: string -> Option<JsonValue>, t: string)
    requires parseJson(content).Some? && parseJson(content).value.JObject?
    requires "text" in parseJson(content).value.fields
    requires parseJson(content).value.fields["text"] == JString(t)
    ensures ParseMessageContent(content, parseJson) == Trim(t)
  {
  }

  /** Content that is not JSON, parses to `null` or a non-object, or has no string `text`
      yields the content itself, trimmed. */
  lemma ContentFallback(content: string, parseJson: string -> Option<JsonValue>)
    requires || parseJson(content).None?
             || !parseJson(content).value.JObject?
             || "text" !in parseJson(content).value.fields
             || !parseJson(content).value.fields["text"].JString?
    ensures ParseMessageContent(content, parseJson) == Trim(content)
  {
    assert TextOf(parseJson(content)).None?;
  }

  /** Plain text that is not JSON comes back unchanged once it has no surrounding
      whitespace. */
  lemma PlainTextUnchanged(content: string, parseJson: string -> Option<JsonValue>)
    requires parseJson(content).None? && Trimmed(content)
    ensures ParseMessageContent(content, parseJson) == content
  {
  }
}
