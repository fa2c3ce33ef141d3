/** Classification of a Lark event-callback request body: a URL-verification challenge,
    a received text message, or nothing to act on. The body is seen as the value
    `JSON.parse` makes of it, and every property access follows JavaScript's rules. */
module LarkWebhook {
  import opened Wrappers
  import opened Json
  import opened JsText
  import LarkClient

  /** The message event handed to the agent. The ids are whatever JSON values the body
      carried (the declared types say strings, but nothing checks them). */
  datatype MessageEvent = MessageEvent(chatId: JsonValue, messageId: JsonValue, content: string, userId: string)

  /** What `handleWebhookBody` returns or throws. `Ignored` is its `null`. */
  datatype Outcome =
    | Challenge(challenge: JsonValue)
    | Event(event: MessageEvent)
    | Ignored
    | Threw(message: string)

  /** `v[key]`, present and not `null`, compared with `===` against `expected`. */
  predicate PropIs(v: JsonValue, key: string, expected: JsonValue) {
    Present(v, key) == Some(expected)
  }

  /** `v[key]` is truthy. */
  predicate TruthyProp(v: JsonValue, key: string) {
    key in Fields(v) && Truthy(Fields(v)[key])
  }

  /** `sub` occurs in `s` at index `i`. */
  predicate OccursAt(s: string, sub: string, i: int) {
    0 <= i <= |s| - |sub| && s[i..i + |sub|] == sub
  }

  /** `s.includes(sub)` for a string. */
  predicate Contains(s: string, sub: string) {
    exists i :: 0 <= i <= |s| - |sub| && OccursAt(s, sub, i)
  }

  const MessageReceive: string := "im.message.receive"

  /** `eventType.includes("im.message.receive")`: a substring test on a string, an
      element test on an array, and a `TypeError` on anything else. */
  function IncludesReceive(eventType: JsonValue): Result<bool, string>
  {
    match eventType
    case JString(s) => Ok(Contains(s, MessageReceive))
    case JArray(items) => Ok(JString(MessageReceive) in items)
    case _ => Err("eventType.includes is not a function")
  }

  /** `ev.message.content ? parseMessageContent(ev.message.content) : ""`. A truthy
      non-string is still parsed, as `JSON.parse` applies `String` first; its `text`
      is used when it is a string, and otherwise `content.trim()` throws, in
      `parseMessageContent`'s `catch`. When `String` itself throws, `JSON.parse` does,
      and the `catch` reaches the same `content.trim()`. */
  function ContentOf(message: JsonValue, parseJson: string -> Option<JsonValue>): (r: Result<string, string>)
    ensures r.Ok? ==> Trimmed(r.value)
    ensures r.Ok? && r.value != "" ==> TruthyProp(message, "content")
    ensures !TruthyProp(message, "content") ==> r == Ok("")
    ensures TruthyProp(message, "content") && Fields(message)["content"].JString? ==>
      r == Ok(LarkClient.ParseMessageContent(Fields(message)["content"].s, parseJson))
  {
    if !TruthyProp(message, "content") then Ok("")
    else
      var v := Fields(message)["content"];
      if v.JString? then Ok(LarkClient.ParseMessageContent(v.s, parseJson))
      else if !Stringable(v) then Err("content.trim is not a function")
      else match LarkClient.TextOf(parseJson(ToJsString(v)))
        case Some(t) => Ok(Trim(t))
        case None => Err("content.trim is not a function")
  }

  /** Content sent as an array holding one JSON string is read like that string, when
      the string carries a string `text`. */
  lemma ArrayContentParsed(message: JsonValue, c: string, parseJson: string -> Option<JsonValue>)
    requires message.JObject? && "content" in message.fields
    requires message.fields["content"] == JArray([JString(c)])
    requires LarkClient.TextOf(parseJson(c)).Some?
    ensures ContentOf(message, parseJson) == Ok(LarkClient.ParseMessageContent(c, parseJson))
  {
    var items := [JString(c)];
    assert ToJsString(JArray(items)) == c by {
      var parts := seq(|items|, i requires 0 <= i < |items| =>
        if items[i].JNull? then "" else ToJsString(items[i]));
      assert parts == [c];
    }
  }

  /** Truthy content that is not a string, and which `String` rejects or whose `String`
      form does not parse to something with a string `text`, makes `content.trim()` throw. */
  lemma NonStringContentThrows(message: JsonValue, parseJson: string -> Option<JsonValue>)
    requires TruthyProp(message, "content") && !Fields(message)["content"].JString?
    requires var v := Fields(message)["content"];
      !Stringable(v) || LarkClient.TextOf(parseJson(ToJsString(v))).None?
    ensures ContentOf(message, parseJson) == Err("content.trim is not a function")
  {
  }

  /** `ev.sender?.sender_id ?? ev.message?.sender_id`. */
  function SenderId(ev: JsonValue, message: JsonValue): Option<JsonValue>
  {
    var fromSender := match Present(ev, "sender")
      case Some(sender) => Present(sender, "sender_id")
      case None => None;
    if fromSender.Some? then fromSender else Present(message, "sender_id")
  }

  /** `typeof senderId?.user_id === "string" ? senderId.user_id : ""`. */
  function UserIdOf(senderId: Option<JsonValue>): string
  {
    match senderId
    case Some(id) =>
      (match Present(id, "user_id")
       case Some(JString(u)) => u
       case _ => "")
    case None => ""
  }

  /** `handleWebhookBody(rawBody)`. `parseJson` is `JSON.parse` (`None` when it throws)
      and `encryptKey` is the configured Encrypt Key ("" when none is set). */
  function HandleWebhookBody(rawBody: string, encryptKey: string,
                             parseJson: string -> Option<JsonValue>): (r: Outcome)
    ensures parseJson(rawBody).None? ==> r == Ignored
    ensures r.Event? ==> Truthy(r.event.chatId) && r.event.content != "" && Trimmed(r.event.content)
    ensures r.Event? ==>
      var body := parseJson(rawBody).value;
      && PropIs(body, "type", JString("event_callback"))
      && !(TruthyProp(body, "encrypt") && encryptKey != "")
      && TruthyProp(body, "event")
      && TruthyProp(Fields(body)["event"], "message")
      && var ev := Fields(body)["event"];
         var message := Fields(ev)["message"];
         && IncludesReceive(Present(ev, "type").GetOr(JString(""))) == Ok(true)
         && r.event.chatId == Present(message, "chat_id").GetOr(JString(""))
         && r.event.messageId == Present(message, "message_id").GetOr(JString(""))
         && ContentOf(message, parseJson) == Ok(r.event.content)
         && r.event.userId == UserIdOf(SenderId(ev, message))
    ensures r.Challenge? ==>
      var body := parseJson(rawBody).value;
      && PropIs(body, "type", JString("url_verification"))
      && "challenge" in Fields(body) && r.challenge == Fields(body)["challenge"]
  {
    match parseJson(rawBody)
    case None => Ignored
    case Some(body) =>
      if body.JNull? then Threw("Cannot read properties of null (reading 'type')")
      else if PropIs(body, "type", JString("url_verification")) && "challenge" in Fields(body) then
        Challenge(Fields(body)["challenge"])
      else if TruthyProp(body, "encrypt") && encryptKey != "" then Ignored
      else if !PropIs(body, "type", JString("event_callback")) || !TruthyProp(body, "event") then Ignored
      else
        var ev := Fields(body)["event"];
        match IncludesReceive(Present(ev, "type").GetOr(JString("")))
        case Err(e) => Threw(e)
        case Ok(receive) =>
          if !receive || !TruthyProp(ev, "message") then Ignored
          else
            var message := Fields(ev)["message"];
            var chatId := Present(message, "chat_id").GetOr(JString(""));
            var messageId := Present(message, "message_id").GetOr(JString(""));
            match ContentOf(message, parseJson)
            case Err(e) => Threw(e)
            case Ok(content) =>
              var userId := UserIdOf(SenderId(ev, message));
              if !Truthy(chatId) || content == "" then Ignored
              else Event(MessageEvent(chatId, messageId, content, userId))
  }

  /** The body reaches the event checks: it parsed to something other than `null`, is
      not a URL verification with a challenge, and is not an encrypted body that the
      configured Encrypt Key says to skip. */
  predicate ReachesEventChecks(body: JsonValue, encryptKey: string) {
    && !body.JNull?
    && !(PropIs(body, "type", JString("url_verification")) && "challenge" in Fields(body))
    && !(TruthyProp(body, "encrypt") && encryptKey != "")
  }

  /** The body is an event callback carrying a received message: what `handleWebhookBody`
      checks before it reads the message's properties. */
  predicate CarriesMessage(body: JsonValue) {
    && PropIs(body, "type", JString("event_callback"))
    && TruthyProp(body, "event")
    && IncludesReceive(Present(Fields(body)["event"], "type").GetOr(JString(""))) == Ok(true)
    && TruthyProp(Fields(body)["event"], "message")
  }

  /** A body that is not an event callback with an event, whose event type does not
      include "im.message.receive", or that has no message, gives `null`. */
  lemma NotAMessageIgnored(rawBody: string, encryptKey: string, parseJson: string -> Option<JsonValue>)
    requires parseJson(rawBody).Some? && ReachesEventChecks(parseJson(rawBody).value, encryptKey)
    requires var body := parseJson(rawBody).value;
      !CarriesMessage(body)
      && !(PropIs(body, "type", JString("event_callback")) && TruthyProp(body, "event")
           && IncludesReceive(Present(Fields(body)["event"], "type").GetOr(JString(""))).Err?)
    ensures HandleWebhookBody(rawBody, encryptKey, parseJson) == Ignored
  {
  }

  /** A received message is delivered exactly when its chat id is truthy and its content
      reads to a non-empty text; the event then carries the chat id and message id as
      given (`""` when absent), that text, and the sender's user id. */
  lemma MessageDelivered(rawBody: string, encryptKey: string, parseJson: string -> Option<JsonValue>)
    requires parseJson(rawBody).Some? && ReachesEventChecks(parseJson(rawBody).value, encryptKey)
    requires CarriesMessage(parseJson(rawBody).value)
    ensures var body := parseJson(rawBody).value;
      var ev := Fields(body)["event"];
      var message := Fields(ev)["message"];
      var chatId := Present(message, "chat_id").GetOr(JString(""));
      var messageId := Present(message, "message_id").GetOr(JString(""));
      var r := HandleWebhookBody(rawBody, encryptKey, parseJson);
      match ContentOf(message, parseJson)
      case Err(e) => r == Threw(e)
      case Ok(content) =>
        if Truthy(chatId) && content != "" then
          r == Event(MessageEvent(chatId, messageId, content, UserIdOf(SenderId(ev, message))))
        else r == Ignored
  {
  }

  /** The usual case: a received message with a truthy chat id and string content whose
      parsed text is not empty is delivered with that text. */
  lemma TextMessageDelivered(rawBody: string, encryptKey: string, parseJson: string -> Option<JsonValue>)
    requires parseJson(rawBody).Some? && ReachesEventChecks(parseJson(rawBody).value, encryptKey)
    requires CarriesMessage(parseJson(rawBody).value)
    requires var message := Fields(Fields(parseJson(rawBody).value)["event"])["message"];
      && TruthyProp(message, "chat_id")
      && TruthyProp(message, "content") && Fields(message)["content"].JString?
      && LarkClient.ParseMessageContent(Fields(message)["content"].s, parseJson) != ""
    ensures var body := parseJson(rawBody).value;
      var ev := Fields(body)["event"];
      var message := Fields(ev)["message"];
      HandleWebhookBody(rawBody, encryptKey, parseJson)
        == Event(MessageEvent(Fields(message)["chat_id"],
                              Present(message, "message_id").GetOr(JString("")),
                              LarkClient.ParseMessageContent(Fields(message)["content"].s, parseJson),
                              UserIdOf(SenderId(ev, message))))
  {
    var ev := Fields(parseJson(rawBody).value)["event"];
    var message := Fields(ev)["message"];
    var content := LarkClient.ParseMessageContent(Fields(message)["content"].s, parseJson);
    assert Present(message, "chat_id") == Some(Fields(message)["chat_id"]);
    assert ContentOf(message, parseJson) == Ok(content);
    MessageDelivered(rawBody, encryptKey, parseJson);
  }

  /** A URL-verification body with a `challenge` property is answered with it before any
      other check, encrypted or not. */
  lemma ChallengeFirst(rawBody: string, encryptKey: string, parseJson: string -> Option<JsonValue>)
    requires parseJson(rawBody).Some?
    requires PropIs(parseJson(rawBody).value, "type", JString("url_verification"))
    requires "challenge" in Fields(parseJson(rawBody).value)
    ensures HandleWebhookBody(rawBody, encryptKey, parseJson)
      == Challenge(Fields(parseJson(rawBody).value)["challenge"])
  {
  }

  /** An encrypted body is ignored when an Encrypt Key is configured, unless it is a
      URL verification. */
  lemma EncryptedIgnored(rawBody: string, encryptKey: string, parseJson: string -> Option<JsonValue>)
    requires parseJson(rawBody).Some? && !parseJson(rawBody).value.JNull?
    requires TruthyProp(parseJson(rawBody).value, "encrypt") && encryptKey != ""
    requires !(PropIs(parseJson(rawBody).value, "type", JString("url_verification"))
               && "challenge" in Fields(parseJson(rawBody).value))
    ensures HandleWebhookBody(rawBody, encryptKey, parseJson) == Ignored
  {
  }

  /** The user id is the sender's `sender_id.user_id`; the message's `sender_id` is used
      only when the sender has no `sender_id` at all; a non-string id gives "". */
  lemma UserIdFallback(ev: JsonValue, message: JsonValue)
    ensures var fromSender := if Present(ev, "sender").Some? then Present(Present(ev, "sender").value, "sender_id") else None;
      && (fromSender.Some? ==> UserIdOf(SenderId(ev, message)) == UserIdOf(fromSender))
      && (fromSender.None? ==> UserIdOf(SenderId(ev, message)) == UserIdOf(Present(message, "sender_id")))
    ensures UserIdOf(SenderId(ev, message)) != "" ==>
      && SenderId(ev, message).Some?
      && Present(SenderId(ev, message).value, "user_id") == Some(JString(UserIdOf(SenderId(ev, message))))
  {
  }
}
