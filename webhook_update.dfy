/**
 * The wrapper around the message part of an incoming webhook update: the
 * fields it reads, when it counts as valid, and the reply payload it builds.
 */
module WebhookUpdates {
  import opened Optional
  import opened Json

  /**
   * A constructed update. `Invalid` stands for an object whose `_isValid`
   * flag was cleared because reading some required field raised; the
   * attributes it may have set before that are never read and are dropped.
   */
  datatype WebhookUpdate =
    | Valid(id: Value, text: Option<Value>, messageId: Value, date: Value, fromUserId: Value, chatId: Value)
    | Invalid(id: Value)
  {
    /** `isValid()`. */
    predicate IsValid() {
      Valid?
    }
  }

  /** The message object has every field the constructor reads with `[]`: `message_id`, `date`, `from` and `chat.id`. */
  predicate HasRequiredFields(m: Object) {
    && "message_id" in m
    && "date" in m
    && "from" in m
    && "chat" in m
    && Lookup(m["chat"], "id").Some?
  }

  /** `messageObj.get("text")`: None when the key is absent or holds null. */
  function TextOf(m: Object): Option<Value> {
    if "text" in m && m["text"] != JNull then Some(m["text"]) else None
  }

  /**
   * `WebhookUpdate(updateId, messageObj)`: any exception while reading the
   * fields (a missing key, a message or chat that is not an object) makes
   * the update invalid.
   */
  function NewWebhookUpdate(updateId: Value, messageObj: Value): (u: WebhookUpdate)
    ensures u.id == updateId
    ensures u.IsValid() <==> messageObj.JObject? && HasRequiredFields(messageObj.fields)
    ensures u.IsValid() ==>
      var m := messageObj.fields;
      && u.text == TextOf(m)
      && u.messageId == m["message_id"] && u.date == m["date"] && u.fromUserId == m["from"]
      && u.chatId == m["chat"].fields["id"]
  {
    match messageObj
    case JObject(m) =>
      if "message_id" !in m || "date" !in m || "from" !in m || "chat" !in m then Invalid(updateId)
      else (
        match Lookup(m["chat"], "id")
        case None => Invalid(updateId)
        case Some(chatId) => Valid(updateId, TextOf(m), m["message_id"], m["date"], m["from"], chatId)
      )
    case _ => Invalid(updateId)
  }

  /** A missing `text` does not make an update invalid; the update then has no text. */
  lemma TextIsOptional(updateId: Value, m: Object)
    ensures NewWebhookUpdate(updateId, JObject(m - {"text"})).IsValid() == NewWebhookUpdate(updateId, JObject(m)).IsValid()
    ensures NewWebhookUpdate(updateId, JObject(m - {"text"})).IsValid() ==>
      NewWebhookUpdate(updateId, JObject(m - {"text"})).text == None
  {
    var m' := m - {"text"};
    assert forall k :: k != "text" ==> (k in m' <==> k in m) && (k in m ==> m'[k] == m[k]);
  }

  const PARSE_MODE := "HTML"

  /**
   * `makeReply(text, markup, reply)`: the payload for answering this update.
   * `markup` is JNull when no markup is passed; `reply` defaults to true in
   * the source.
   */
  function MakeReply(u: WebhookUpdate, text: string, markup: Value, reply: bool): Object
    requires u.IsValid()
  {
    var payload := map["chat_id" := JStr(PyStr(u.chatId)), "text" := JStr(text), "parse_mode" := JStr(PARSE_MODE)];
    var withMarkup := if Truthy(markup) then payload["reply_markup" := markup] else payload;
    if reply then withMarkup["reply_to_message_id" := JStr(PyStr(u.messageId))] else withMarkup
  }

  /**
   * The reply payload has `chat_id`, the text verbatim and `parse_mode` HTML;
   * `reply_markup` exactly when the markup is truthy; `reply_to_message_id`
   * exactly when `reply` is set; and no other key.
   */
  lemma MakeReplyPayload(u: WebhookUpdate, text: string, markup: Value, reply: bool)
    requires u.IsValid()
    ensures var p := MakeReply(u, text, markup, reply);
      && p.Keys == {"chat_id", "text", "parse_mode"}
                   + (if Truthy(markup) then {"reply_markup"} else {})
                   + (if reply then {"reply_to_message_id"} else {})
      && p["chat_id"] == JStr(PyStr(u.chatId))
      && p["text"] == JStr(text) && p["parse_mode"] == JStr(PARSE_MODE)
      && ("reply_markup" in p ==> p["reply_markup"] == markup)
      && ("reply_to_message_id" in p ==> p["reply_to_message_id"] == JStr(PyStr(u.messageId)))
  {
  }
}
