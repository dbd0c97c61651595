/**
 * The webhook endpoint: it picks the message out of an incoming update,
 * tells an update without a message apart from an invalid one, hands a
 * valid one to the update handler, sends the handler's reply once and
 * answers the HTTP request. The Telegram API is a parameter: `send` gives
 * what posting a payload to `sendMessage` comes to, a decoded answer or an
 * exception (a failed post, or an answer that is not JSON).
 */
module App {
  import opened Optional
  import opened Json
  import opened Users
  import opened Store
  import opened WebhookUpdates
  import opened UpdateHandling
  import Delivery

  /** The HTTP response: a plain string, a JSON body, or the server error an uncaught exception becomes. */
  datatype Response = Text(s: string) | JsonBody(v: Value) | ServerError

  const NO_MESSAGE := "Received update with no message component"
  const INVALID_UPDATE := "Invalid update object"
  const OK := "OK"

  /** `makeResponse(respObj)`: in debug mode the object itself (a string as text, anything else as JSON), otherwise "OK". */
  function MakeResponse(debug: bool, obj: Value): Response {
    if debug then
      if obj.JStr? then Text(obj.s) else JsonBody(obj)
    else
      Text(OK)
  }

  /** In production the response says nothing about the object; in debug mode it gives the object back. */
  lemma MakeResponseShowsObjectOnlyInDebug(a: Value, b: Value)
    ensures MakeResponse(false, a) == MakeResponse(false, b) == Text(OK)
    ensures MakeResponse(true, a) == MakeResponse(true, b) <==> a == b
    ensures MakeResponse(true, a) != ServerError
  {
  }

  /** The message component of an update body: `message`, or else `edited_message`. */
  function ExtractMessage(body: Object): (m: Option<Value>)
    ensures m.Some? <==> "message" in body || "edited_message" in body
  {
    if "message" in body then Some(body["message"])
    else if "edited_message" in body then Some(body["edited_message"])
    else None
  }

  /** `message` wins over `edited_message` when both are present. */
  lemma MessagePreferredOverEdited(body: Object)
    ensures "message" in body ==> ExtractMessage(body) == Some(body["message"])
    ensures "message" !in body && "edited_message" in body ==> ExtractMessage(body) == Some(body["edited_message"])
  {
  }

  /** Where an update body goes before any user is touched. */
  datatype Classification =
    | NoMessage
    | MissingUpdateId
    | InvalidUpdate
    | Handle(update: WebhookUpdate)

  /** The classification part of `webhookRoute`, in the order it reads the body. */
  function Classify(body: Object): (c: Classification)
    ensures c == NoMessage <==> ExtractMessage(body).None?
    ensures c == MissingUpdateId <==> ExtractMessage(body).Some? && "update_id" !in body
    ensures c.Handle? ==> c.update.IsValid() && c.update == NewWebhookUpdate(body["update_id"], ExtractMessage(body).value)
    ensures c == InvalidUpdate <==>
      ExtractMessage(body).Some? && "update_id" in body && !NewWebhookUpdate(body["update_id"], ExtractMessage(body).value).IsValid()
  {
    match ExtractMessage(body)
    case None => NoMessage
    case Some(message) =>
      if "update_id" !in body then MissingUpdateId
      else
        var u := NewWebhookUpdate(body["update_id"], message);
        if u.IsValid() then Handle(u) else InvalidUpdate
  }

  /**
   * `webhookRoute` on a decoded JSON object body: the response, the payloads
   * passed to `sendMessage` in order, and the user entities afterwards. An
   * exception from the send is not caught, so the request fails after the
   * entity has been stored.
   */
  function Route(body: Object, debug: bool, entities: map<Value, UserRecord>, strings: Strings, windowOpen: string,
                 send: Value -> Delivery.Sent)
    : (Response, seq<Value>, map<Value, UserRecord>)
  {
    match Classify(body)
    case NoMessage => (MakeResponse(debug, JStr(NO_MESSAGE)), [], entities)
    case MissingUpdateId => (ServerError, [], entities)
    case InvalidUpdate => (Text(INVALID_UPDATE), [], entities)
    case Handle(u) =>
      var (h, after) := ProcessSpec(u, entities, strings, windowOpen);
      match h
      case Returned(reply) =>
        if send(reply).Raised? then (ServerError, [reply], after)
        else (MakeResponse(debug, reply), [reply], after)
      case Raised => (ServerError, [], after)
  }

  /** A body with neither `message` nor `edited_message` gets the no-message response; nothing is sent or stored. */
  lemma NoMessageComponent(body: Object, debug: bool, entities: map<Value, UserRecord>, strings: Strings, windowOpen: string,
                           send: Value -> Delivery.Sent)
    requires "message" !in body && "edited_message" !in body
    ensures Route(body, debug, entities, strings, windowOpen, send) == (MakeResponse(debug, JStr(NO_MESSAGE)), [], entities)
  {
  }

  /**
   * An invalid update gets "Invalid update object" in debug and production
   * mode alike; the handler does not run and nothing is sent or stored.
   */
  lemma InvalidUpdateIgnoresDebug(body: Object, debug: bool, entities: map<Value, UserRecord>, strings: Strings, windowOpen: string,
                                  send: Value -> Delivery.Sent)
    requires ExtractMessage(body).Some? && "update_id" in body
    requires !NewWebhookUpdate(body["update_id"], ExtractMessage(body).value).IsValid()
    ensures Route(body, debug, entities, strings, windowOpen, send) == (Text(INVALID_UPDATE), [], entities)
  {
  }

  /**
   * A valid update is processed once: the handler's entity is stored and
   * its reply is sent exactly once. The response shows the reply in debug
   * mode unless the send raised, in which case the request fails with the
   * entity already stored. When the handler raises, nothing is sent and
   * the request fails.
   */
  lemma ValidUpdateSentOnce(body: Object, debug: bool, entities: map<Value, UserRecord>, strings: Strings, windowOpen: string,
                            send: Value -> Delivery.Sent)
    requires Classify(body).Handle?
    ensures var u := Classify(body).update;
      var (h, after) := ProcessSpec(u, entities, strings, windowOpen);
      var (resp, sent, entities') := Route(body, debug, entities, strings, windowOpen, send);
      && entities' == after
      && (h.Returned? ==> sent == [h.value])
      && (h.Returned? && send(h.value).Answered? ==> resp == MakeResponse(debug, h.value))
      && (h.Returned? && send(h.value).Raised? ==> resp == ServerError)
      && (h.Raised? ==> sent == [] && resp == ServerError)
  {
  }

  /** At most one payload is sent per update, and only for a valid update. */
  lemma AtMostOneSend(body: Object, debug: bool, entities: map<Value, UserRecord>, strings: Strings, windowOpen: string,
                      send: Value -> Delivery.Sent)
    ensures var sent := Route(body, debug, entities, strings, windowOpen, send).1;
      |sent| <= 1 && (|sent| == 1 ==> Classify(body).Handle?)
  {
  }

  /** In production every answer is "OK" except for an invalid update and a failed request. */
  lemma ProductionAnswers(body: Object, entities: map<Value, UserRecord>, strings: Strings, windowOpen: string,
                          send: Value -> Delivery.Sent)
    ensures var resp := Route(body, false, entities, strings, windowOpen, send).0;
      resp == Text(OK) || resp == Text(INVALID_UPDATE) || resp == ServerError
    ensures Route(body, false, entities, strings, windowOpen, send).0 == Text(INVALID_UPDATE) <==> Classify(body) == InvalidUpdate
  {
  }

  /**
   * `webhookRoute` on a decoded JSON object body. `sent` lists the payloads
   * passed to `telegramApi.sendMessage`.
   */
  method WebhookRoute(body: Object, debug: bool, store: Datastore, strings: Strings, windowOpen: string,
                      send: Value -> Delivery.Sent)
    returns (resp: Response, sent: seq<Value>)
    modifies store
    ensures (resp, sent, store.entities) == Route(body, debug, old(store.entities), strings, windowOpen, send)
  {
    sent := [];
    var message: Value;
    if "message" in body {
      message := body["message"];
    } else if "edited_message" in body {
      message := body["edited_message"];
    } else {
      return MakeResponse(debug, JStr(NO_MESSAGE)), sent;
    }
    if "update_id" !in body {
      // `body["update_id"]` raises KeyError
      return ServerError, sent;
    }
    var updateObj := NewWebhookUpdate(body["update_id"], message);
    if !updateObj.IsValid() {
      return Text(INVALID_UPDATE), sent;
    }
    assert Classify(body) == Handle(updateObj);
    var handler := new UpdateHandler(updateObj);
    var h := handler.Process(store, strings, windowOpen);
    if h.Raised? {
      return ServerError, sent;
    }
    sent := [h.value];
    var answer := send(h.value);
    if answer.Raised? {
      // the exception from `sendMessage` is not caught
      return ServerError, sent;
    }
    resp := MakeResponse(debug, h.value);
  }
}
