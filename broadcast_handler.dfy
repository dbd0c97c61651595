/**
 * The broadcast: one text sent to every user who is not blocked. The
 * outcomes are counted and the ids of the users who blocked the bot are
 * collected; no user entity is changed.
 */
module Broadcasts {
  import opened Optional
  import opened Json
  import opened Users
  import opened Store
  import opened WebhookUpdates
  import opened Delivery
  import opened Reminders

  /** The error code Telegram gives when the user has blocked the bot. */
  const FORBIDDEN := 403

  /** `User.query(User.blocked == False)`: the ids of every user who is not blocked. */
  function BroadcastTargets(entities: map<Value, UserRecord>): (t: set<Value>)
    ensures forall k :: k in t <==> k in entities && !entities[k].blocked
  {
    set k | k in entities && !entities[k].blocked
  }

  /** The payload of one broadcast message. */
  function BroadcastPayload(chatId: Value, text: string): Object {
    map["chat_id" := JStr(PyStr(chatId)), "text" := JStr(text), "parse_mode" := JStr(PARSE_MODE)]
  }

  /** A broadcast is the plain message the handler would send to that chat: no markup, not a reply. */
  lemma BroadcastPayloadIsPlainMessage(u: WebhookUpdate, text: string)
    requires u.IsValid()
    ensures BroadcastPayload(u.chatId, text) == MakeReply(u, text, JNull, false)
    ensures BroadcastPayload(u.chatId, text).Keys == {"chat_id", "text", "parse_mode"}
  {
  }

  /**
   * The classification inside `sendMessage`: an exception or a response
   * without `ok` is FAILED; a truthy `ok` is SUCCESS; otherwise error code
   * 403 is BLOCKED, and anything else (a missing error code included) is
   * FAILED.
   */
  function BroadcastOutcome(d: Sent): Outcome {
    match d
    case Raised => Failed
    case Answered(resp) =>
      match Lookup(resp, "ok")
      case None => Failed
      case Some(ok) =>
        if Truthy(ok) then Success
        else
          match Lookup(resp, "error_code")
          case None => Failed
          case Some(code) => if code == JInt(FORBIDDEN) then Blocked else Failed
  }

  /**
   * What each outcome of a broadcast send means: BLOCKED exactly when the
   * response has a falsy `ok` and error code 403, SUCCESS exactly when it
   * has a truthy `ok`, and an exception is always FAILED.
   */
  lemma BroadcastOutcomeCases(resp: Value)
    ensures BroadcastOutcome(Answered(resp)) == Blocked
        <==> Lookup(resp, "ok").Some? && !Truthy(Lookup(resp, "ok").value)
             && Lookup(resp, "error_code") == Some(JInt(FORBIDDEN))
    ensures BroadcastOutcome(Answered(resp)) == Success
        <==> Lookup(resp, "ok").Some? && Truthy(Lookup(resp, "ok").value)
    ensures BroadcastOutcome(Raised) == Failed
  {
  }

  /** The two fan-outs agree on what a delivered message is. */
  lemma OutcomesAgreeOnSuccess(d: Sent)
    ensures BroadcastOutcome(d) == Success <==> ReminderOutcome(d) == Success
  {
  }

  /**
   * They disagree on blocking: the broadcast goes by the error code, the
   * reminder by the description, so a 403 with another description is
   * BLOCKED for one and FAILED for the other.
   */
  lemma BlockedByCodeNotDescription()
    ensures var d := Answered(JObject(map["ok" := JBool(false), "error_code" := JInt(FORBIDDEN),
                                          "description" := JStr("Forbidden: user is deactivated")]));
      BroadcastOutcome(d) == Blocked && ReminderOutcome(d) == Failed
  {
    var fields := map["ok" := JBool(false), "error_code" := JInt(FORBIDDEN),
                      "description" := JStr("Forbidden: user is deactivated")];
    assert Lookup(JObject(fields), "ok") == Some(JBool(false));
    assert Lookup(JObject(fields), "error_code") == Some(JInt(FORBIDDEN));
    assert Lookup(JObject(fields), "description") == Some(JStr("Forbidden: user is deactivated"));
    assert JStr("Forbidden: user is deactivated") != JStr(BLOCKED_DESCRIPTION) by {
      assert "Forbidden: user is deactivated"[11] != BLOCKED_DESCRIPTION[11];
    }
  }

  /** The outcome of each target's send. */
  function BroadcastOutcomes(targets: set<Value>, text: string, gateway: Gateway): map<Value, Outcome> {
    map k | k in targets :: BroadcastOutcome(gateway(BroadcastPayload(k, text)))
  }

  /** Recording one more target's outcome adds one to the count of that outcome. */
  lemma BroadcastStep(done: set<Value>, k: Value, text: string, gateway: Gateway)
    requires k !in done
    ensures var o := BroadcastOutcome(gateway(BroadcastPayload(k, text)));
      && BroadcastOutcomes(done + {k}, text, gateway) == BroadcastOutcomes(done, text, gateway)[k := o]
      && (forall o' :: |WithOutcome(BroadcastOutcomes(done + {k}, text, gateway), o')|
            == |WithOutcome(BroadcastOutcomes(done, text, gateway), o')| + (if o == o' then 1 else 0))
      && WithOutcome(BroadcastOutcomes(done + {k}, text, gateway), Blocked)
         == WithOutcome(BroadcastOutcomes(done, text, gateway), Blocked) + (if o == Blocked then {k} else {})
      && k !in WithOutcome(BroadcastOutcomes(done, text, gateway), Blocked)
  {
    var o := BroadcastOutcome(gateway(BroadcastPayload(k, text)));
    assert BroadcastOutcomes(done + {k}, text, gateway) == BroadcastOutcomes(done, text, gateway)[k := o];
    forall o' ensures |WithOutcome(BroadcastOutcomes(done + {k}, text, gateway), o')|
        == |WithOutcome(BroadcastOutcomes(done, text, gateway), o')| + (if o == o' then 1 else 0)
    {
      WithOutcomeAdd(BroadcastOutcomes(done, text, gateway), k, o, o');
    }
    WithOutcomeAdd(BroadcastOutcomes(done, text, gateway), k, o, Blocked);
  }

  /**
   * What the broadcast loop has gathered once the targets in `done` have
   * been sent to: the three counts, the blocked users and the chats sent
   * to, each listed once.
   */
  ghost predicate BroadcastTallied(done: set<Value>, text: string, gateway: Gateway, success: nat, failed: nat, blocked: nat,
                          blockedUsers: seq<Value>, sentTo: seq<Value>)
  {
    var outcomes := BroadcastOutcomes(done, text, gateway);
    && Counted(outcomes, success, failed, blocked)
    && Elements(blockedUsers) == WithOutcome(outcomes, Blocked)
    && |blockedUsers| == blocked && Distinct(blockedUsers)
    && Distinct(sentTo) && Elements(sentTo) == done
  }

  /** Sending to one more target adds one to its outcome's count, lists it as sent to, and lists it as blocked if it is. */
  lemma BroadcastTallyStep(done: set<Value>, k: Value, text: string, gateway: Gateway, success: nat, failed: nat, blocked: nat,
                  blockedUsers: seq<Value>, sentTo: seq<Value>)
    requires k !in done && BroadcastTallied(done, text, gateway, success, failed, blocked, blockedUsers, sentTo)
    ensures var o := BroadcastOutcome(gateway(BroadcastPayload(k, text)));
      BroadcastTallied(done + {k}, text, gateway,
              success + (if o == Success then 1 else 0), failed + (if o == Failed then 1 else 0),
              blocked + (if o == Blocked then 1 else 0),
              if o == Blocked then blockedUsers + [k] else blockedUsers, sentTo + [k])
  {
    var o := BroadcastOutcome(gateway(BroadcastPayload(k, text)));
    BroadcastStep(done, k, text, gateway);
    CountOne(BroadcastOutcomes(done, text, gateway), k, o, success, failed, blocked);
    AppendFresh(sentTo, k);
    if o == Blocked {
      AppendFresh(blockedUsers, k);
    }
  }

  /**
   * `BroadcastHandler.broadcast(text)`: every user who is not blocked is
   * sent the text exactly once, in some order. The outcomes are counted and
   * the ids classified BLOCKED are listed, each once; the store is only
   * read. `sentTo` lists each chat as its send is made.
   */
  method Broadcast(store: Datastore, text: string, gateway: Gateway)
    returns (success: nat, failed: nat, blocked: nat, blockedUsers: seq<Value>, sentTo: seq<Value>)
    ensures var outcomes := BroadcastOutcomes(BroadcastTargets(store.entities), text, gateway);
      && success == |WithOutcome(outcomes, Success)|
      && failed == |WithOutcome(outcomes, Failed)|
      && blocked == |WithOutcome(outcomes, Blocked)|
      && Elements(blockedUsers) == WithOutcome(outcomes, Blocked)
    ensures success + failed + blocked == |BroadcastTargets(store.entities)|
    ensures |blockedUsers| == blocked && Distinct(blockedUsers)
    ensures Distinct(sentTo) && Elements(sentTo) == BroadcastTargets(store.entities)
  {
    var allUserIds := BroadcastTargets(store.entities);
    success, failed, blocked, blockedUsers, sentTo := 0, 0, 0, [], [];
    ghost var done: set<Value> := {};
    assert Elements(blockedUsers) == {} && Elements(sentTo) == {};
    assert BroadcastTallied(done, text, gateway, success, failed, blocked, blockedUsers, sentTo);
    var remaining := allUserIds;
    while remaining != {}
      invariant done + remaining == allUserIds && done !! remaining
      invariant BroadcastTallied(done, text, gateway, success, failed, blocked, blockedUsers, sentTo)
      decreases |remaining|
    {
      var chatId :| chatId in remaining;
      BroadcastTallyStep(done, chatId, text, gateway, success, failed, blocked, blockedUsers, sentTo);
      var resp := BroadcastOutcome(gateway(BroadcastPayload(chatId, text)));
      sentTo := sentTo + [chatId];
      success := success + if resp == Success then 1 else 0;
      failed := failed + if resp == Failed then 1 else 0;
      blocked := blocked + if resp == Blocked then 1 else 0;
      blockedUsers := if resp == Blocked then blockedUsers + [chatId] else blockedUsers;
      MoveOne(done, remaining, allUserIds, chatId);
      done := done + {chatId};
      remaining := remaining - {chatId};
    }
    assert BroadcastOutcomes(allUserIds, text, gateway).Keys == allUserIds;
    OutcomeCountsPartition(BroadcastOutcomes(allUserIds, text, gateway));
  }
}
