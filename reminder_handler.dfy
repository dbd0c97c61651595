/**
 * The scheduled reminder: every user who is not blocked, has no
 * temperature recorded and asked to be reminded at the current local hour
 * is sent the `window_open` text with the temperature keyboard; a
 * delivered reminder moves the user to TEMP_REPORT, and a user who blocked
 * the bot is reset and flagged as blocked.
 *
 * The send the sweep performs is the corrected one, `SendReminder`, which
 * reads the undefined `User.TEMP_NONE` as "none". The send as the code
 * writes it is `SendReminderAsWritten`.
 */
module Reminders {
  import opened Optional
  import opened Json
  import opened Users
  import opened Store
  import opened WebhookUpdates
  import opened TelegramMarkup
  import opened DateTimeFmt
  import opened Delivery

  /** The `description` Telegram gives when the user has blocked the bot. */
  const BLOCKED_DESCRIPTION := "Forbidden: bot was blocked by the user"

  /** The query filter: not blocked, `temp == "none"`, and the AM or PM reminder hour is `hour`. */
  predicate Targeted(r: UserRecord, meridies: string, hour: int) {
    && !r.blocked
    && r.temp == Some(TEMP_NONE)
    && (if meridies == "AM" then r.remindAM == hour else r.remindPM == hour)
  }

  /** The keys `User.query(...).fetch(keys_only=True)` returns. */
  function Targets(entities: map<Value, UserRecord>, meridies: string, hour: int): (t: set<Value>)
    ensures forall k :: k in t <==> k in entities && Targeted(entities[k], meridies, hour)
  {
    set k | k in entities && Targeted(entities[k], meridies, hour)
  }

  /**
   * At the UTC instant `utcHour:utcMinute` a user is targeted exactly when
   * the reminder hour for the local half of the day is the local hour.
   */
  lemma TargetedAtLocalHour(r: UserRecord, utcHour: Hour, utcMinute: Minute)
    ensures var now := Now(utcHour, utcMinute);
      var local := (utcHour + UTC_OFFSET_HOURS) % 24;
      Targeted(r, now.meridies, now.hour) <==>
        && !r.blocked && r.temp == Some(TEMP_NONE)
        && (if local < 12 then r.remindAM == local else r.remindPM == local)
  {
  }

  /** A new user and a user just reset are never reminded: their `temp` is not "none" and neither hour is set. */
  lemma FreshUsersNotTargeted(r: UserRecord, meridies: string, hour: Hour)
    ensures !Targeted(NewRecord(), meridies, hour)
    ensures !Targeted(ResetRecord(r), meridies, hour)
  {
  }

  /** The payload of one reminder. */
  function ReminderPayload(key: Value, text: string): Object {
    map["chat_id" := JStr(PyStr(key)), "text" := JStr(text), "parse_mode" := JStr(PARSE_MODE),
        "reply_markup" := TemperatureKeyboard()]
  }

  /**
   * Every target gets the same text and keyboard: a reminder is the reply
   * payload the handler would build for that chat with the keyboard, not
   * threaded as a reply.
   */
  lemma ReminderPayloadIsKeyboardMessage(u: WebhookUpdate, text: string)
    requires u.IsValid()
    ensures ReminderPayload(u.chatId, text) == MakeReply(u, text, TemperatureKeyboard(), false)
  {
    TemperatureKeyboardShape();
  }

  /**
   * The classification inside `sendMessage`: an exception or a response
   * without `ok` is FAILED; a truthy `ok` is SUCCESS; otherwise the block
   * description is BLOCKED, and anything else (a missing description
   * included) is FAILED.
   */
  function ReminderOutcome(d: Sent): Outcome {
    match d
    case Raised => Failed
    case Answered(resp) =>
      match Lookup(resp, "ok")
      case None => Failed
      case Some(ok) =>
        if Truthy(ok) then Success
        else
          match Lookup(resp, "description")
          case None => Failed
          case Some(description) => if description == JStr(BLOCKED_DESCRIPTION) then Blocked else Failed
  }

  /** The user's fields after `sendMessage` came to `o`. */
  function ReminderUpdate(r: UserRecord, o: Outcome): UserRecord {
    match o
    case Success => r.(temp := Some(TEMP_NONE), status := TEMP_REPORT)
    case Blocked => ResetRecord(r).(blocked := true)
    case Failed => r
  }

  /** `sendMessage(userKey)` on the user's stored fields: the outcome and the fields afterwards. */
  function SendReminder(r: UserRecord, d: Sent): (Outcome, UserRecord) {
    var o := ReminderOutcome(d);
    (o, ReminderUpdate(r, o))
  }

  /**
   * A delivered reminder leaves the user in TEMP_REPORT with `temp` "none";
   * every other field is kept.
   */
  lemma DeliveredReminderAwaitsReport(r: UserRecord, resp: Value)
    requires Lookup(resp, "ok").Some? && Truthy(Lookup(resp, "ok").value)
    ensures SendReminder(r, Answered(resp)) == (Success, r.(temp := Some(TEMP_NONE), status := TEMP_REPORT))
    ensures CommandCapable(SendReminder(r, Answered(resp)).1.status)
  {
    CommandCapableCharacterised(TEMP_REPORT);
  }

  /**
   * A user who blocked the bot is reset and flagged: status INIT_START,
   * every group field cleared, `blocked` set, and never targeted again.
   */
  lemma BlockedUserIsResetAndFlagged(r: UserRecord, d: Sent, meridies: string, hour: int)
    requires ReminderOutcome(d) == Blocked
    ensures var r' := SendReminder(r, d).1;
      && r' == ResetRecord(r).(blocked := true)
      && r'.status == INIT_START && r'.blocked && r'.firstName == r.firstName
      && !Targeted(r', meridies, hour)
  {
  }

  /** A reminder is BLOCKED exactly for a not-ok response carrying the block description. */
  lemma BlockedOnlyByDescription(resp: Value)
    ensures ReminderOutcome(Answered(resp)) == Blocked <==>
      && Lookup(resp, "ok").Some? && !Truthy(Lookup(resp, "ok").value)
      && Lookup(resp, "description") == Some(JStr(BLOCKED_DESCRIPTION))
  {
  }

  /**
   * What each outcome of a reminder send means: SUCCESS exactly when the
   * response has a truthy `ok`, and an exception is always FAILED.
   */
  lemma ReminderOutcomeCases(resp: Value)
    ensures ReminderOutcome(Answered(resp)) == Success
        <==> Lookup(resp, "ok").Some? && Truthy(Lookup(resp, "ok").value)
    ensures ReminderOutcome(Raised) == Failed
  {
  }

  /** A failed reminder, an exception included, leaves the user as it was. */
  lemma FailedReminderChangesNothing(r: UserRecord, d: Sent)
    requires ReminderOutcome(d) == Failed
    ensures SendReminder(r, d).1 == r
  {
  }

  /**
   * `sendMessage` as the source writes it: `User.TEMP_NONE` does not exist,
   * so after a truthy `ok` the attribute lookup raises inside the `try`,
   * and the send counts as FAILED with the user left as it was.
   */
  function SendReminderAsWritten(r: UserRecord, d: Sent): (Outcome, UserRecord) {
    var o := ReminderOutcome(d);
    if o == Success then (Failed, r) else (o, ReminderUpdate(r, o))
  }

  /** As written, no reminder ever counts as SUCCESS, a delivered one included. */
  lemma AsWrittenNeverSucceeds(r: UserRecord, d: Sent)
    ensures SendReminderAsWritten(r, d).0 != Success
    ensures ReminderOutcome(d) == Success ==> SendReminderAsWritten(r, d) == (Failed, r)
  {
  }

  /** The response `{"ok": true}` shows the two versions apart. */
  lemma TempNoneCounterexample(r: UserRecord)
    ensures var d := Answered(JObject(map["ok" := JBool(true)]));
      && SendReminderAsWritten(r, d) == (Failed, r)
      && SendReminder(r, d) == (Success, r.(temp := Some(TEMP_NONE), status := TEMP_REPORT))
  {
    var d := Answered(JObject(map["ok" := JBool(true)]));
    assert Lookup(d.resp, "ok") == Some(JBool(true));
  }

  /** The outcome of each target's send. */
  function Outcomes(targets: set<Value>, text: string, gateway: Gateway): map<Value, Outcome> {
    map k | k in targets :: ReminderOutcome(gateway(ReminderPayload(k, text)))
  }

  /** The entities after every target has been sent its reminder once. */
  function ReminderSweep(entities: map<Value, UserRecord>, targets: set<Value>, text: string, gateway: Gateway)
    : map<Value, UserRecord>
  {
    map k | k in entities ::
      if k in targets then SendReminder(entities[k], gateway(ReminderPayload(k, text))).1 else entities[k]
  }

  /**
   * After a sweep over the current targets the blocked users are those
   * blocked before plus those whose reminder came back BLOCKED, and no
   * other user is touched.
   */
  lemma SweepRecordsBlockedUsers(entities: map<Value, UserRecord>, meridies: string, hour: int, text: string, gateway: Gateway)
    ensures var targets := Targets(entities, meridies, hour);
      var after := ReminderSweep(entities, targets, text, gateway);
      && after.Keys == entities.Keys
      && (forall k :: k in entities && k !in targets ==> after[k] == entities[k])
      && (set k | k in after && after[k].blocked)
         == (set k | k in entities && entities[k].blocked) + WithOutcome(Outcomes(targets, text, gateway), Blocked)
  {
    var targets := Targets(entities, meridies, hour);
    var after := ReminderSweep(entities, targets, text, gateway);
    var outcomes := Outcomes(targets, text, gateway);
    forall k | k in after
      ensures after[k].blocked <==> entities[k].blocked || k in WithOutcome(outcomes, Blocked)
    {
      if k in targets {
        var o := outcomes[k];
        assert after[k] == ReminderUpdate(entities[k], o);
        assert !entities[k].blocked;
      }
    }
  }

  /** The inner `sendMessage(userKey)`: load the user, send, classify, and update and store the user. */
  method SendReminderTo(store: Datastore, key: Value, text: string, gateway: Gateway) returns (o: Outcome)
    requires key in store.entities
    modifies store
    ensures var (o', r') := SendReminder(old(store.entities)[key], gateway(ReminderPayload(key, text)));
      o == o' && store.entities == old(store.entities)[key := r']
  {
    var payload := ReminderPayload(key, text);
    var user := store.Get(key);
    ghost var r := user.Record();
    match gateway(payload) {
      case Raised =>
        o := Failed;
      case Answered(resp) =>
        match Lookup(resp, "ok") {
          case None =>
            o := Failed;
          case Some(ok) =>
            if Truthy(ok) {
              user.temp := Some(TEMP_NONE);
              user.status := TEMP_REPORT;
              store.Put(user);
              return Success;
            }
            match Lookup(resp, "description") {
              case None =>
                o := Failed;
              case Some(description) =>
                if description == JStr(BLOCKED_DESCRIPTION) {
                  user.Reset();
                  user.blocked := true;
                  store.Put(user);
                  assert user.Record() == ResetRecord(r).(blocked := true);
                  return Blocked;
                }
                o := Failed;
            }
        }
    }
    assert store.entities == old(store.entities)[key := r];
  }

  /**
   * `ReminderHandler.remind` at the UTC instant `utcHour:utcMinute`: every
   * target is sent its reminder exactly once, in some order, and the
   * outcomes are counted. `text` is the `window_open` text already
   * formatted with the current date and time. `sentTo` lists the chats
   * sent to, in the order of the sends.
   */
  method Remind(store: Datastore, utcHour: Hour, utcMinute: Minute, text: string, gateway: Gateway)
    returns (success: nat, failed: nat, blocked: nat, sentTo: seq<Value>)
    modifies store
    ensures var now := Now(utcHour, utcMinute);
      var targets := Targets(old(store.entities), now.meridies, now.hour);
      var outcomes := Outcomes(targets, text, gateway);
      && success == |WithOutcome(outcomes, Success)|
      && failed == |WithOutcome(outcomes, Failed)|
      && blocked == |WithOutcome(outcomes, Blocked)|
      && success + failed + blocked == |targets|
      && Distinct(sentTo) && Elements(sentTo) == targets
      && store.entities == ReminderSweep(old(store.entities), targets, text, gateway)
  {
    var now := Now(utcHour, utcMinute);
    var hour := now.hour;
    var allUserKeys := Targets(store.entities, now.meridies, hour);
    success, failed, blocked, sentTo := SendReminders(store, allUserKeys, text, gateway);
  }

  /**
   * The fan-out and the counting loop: sends each of `keys` its reminder
   * exactly once, in some order, and counts the outcomes; `sentTo` lists
   * each chat as its send is made.
   */
  method SendReminders(store: Datastore, keys: set<Value>, text: string, gateway: Gateway)
    returns (success: nat, failed: nat, blocked: nat, sentTo: seq<Value>)
    requires keys <= store.entities.Keys
    modifies store
    ensures var outcomes := Outcomes(keys, text, gateway);
      && success == |WithOutcome(outcomes, Success)|
      && failed == |WithOutcome(outcomes, Failed)|
      && blocked == |WithOutcome(outcomes, Blocked)|
      && success + failed + blocked == |keys|
      && Distinct(sentTo) && Elements(sentTo) == keys
      && store.entities == ReminderSweep(old(store.entities), keys, text, gateway)
  {
    ghost var before := store.entities;
    success, failed, blocked, sentTo := 0, 0, 0, [];
    ghost var done: set<Value> := {};
    SweepStart(before, text, gateway);
    assert Elements(sentTo) == {};
    assert SweepTallied(before, done, text, gateway, store.entities, success, failed, blocked, sentTo);
    var remaining := keys;
    while remaining != {}
      invariant done + remaining == keys && done !! remaining
      invariant SweepTallied(before, done, text, gateway, store.entities, success, failed, blocked, sentTo)
      decreases |remaining|
    {
      var k :| k in remaining;
      SweepTallyStep(before, done, k, text, gateway, store.entities, success, failed, blocked, sentTo);
      var resp := SendReminderTo(store, k, text, gateway);
      sentTo := sentTo + [k];
      success := success + if resp == Success then 1 else 0;
      failed := failed + if resp == Failed then 1 else 0;
      blocked := blocked + if resp == Blocked then 1 else 0;
      MoveOne(done, remaining, keys, k);
      done := done + {k};
      remaining := remaining - {k};
    }
    assert Outcomes(keys, text, gateway).Keys == keys;
    OutcomeCountsPartition(Outcomes(keys, text, gateway));
  }

  /**
   * What the reminder loop has done once the targets in `done` have been
   * sent to: `current` is the sweep of `entities` over `done`, the three
   * counts are those of the outcomes so far, and `sentTo` lists each chat
   * in `done` once.
   */
  ghost predicate SweepTallied(entities: map<Value, UserRecord>, done: set<Value>, text: string, gateway: Gateway,
                               current: map<Value, UserRecord>, success: nat, failed: nat, blocked: nat,
                               sentTo: seq<Value>)
  {
    && current == ReminderSweep(entities, done, text, gateway)
    && Counted(Outcomes(done, text, gateway), success, failed, blocked)
    && Distinct(sentTo) && Elements(sentTo) == done
  }

  /**
   * Sending to one more target, which the sweep has not touched yet,
   * updates its entity, adds one to its outcome's count and lists it as
   * sent to.
   */
  lemma SweepTallyStep(entities: map<Value, UserRecord>, done: set<Value>, k: Value, text: string, gateway: Gateway,
                       current: map<Value, UserRecord>, success: nat, failed: nat, blocked: nat, sentTo: seq<Value>)
    requires k in entities && k !in done
    requires SweepTallied(entities, done, text, gateway, current, success, failed, blocked, sentTo)
    ensures k in current && current[k] == entities[k]
    ensures var (o, r') := SendReminder(entities[k], gateway(ReminderPayload(k, text)));
      SweepTallied(entities, done + {k}, text, gateway, current[k := r'],
                   success + (if o == Success then 1 else 0), failed + (if o == Failed then 1 else 0),
                   blocked + (if o == Blocked then 1 else 0), sentTo + [k])
  {
    var o := SendReminder(entities[k], gateway(ReminderPayload(k, text))).0;
    SweepStep(entities, done, k, text, gateway);
    CountOne(Outcomes(done, text, gateway), k, o, success, failed, blocked);
    AppendFresh(sentTo, k);
  }

  /** Before any send the sweep has changed nothing. */
  lemma SweepStart(entities: map<Value, UserRecord>, text: string, gateway: Gateway)
    ensures ReminderSweep(entities, {}, text, gateway) == entities
    ensures Outcomes({}, text, gateway) == map[]
  {
  }

  /** Sending to one more target updates that target's entity and records its outcome, nothing else. */
  lemma SweepStep(entities: map<Value, UserRecord>, done: set<Value>, k: Value, text: string, gateway: Gateway)
    requires k in entities && k !in done
    ensures var (o, r') := SendReminder(entities[k], gateway(ReminderPayload(k, text)));
      && ReminderSweep(entities, done, text, gateway)[k] == entities[k]
      && ReminderSweep(entities, done + {k}, text, gateway) == ReminderSweep(entities, done, text, gateway)[k := r']
      && Outcomes(done + {k}, text, gateway) == Outcomes(done, text, gateway)[k := o]
      && (forall o' :: |WithOutcome(Outcomes(done + {k}, text, gateway), o')|
            == |WithOutcome(Outcomes(done, text, gateway), o')| + (if o == o' then 1 else 0))
  {
    var o := ReminderOutcome(gateway(ReminderPayload(k, text)));
    assert Outcomes(done + {k}, text, gateway) == Outcomes(done, text, gateway)[k := o];
    forall o' ensures |WithOutcome(Outcomes(done + {k}, text, gateway), o')|
        == |WithOutcome(Outcomes(done, text, gateway), o')| + (if o == o' then 1 else 0)
    {
      WithOutcomeAdd(Outcomes(done, text, gateway), k, o, o');
    }
  }
}
