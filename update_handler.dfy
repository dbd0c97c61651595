/**
 * The handler for one valid webhook update: commands are decided from the
 * message text and the stored user's status, and the user entity is reset
 * or moved to the temperature-report state accordingly.
 */
module UpdateHandling {
  import opened Optional
  import opened PyText
  import opened Json
  import opened Users
  import opened Store
  import opened WebhookUpdates
  import opened TelegramMarkup
  import opened DateTimeFmt

  /** The entries of the bot's string table this handler replies with. */
  datatype Strings = Strings(noTextError: string, saf100: string, invalidInput: string)

  /** What handling comes to: the value returned (a payload dict or a plain string), or an exception raised. */
  datatype Handled = Returned(value: Value) | Raised

  /** What the unimplemented paths (the state machine and `/remind`) return. */
  const TODO := "TODO"

  /** The meridies of `getFmtNow()`: "AM" exactly when the UTC+8 hour is before noon. */
  function FmtNowMeridies(utcHour: Hour): (m: string)
    ensures m == "AM" || m == "PM"
    ensures m == "AM" <==> (utcHour + UTC_OFFSET_HOURS) % 24 < 12
  {
    Meridies(LocalHour(utcHour))
  }

  /**
   * `parseCommand(command)` on the user's stored fields: the value returned
   * and the fields afterwards. `windowOpen` is the `window_open` text already
   * formatted with the current time.
   */
  function CommandSpec(u: WebhookUpdate, command: string, r: UserRecord, strings: Strings, windowOpen: string): (Value, UserRecord)
    requires u.IsValid()
  {
    if command == "/start" then
      (JObject(MakeReply(u, strings.saf100, JNull, false)), ResetRecord(r))
    else if CommandCapable(r.status) && command == "/forcesubmit" then
      (JObject(MakeReply(u, windowOpen, TemperatureKeyboard(), true)), r.(status := TEMP_REPORT))
    else if CommandCapable(r.status) && command == "/remind" then
      (JStr(TODO), r)
    else
      (JObject(MakeReply(u, strings.invalidInput, JNull, true)), r)
  }

  /** The user `get_or_insert` yields for `key`: the stored one, or a new one with the defaults. */
  function Loaded(entities: map<Value, UserRecord>, key: Value): UserRecord {
    if key in entities then entities[key] else NewRecord()
  }

  /**
   * `process()` on the stored entities: the outcome and the entities
   * afterwards. A text that is present but not a string makes
   * `startswith` raise, after the user has been fetched or created.
   */
  function ProcessSpec(u: WebhookUpdate, entities: map<Value, UserRecord>, strings: Strings, windowOpen: string)
    : (Handled, map<Value, UserRecord>)
    requires u.IsValid()
  {
    match u.text
    case None => (Returned(JObject(MakeReply(u, strings.noTextError, JNull, true))), entities)
    case Some(t) =>
      var r := Loaded(entities, u.chatId);
      match t
      case JStr(s) =>
        if StartsWith(s, "/") then
          var (reply, r') := CommandSpec(u, Strip(s), r, strings, windowOpen);
          (Returned(reply), entities[u.chatId := r'])
        else
          (Returned(JStr(TODO)), entities[u.chatId := r])
      case _ => (Raised, entities[u.chatId := r])
  }

  /** An update without text gets the `no_text_error` reply and no user entity is read or created. */
  lemma NoTextTouchesNoUser(u: WebhookUpdate, entities: map<Value, UserRecord>, strings: Strings, windowOpen: string)
    requires u.IsValid() && u.text.None?
    ensures ProcessSpec(u, entities, strings, windowOpen)
      == (Returned(JObject(MakeReply(u, strings.noTextError, JNull, true))), entities)
  {
  }

  /** Only the entity of the update's own chat can change, and an update with text leaves one stored for it. */
  lemma OnlyOwnEntityChanges(u: WebhookUpdate, entities: map<Value, UserRecord>, strings: Strings, windowOpen: string)
    requires u.IsValid()
    ensures var after := ProcessSpec(u, entities, strings, windowOpen).1;
      && after.Keys == entities.Keys + (if u.text.Some? then {u.chatId} else {})
      && forall k :: k in entities && k != u.chatId ==> after[k] == entities[k]
  {
  }

  /** `/start` resets the user from any status and replies with SAF100, not as a reply to the command. */
  lemma StartResetsFromAnyStatus(u: WebhookUpdate, s: string, entities: map<Value, UserRecord>, strings: Strings, windowOpen: string)
    requires u.IsValid() && u.text == Some(JStr(s)) && StartsWith(s, "/") && Strip(s) == "/start"
    ensures var (h, after) := ProcessSpec(u, entities, strings, windowOpen);
      && h == Returned(JObject(MakeReply(u, strings.saf100, JNull, false)))
      && after[u.chatId] == ResetRecord(Loaded(entities, u.chatId))
      && after[u.chatId].status == INIT_START
  {
    var r := Loaded(entities, u.chatId);
    ProcessCommandPath(u, s, "/start", entities, strings, windowOpen);
    assert CommandSpec(u, "/start", r, strings, windowOpen)
        == (JObject(MakeReply(u, strings.saf100, JNull, false)), ResetRecord(r));
  }

  /**
   * `/forcesubmit` from a command-capable status moves the user to
   * TEMP_REPORT and changes nothing else; the reply carries the temperature
   * keyboard and is threaded as a reply.
   */
  lemma ForceSubmitFromCommandState(u: WebhookUpdate, s: string, entities: map<Value, UserRecord>, strings: Strings, windowOpen: string)
    requires u.IsValid() && u.text == Some(JStr(s)) && StartsWith(s, "/") && Strip(s) == "/forcesubmit"
    requires CommandCapable(Loaded(entities, u.chatId).status)
    ensures var (h, after) := ProcessSpec(u, entities, strings, windowOpen);
      && h.Returned? && h.value.JObject?
      && h.value.fields.Keys == {"chat_id", "text", "parse_mode", "reply_markup", "reply_to_message_id"}
      && h.value.fields["reply_markup"] == TemperatureKeyboard()
      && h.value.fields["text"] == JStr(windowOpen)
      && h.value.fields["reply_to_message_id"] == JStr(PyStr(u.messageId))
      && after[u.chatId] == Loaded(entities, u.chatId).(status := TEMP_REPORT)
  {
    ProcessCommandPath(u, s, "/forcesubmit", entities, strings, windowOpen);
    TemperatureKeyboardShape();
    MakeReplyPayload(u, windowOpen, TemperatureKeyboard(), true);
  }

  /** Any command but `/start` from a status that cannot issue commands gets `invalid_input`; the user is unchanged. */
  lemma CommandsNeedCommandState(u: WebhookUpdate, s: string, entities: map<Value, UserRecord>, strings: Strings, windowOpen: string)
    requires u.IsValid() && u.text == Some(JStr(s)) && StartsWith(s, "/") && Strip(s) != "/start"
    requires !CommandCapable(Loaded(entities, u.chatId).status)
    ensures var (h, after) := ProcessSpec(u, entities, strings, windowOpen);
      && h == Returned(JObject(MakeReply(u, strings.invalidInput, JNull, true)))
      && after[u.chatId] == Loaded(entities, u.chatId)
  {
    ProcessCommandPath(u, s, Strip(s), entities, strings, windowOpen);
  }

  /** An unrecognised command gets `invalid_input` from every status, and the user is unchanged. */
  lemma UnknownCommandIsInvalid(u: WebhookUpdate, s: string, entities: map<Value, UserRecord>, strings: Strings, windowOpen: string)
    requires u.IsValid() && u.text == Some(JStr(s)) && StartsWith(s, "/")
    requires Strip(s) !in ["/start", "/forcesubmit", "/remind"]
    ensures var (h, after) := ProcessSpec(u, entities, strings, windowOpen);
      && h == Returned(JObject(MakeReply(u, strings.invalidInput, JNull, true)))
      && after[u.chatId] == Loaded(entities, u.chatId)
  {
    ProcessCommandPath(u, s, Strip(s), entities, strings, windowOpen);
  }

  /** A text starting with "/" is handled by `parseCommand` on the stripped text and the loaded user. */
  lemma ProcessCommandPath(u: WebhookUpdate, s: string, command: string, entities: map<Value, UserRecord>, strings: Strings, windowOpen: string)
    requires u.IsValid() && u.text == Some(JStr(s)) && StartsWith(s, "/") && Strip(s) == command
    ensures var (reply, r') := CommandSpec(u, command, Loaded(entities, u.chatId), strings, windowOpen);
      ProcessSpec(u, entities, strings, windowOpen) == (Returned(reply), entities[u.chatId := r'])
  {
  }

  /** A command's outcome depends on the update only through its chat and message ids. */
  lemma CommandSpecUsesIdsOnly(u: WebhookUpdate, v: WebhookUpdate, command: string, r: UserRecord, strings: Strings, windowOpen: string)
    requires u.IsValid() && v.IsValid() && u.chatId == v.chatId && u.messageId == v.messageId
    ensures CommandSpec(u, command, r, strings, windowOpen) == CommandSpec(v, command, r, strings, windowOpen)
  {
  }

  /** Trailing whitespace after a command changes nothing: "/start  " is handled as "/start". */
  lemma CommandTrailingWhitespaceIgnored(u: WebhookUpdate, s: string, w: string, entities: map<Value, UserRecord>, strings: Strings, windowOpen: string)
    requires u.IsValid() && u.text == Some(JStr(s)) && StartsWith(s, "/")
    requires forall i :: 0 <= i < |w| ==> IsPyWhitespace(w[i])
    ensures ProcessSpec(u.(text := Some(JStr(s + w))), entities, strings, windowOpen)
         == ProcessSpec(u, entities, strings, windowOpen)
  {
    var v := u.(text := Some(JStr(s + w)));
    StripIgnoresTrailingWhitespace(s, w, "/");
    var command, r := Strip(s), Loaded(entities, u.chatId);
    ProcessCommandPath(u, s, command, entities, strings, windowOpen);
    ProcessCommandPath(v, s + w, command, entities, strings, windowOpen);
    CommandSpecUsesIdsOnly(u, v, command, r, strings, windowOpen);
  }

  /** Text that does not start with "/" goes to the state handler, even " /start" with a leading space. */
  lemma LeadingSpaceIsNotACommand(u: WebhookUpdate, entities: map<Value, UserRecord>, strings: Strings, windowOpen: string)
    requires u.IsValid() && u.text == Some(JStr(" /start"))
    ensures ProcessSpec(u, entities, strings, windowOpen)
         == (Returned(JStr(TODO)), entities[u.chatId := Loaded(entities, u.chatId)])
  {
    assert " /start"[..1] == " ";
  }

  /** The handler for one update; `user` is the entity it loaded, as `self.user`. */
  class UpdateHandler {
    const update: WebhookUpdate
    var user: User?

    constructor (update: WebhookUpdate)
      ensures this.update == update && user == null
    {
      this.update := update;
      user := null;
    }

    /** `process()`. */
    method Process(store: Datastore, strings: Strings, windowOpen: string) returns (h: Handled)
      requires update.IsValid()
      modifies this, store
      ensures (h, store.entities) == ProcessSpec(update, old(store.entities), strings, windowOpen)
    {
      if update.text.None? {
        return Returned(JObject(MakeReply(update, strings.noTextError, JNull, true)));
      }
      ghost var before := store.entities;
      var u := store.GetOrInsert(update.chatId);
      user := u;
      ghost var r := Loaded(before, update.chatId);
      assert u.Record() == r;
      var t := update.text.value;
      if !t.JStr? {
        // `startswith` on a value that is not a string
        h := Raised;
      } else if StartsWith(t.s, "/") {
        var command := Strip(t.s);
        var reply := ParseCommand(command, store, strings, windowOpen);
        h := Returned(reply);
        ProcessCommandPath(update, t.s, command, before, strings, windowOpen);
        PutTwice(before, update.chatId, r, u.Record());
      } else {
        // handleByState
        h := Returned(JStr(TODO));
      }
    }

    /** `parseCommand(command)` on the loaded user. */
    method ParseCommand(command: string, store: Datastore, strings: Strings, windowOpen: string) returns (reply: Value)
      requires update.IsValid() && user != null && user.key == update.chatId
      requires user.key in store.entities && store.entities[user.key] == user.Record()
      modifies user, store
      ensures (reply, user.Record()) == CommandSpec(update, command, old(user.Record()), strings, windowOpen)
      ensures store.entities == old(store.entities)[user.key := user.Record()]
    {
      if command == "/start" {
        user.Reset();
        store.Put(user);
        return JObject(MakeReply(update, strings.saf100, JNull, false));
      } else if user.CanIssueCommand() {
        if command == "/forcesubmit" {
          user.status := TEMP_REPORT;
          store.Put(user);
          return JObject(MakeReply(update, windowOpen, TemperatureKeyboard(), true));
        } else if command == "/remind" {
          return JStr(TODO);
        }
      }
      reply := JObject(MakeReply(update, strings.invalidInput, JNull, true));
    }
  }
}
