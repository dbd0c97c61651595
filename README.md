# thermobot core, modelled in Dafny

thermobot is a Telegram bot served as a Flask webhook. It helps members of a
group record their temperature on the temptaking site. This project models
its core:

- **The webhook route.** It picks the message out of an incoming update,
  separates "no message component" from an invalid update, runs the update
  handler, sends the handler's reply once, and answers the HTTP request
  (`App`).
- **The update wrapper.** It reads the fields of a Telegram message, decides
  validity, and builds reply payloads (`WebhookUpdates`).
- **The update handler.** It loads or creates the user entity, then decides
  `/start`, `/forcesubmit`, `/remind` and unknown commands from the trimmed
  text and the user's status (`UpdateHandling`).
- **The user entity.** It has conversation states, field defaults, `reset`
  and `canIssueCommand` (`Users`), in a keyed store (`Store`).
- **The temperature keyboard** (`TelegramMarkup`).
- **The local-time fields.** These are the UTC+8 hour, AM/PM, and the
  clock-face emoji chosen by `round` (`DateTimeFmt`).
- **The scheduled reminder fan-out** (`Reminders`) and **the broadcast
  fan-out** (`Broadcasts`). They share the outcome counting in `Delivery`.
- **The temptaking group-URL wrapper** (`Temptaking`).

The Python built-ins the code relies on are written out in `PyText`: `str()`
of an integer, `str.strip`, `startswith`, the substring `in`, `find`, and the
regular expression `.*`. JSON values are in `Json`.

Where the code changes objects in place, the model uses classes whose
methods are proved against pure specification functions:

- `User.Reset` is proved against `ResetRecord`;
- `UpdateHandler.Process` against `ProcessSpec`;
- `WebhookRoute` against `Route`;
- `SendReminders` against `ReminderSweep` and `Outcomes`;
- `Broadcast` against `BroadcastOutcomes`.

The properties are then proved as lemmas about those functions. The two
fan-outs work through the target set one user at a time, in an unspecified
order. They send to each user exactly once and count each outcome.

The temperature keyboard is built from `range(350, 375, 2)`: 13 rows, from
`["35.0", "35.1"]` to `["37.4", "37.5"]` (`TemperatureListEnds`).

The reminder sweep sends with `User.TEMP_NONE` read as "none". The code
refers to an attribute `User` does not define; see "## Findings".

## Model

| member | source | states |
|---|---|---|
| Users.CommandCapableCharacterised | src/model/user.py:76-86 | A status can issue commands iff it is one of the four configured states (TEMP_DEFAULT, TEMP_REPORT, REMIND_SET_AM, REMIND_SET_PM) or "offline," followed by one of them |
| Users.EightCommandStates | src/model/user.py:77-86 | The accepted list holds eight statuses, all different |
| Users.NewRecord | src/model/user.py:37-60 | A new entity has status INIT_DEFAULT ("0"), both reminder hours -1, not blocked, and no name, temp, group or pin |
| Users.ResetRecord | src/model/user.py:62-73 | After reset: status INIT_START, every group, member and pin field None, temp "init", both hours -1, not blocked, and firstName kept |
| Users.InitStatesCannotIssueCommands | src/model/user.py:8-13 | No initialisation state can issue commands, so neither a new user nor a user just reset can |
| Users.ResetIdempotent | src/model/user.py:62-73 | Resetting twice is the same as resetting once |
| Users.ResetKeepsOnlyFirstName | src/model/user.py:62-73 | Two entities reset to the same fields iff they had the same firstName: no other old value survives |
| Users.User.constructor | src/model/user.py:37-60 | A new entity object holds the property defaults |
| Users.User.Load | src/model/user.py:37-60 | An entity loaded from the store holds exactly the stored fields |
| Users.User.CanIssueCommand | src/model/user.py:76-86 | True iff the status is one of the four configured states, or "offline," followed by one of them |
| Users.User.Reset | src/model/user.py:62-73 | The object's fields become those ResetRecord gives for its old fields |
| Store.Datastore.constructor | src/model/user.py:37 | The store starts with the given entities |
| Store.Datastore.GetOrInsert | src/model/updateHandler.py:55 | Gives the stored entity for the key, or stores and gives a new one with the defaults; no other key changes |
| Store.Datastore.Get | src/model/reminderHandler.py:62 | Gives a fresh object holding the stored fields for the key |
| Store.Datastore.Put | src/model/updateHandler.py:71 | Stores the entity's fields under its key and changes nothing else |
| WebhookUpdates.NewWebhookUpdate | src/model/webhookUpdate.py:9-22 | Valid iff the message is an object with `message_id`, `date`, `from` and a `chat` object with `id`; a valid update carries exactly those fields, and `text` is None when the key is absent or null |
| WebhookUpdates.TextIsOptional | src/model/webhookUpdate.py:15 | Removing `text` from a message does not change its validity, and the update then has no text |
| WebhookUpdates.WebhookUpdate.IsValid | src/model/webhookUpdate.py:24-25 | `isValid()`: true exactly for an update built from a message with every required field; its meaning is stated by NewWebhookUpdate |
| WebhookUpdates.MakeReply | src/model/webhookUpdate.py:29-40 | `makeReply(text, markup, reply)`: the reply payload; its keys and values are stated by MakeReplyPayload |
| WebhookUpdates.MakeReplyPayload | src/model/webhookUpdate.py:29-40 | The payload keys are chat_id, text and parse_mode, plus reply_markup exactly when the markup is truthy, plus reply_to_message_id exactly when `reply` is set. chat_id is `str(chatId)`, the text is kept as given, parse_mode is "HTML", and the message id is `str(messageId)` |
| TelegramMarkup.TenthsRoundTrip | src/model/telegramMarkup.py:4 | Each label `str(x / 10)` reads back as x tenths |
| TelegramMarkup.TemperatureListEnds | src/model/telegramMarkup.py:4 | 13 rows, from ["35.0", "35.1"] to ["37.4", "37.5"] |
| TelegramMarkup.FlattenPairs | src/model/telegramMarkup.py:4 | Rows of two, read row by row, put button k at row k / 2, column k % 2 |
| TelegramMarkup.RangeLabelAt | src/model/telegramMarkup.py:4 | In the rows built from `range(start, stop, 2)`, button k is the label of start + k tenths |
| TelegramMarkup.RangeLabelsConsecutive | src/model/telegramMarkup.py:4 | Read row by row, the labels of `range(start, stop, 2)` are consecutive tenths from start, two per row |
| TelegramMarkup.TemperatureLabelsConsecutive | src/model/telegramMarkup.py:4 | The 26 labels are 35.0, 35.1, … 37.5, each exactly once and in order |
| TelegramMarkup.TemperatureKeyboardShape | src/model/telegramMarkup.py:5 | The keyboard object has exactly the keys keyboard and one_time_keyboard. one_time_keyboard is true, keyboard is the temperature list, and the object is truthy |
| DateTimeFmt.Meridies | src/util/fmtDateTime.py:51 | "AM" iff the local hour is before 12, otherwise "PM" |
| DateTimeFmt.RoundHalfEven | src/util/fmtDateTime.py:48 | Python's `round`: the result is within half a unit of n / d, and a tie goes to the even neighbour |
| DateTimeFmt.ClockIndex | src/util/fmtDateTime.py:48 | The index is in 0..24 and within a quarter hour of the time since twelve o'clock, counted in half hours |
| DateTimeFmt.ClockIndexByMinute | src/util/fmtDateTime.py:48 | The index is 2·hour mod 24, plus 0 up to minute 15, 1 for minutes 16–44, and 2 from minute 45 |
| DateTimeFmt.ClockIndexHalfDayPeriodic | src/util/fmtDateTime.py:48 | An afternoon hour gets the same clock face as the morning hour twelve earlier |
| DateTimeFmt.ClocksWrapAround | src/util/fmtDateTime.py:4-30 | 25 faces, where face 24 is face 0 again and the first 24 faces are all different, so every index is in range |
| DateTimeFmt.Now | src/util/fmtDateTime.py:43-58 | Local hour is (UTC hour + 8) mod 24 and the minute is kept; meridies "AM" iff the local hour is before noon; the emoji is CLOCKS at the clock index |
| UpdateHandling.FmtNowMeridies | src/model/updateHandler.py:27-37 | `getFmtNow` meridies is "AM" iff the UTC+8 hour is before 12 |
| UpdateHandling.NoTextTouchesNoUser | src/model/updateHandler.py:47-50 | An update without text gets the no_text_error reply, threaded as a reply; no entity is read, created or changed |
| UpdateHandling.OnlyOwnEntityChanges | src/model/updateHandler.py:44-64 | Only the entity of the update's own chat can change. An update with text leaves one stored for that chat, and an update without text adds none |
| UpdateHandling.StartResetsFromAnyStatus | src/model/updateHandler.py:68-73 | `/start` after trimming, from any status: reply SAF100 not threaded as a reply, and the stored user is the reset one (status INIT_START) |
| UpdateHandling.ForceSubmitFromCommandState | src/model/updateHandler.py:76-89 | `/forcesubmit` from a command-capable status: status becomes TEMP_REPORT and nothing else changes. The reply has exactly the five keys, the window_open text, the temperature keyboard, and is a reply to the message |
| UpdateHandling.CommandsNeedCommandState | src/model/updateHandler.py:75-97 | Any command but `/start` from a status that cannot issue commands gets invalid_input, and the user is unchanged |
| UpdateHandling.UnknownCommandIsInvalid | src/model/updateHandler.py:66-97 | A command other than /start, /forcesubmit and /remind gets invalid_input from every status, and the user is unchanged |
| UpdateHandling.ProcessCommandPath | src/model/updateHandler.py:55-60 | A text starting with "/" is decided by parseCommand on the stripped text and the loaded user, whose result is stored |
| UpdateHandling.CommandSpecUsesIdsOnly | src/model/updateHandler.py:66-97 | The outcome of a command depends on the update only through its chat id and message id |
| UpdateHandling.CommandTrailingWhitespaceIgnored | src/model/updateHandler.py:57-60 | Appending whitespace to a command changes neither the reply nor the stored entities |
| UpdateHandling.LeadingSpaceIsNotACommand | src/model/updateHandler.py:57-64 | " /start" goes to the state handler ("TODO"), not to parseCommand; the user is only loaded or created |
| UpdateHandling.UpdateHandler.constructor | src/model/updateHandler.py:41-42 | The handler holds the update and no user yet |
| UpdateHandling.UpdateHandler.Process | src/model/updateHandler.py:44-64 | The value returned (or the exception raised for non-string text) and the new store are those of ProcessSpec |
| UpdateHandling.UpdateHandler.ParseCommand | src/model/updateHandler.py:66-97 | The reply and the user's new fields are those of CommandSpec, and the store holds the user's new fields |
| App.MakeResponse | src/app.py:45-52 | In debug mode the object itself (a string as text, anything else as JSON), otherwise "OK" |
| App.MakeResponseShowsObjectOnlyInDebug | src/app.py:45-52 | In production every object gets "OK". In debug mode two objects get the same response iff they are equal. It is never a server error |
| App.ExtractMessage | src/app.py:70-76 | A message is found iff `message` or `edited_message` is present |
| App.MessagePreferredOverEdited | src/app.py:70-73 | `message` wins over `edited_message` |
| App.Classify | src/app.py:70-83 | No message component, missing update_id, invalid update, or an update to handle: each exactly under its condition, and a handled update is valid and built from the body |
| App.NoMessageComponent | src/app.py:74-76 | Without a message component the response is the no-message text (in debug) or "OK"; nothing is sent or stored |
| App.InvalidUpdateIgnoresDebug | src/app.py:80-83 | An invalid update gets "Invalid update object" in debug and production alike; nothing is sent or stored |
| App.ValidUpdateSentOnce | src/app.py:85-90 | A valid update is processed once: its entity is stored and its reply is sent exactly once. The reply is the debug response, unless the send raises, in which case the request fails with the entity already stored. If the handler raises, nothing is sent and the request fails |
| App.AtMostOneSend | src/app.py:61-90 | At most one payload is sent per update, and only for a valid update |
| App.ProductionAnswers | src/app.py:61-90 | In production the answer is "OK", "Invalid update object" (exactly for an invalid update) or a server error |
| App.WebhookRoute | src/app.py:61-90 | The response, the payloads sent and the new store are those of Route, for the given result of the send |
| Delivery.OutcomeCountsPartition | src/model/reminderHandler.py:101-108 | Every user falls under exactly one outcome, so success + failed + blocked is the number of users |
| Delivery.WithOutcomeAdd | src/model/reminderHandler.py:101-108 | Recording one more user's outcome adds that user to the set for its outcome and to no other set |
| Reminders.Targets | src/model/reminderHandler.py:32-40 | The targets are exactly the stored users who are not blocked, have temp "none", and whose AM or PM hour (by meridies) is the hour |
| Reminders.TargetedAtLocalHour | src/model/reminderHandler.py:26-40 | At a UTC instant a user is targeted iff the reminder hour for the local half of the day equals the UTC+8 hour |
| Reminders.FreshUsersNotTargeted | src/model/reminderHandler.py:32-40 | A new user and a user just reset are never targeted |
| Reminders.ReminderPayload | src/model/reminderHandler.py:55-60 | The payload of one reminder; its meaning is stated by ReminderPayloadIsKeyboardMessage |
| Reminders.ReminderPayloadIsKeyboardMessage | src/model/reminderHandler.py:55-60 | A reminder is the reply payload for that chat with the window_open text and the temperature keyboard, not threaded as a reply |
| Reminders.ReminderOutcome | src/model/reminderHandler.py:64-93 | The classification of one send; stated by ReminderOutcomeCases and BlockedOnlyByDescription |
| Reminders.ReminderOutcomeCases | src/model/reminderHandler.py:64-93 | SUCCESS iff the response has a truthy `ok`; an exception is FAILED |
| Reminders.ReminderUpdate | src/model/reminderHandler.py:69-86 | The user's fields after each outcome, with `User.TEMP_NONE` read as "none"; stated by DeliveredReminderAwaitsReport, BlockedUserIsResetAndFlagged and FailedReminderChangesNothing |
| Reminders.SendReminder | src/model/reminderHandler.py:64-93 | The corrected send, with `User.TEMP_NONE` read as "none": the outcome and the user's new fields |
| Reminders.DeliveredReminderAwaitsReport | src/model/reminderHandler.py:69-74 | In the corrected send (`User.TEMP_NONE` read as "none"), a truthy `ok` gives SUCCESS, with temp "none" and status TEMP_REPORT, every other field kept, and the user can then issue commands |
| Reminders.BlockedUserIsResetAndFlagged | src/model/reminderHandler.py:77-86 | A BLOCKED outcome resets the user and sets blocked: status INIT_START, firstName kept, and never targeted again |
| Reminders.BlockedOnlyByDescription | src/model/reminderHandler.py:76-88 | BLOCKED iff `ok` is present and falsy and the description is exactly the bot-was-blocked text |
| Reminders.FailedReminderChangesNothing | src/model/reminderHandler.py:87-93 | A FAILED outcome, from an exception, a missing key or another description, leaves the user as it was |
| Reminders.SendReminderAsWritten | src/model/reminderHandler.py:64-93 | As written: since `User.TEMP_NONE` is not defined, a truthy `ok` counts as FAILED and leaves the user unchanged |
| Reminders.AsWrittenNeverSucceeds | src/model/reminderHandler.py:69-74 | As written, no reminder is ever counted as SUCCESS, a delivered one included |
| Reminders.TempNoneCounterexample | src/model/reminderHandler.py:70 | For the response `{"ok": true}` the code as written gives (FAILED, unchanged) and the corrected code gives (SUCCESS, TEMP_REPORT) |
| Reminders.SweepRecordsBlockedUsers | src/model/reminderHandler.py:77-86 | After the sweep, the blocked users are those blocked before plus those whose reminder came back BLOCKED; non-targets are untouched and no key is added |
| Reminders.SweepStart | src/model/reminderHandler.py:101 | Before any send nothing has changed and no outcome is recorded |
| Reminders.SweepStep | src/model/reminderHandler.py:97-108 | Sending to one more target changes only that target's entity and adds one to the count of its outcome |
| Reminders.SendReminderTo | src/model/reminderHandler.py:50-93 | The outcome, and the target's stored fields afterwards, are those of the corrected SendReminder (`User.TEMP_NONE` read as "none"); no other entity changes |
| Reminders.SendReminders | src/model/reminderHandler.py:95-108 | With the corrected send: the chats sent to are exactly the keys, each listed once. The three counts are the numbers of keys with each outcome, and they sum to the number of keys. The store becomes the sweep of the keys |
| Reminders.Remind | src/model/reminderHandler.py:24-108 | With the corrected send: the chats sent to are exactly the targets at the current local hour, each listed once. The counts are those of the outcomes and sum to the number of targets, and the store is the sweep over the targets |
| Broadcasts.BroadcastTargets | src/model/broadcastHandler.py:17-20 | The targets are exactly the stored users who are not blocked |
| Broadcasts.BroadcastPayload | src/model/broadcastHandler.py:29-33 | The payload of one broadcast; its meaning is stated by BroadcastPayloadIsPlainMessage |
| Broadcasts.BroadcastPayloadIsPlainMessage | src/model/broadcastHandler.py:29-33 | A broadcast payload is the reply payload for that chat without markup and not threaded, with exactly three keys |
| Broadcasts.BroadcastOutcome | src/model/broadcastHandler.py:35-50 | The classification of one send; stated by BroadcastOutcomeCases |
| Broadcasts.BroadcastOutcomeCases | src/model/broadcastHandler.py:35-50 | BLOCKED iff `ok` is present and falsy and the error code is 403; SUCCESS iff `ok` is truthy; an exception is FAILED |
| Broadcasts.OutcomesAgreeOnSuccess | src/model/broadcastHandler.py:38-39 | The broadcast and the reminder agree on what counts as SUCCESS |
| Broadcasts.BlockedByCodeNotDescription | src/model/broadcastHandler.py:41-45 | A 403 with another description is BLOCKED for a broadcast and FAILED for a reminder |
| Broadcasts.BroadcastStep | src/model/broadcastHandler.py:56-70 | One more send adds one to the count of its outcome, and adds the id to the blocked set exactly when the outcome is BLOCKED |
| Broadcasts.Broadcast | src/model/broadcastHandler.py:14-70 | The chats sent to are exactly the non-blocked users, each listed once. The counts are the numbers of each outcome and sum to the number of targets. blockedUsers lists exactly the BLOCKED ids, each once. The store is not changed |
| Temptaking.NormaliseGroupUrl | src/temptakingWrapper.py:11-20 | A group URL is found iff the text contains "temptaking.ado.sg/group/" |
| Temptaking.NormalisedShape | src/temptakingWrapper.py:17-20 | An accepted URL is "https://temptaking.ado.sg/group/" followed by the rest of the matched line, and holds no newline |
| Temptaking.NormaliseAfterPrefix | src/temptakingWrapper.py:17-20 | Any prefix without the letter "e" before the group literal (a scheme such as "http://" included) is replaced by "https://" |
| Temptaking.NormaliseIdempotent | src/util/temptakingWrapper.py:17-20 | Normalising an accepted URL again gives it back unchanged |
| Temptaking.SchemesNormaliseAlike | src/tests/test_temptakingWrapper.py:9-20 | The https, http and scheme-less test URLs all normalise to "https://temptaking.ado.sg/group/test" |
| Temptaking.NoTrailingSlashRejected | src/tests/test_temptakingWrapper.py:22 | "temptaking.ado.sg/group" without the slash is rejected |
| Temptaking.TemptakingWrapper.constructor | src/temptakingWrapper.py:13-23 | Valid iff the URL matches, with the normalised URL stored; the group fields are unset |
| Temptaking.TemptakingWrapper.IsValid | src/temptakingWrapper.py:25-26 | `isValid()`: whether the URL matched; stated by the constructor's contract |
| Temptaking.TemptakingWrapper.Load | src/temptakingWrapper.py:28-60 | Gives true iff the wrapper is valid, the page was fetched, and it has no "Invalid code". When true, the group name, code and members are taken from the page. When false, nothing changes |
| Json.Truthy | src/model/reminderHandler.py:69 | Python truthiness of a decoded value; stated by FalsyValues |
| Json.FalsyValues | src/model/reminderHandler.py:69 | The falsy values are exactly None, False, 0, "", [] and {} |
| Json.PyStr | src/model/webhookUpdate.py:31 | Python's `str()` of a decoded scalar; for integers its meaning is stated by PyText.DecimalRoundTrip and PyText.DecimalInjective |
| PyText.Strip | src/model/updateHandler.py:59 | `str.strip()`: the result has no whitespace at either end, and for text starting with a non-space it is the end-trimmed text |
| PyText.TrimEndIgnoresTrailingWhitespace | src/model/updateHandler.py:59 | Trailing whitespace drops out when the end is trimmed |
| PyText.StripIgnoresTrailingWhitespace | src/model/updateHandler.py:57-59 | After a non-space prefix, `strip` drops appended whitespace and the prefix stays |
| PyText.Find | src/temptakingWrapper.py:42 | Found iff the text contains the literal, at its first occurrence |
| PyText.LineEnd | src/temptakingWrapper.py:11 | The end of a `.*` match: the next newline or the end of the text, with no newline before it |
| PyText.DecimalRoundTrip | src/model/webhookUpdate.py:31 | `str()` of a natural number reads back as that number |
| PyText.DecimalInjective | src/model/webhookUpdate.py:31 | Different ids have different `str()` renderings |

## Left out

- Concurrency. `pool.imap_unordered` runs the sends concurrently, in any order. The model sends one user at a time in an order it leaves open, so every completion order is covered, but interleaved datastore access is not.
- Timing, rate computing and the log strings. `remind` and `broadcast` return only a log line, so the model returns the three counts (and the blocked ids) that the line reports.
- Time and date text. The current instant is the parameter `utcHour:utcMinute`. The strftime date, time and weekday fields, and the `window_open` text formatted from them, are a `text` or `windowOpen` parameter.
- The string table (stringConstants.py reads a JSON file): the entries used are the `Strings` parameter.
- The state machine `handleByState` and the `/remind` command. Both are "TODO" stubs in the code and are modelled as such.
- routes:
  - the `remind` route is an empty stub (`pass`);
  - the `setWebhook` and `pingBot` routes only pass through the Telegram API wrappers.
- Malformed and non-object request bodies. `request.get_json()` failing, or a body that is not a JSON object, is not modelled: the route takes a decoded object.
- The Telegram API. Each send in a fan-out is one call to `gateway`, a function of the payload. In the webhook route the one `telegramApi.sendMessage` call is logged in `sent`, and `send` gives its result: an answer, which the route ignores, or an exception (a failed post, or an answer that is not JSON), which fails the request.
- Temptaking.TemptakingWrapper.Load: the scraping of the script tag (`find("loadContents")`, `rfind("}")`, `json.loads`) and the key lookups on its result are not modelled. A page that does not parse raises in the code; here the fetched page already carries its group fields. The `start == -1` test after the fixed offset of 14 can never be true, so it is absent.
- ndb keys are the chat-id values themselves, and a `put` stores a copy of the entity's fields. Store.Datastore.GetOrInsert: accepts any key value. ndb's `get_or_insert` takes a string key name, so an integer chat id may raise there; the library's checks are not modelled.
- Reminders.DeliveredReminderAwaitsReport: states the corrected send, with `User.TEMP_NONE` read as "none"; the code as written is Reminders.SendReminderAsWritten.
- Reminders.SendReminderTo: performs the corrected send, with `User.TEMP_NONE` read as "none".
- Reminders.SendReminders: sweeps with the corrected send, with `User.TEMP_NONE` read as "none".
- Reminders.Remind: sweeps with the corrected send, with `User.TEMP_NONE` read as "none".
- JSON numbers are integers only. `str()` of a list or dict (which the code never takes) is not rendered.
- The legacy fields `firstName`, `groupMembers`, `memberName`, `memberId` and `pin` are kept as opaque optional strings.
- UpdateHandling.StartResetsFromAnyStatus: states the reply as `MakeReply(u, saf100, JNull, false)`. Its lack of a `reply_to_message_id` key follows from MakeReplyPayload and is not restated there.

## Findings

| source | as written | input that shows it | evidently intended | confidence | as-written member | corrected member |
|---|---|---|---|---|---|---|
| src/model/reminderHandler.py:70 | `user.temp = User.TEMP_NONE`, but `User` defines no `TEMP_NONE`. After a truthy `ok` the lookup raises AttributeError inside the `try`, so the send counts as FAILED and the user stays as it was | a send answered `{"ok": true}` | store temp "none" (the value the reminder query selects), set TEMP_REPORT, count SUCCESS | not executed | Reminders.SendReminderAsWritten, Reminders.TempNoneCounterexample | Reminders.SendReminder |
