/**
 * The per-chat user entity: its conversation states (kept as the legacy
 * string values), its stored fields with their defaults, `reset` and
 * `canIssueCommand`.
 */
module Users {
  import opened Optional
  import opened PyText
  import opened Json

  // Initialisation states
  const INIT_DEFAULT := "0"
  const INIT_START := "1"
  const INIT_CONFIRM_URL := "2"
  const INIT_GET_NAME := "3"
  // Default state after configuration, and awaiting a temperature
  const TEMP_DEFAULT := "endgame 1"
  const TEMP_REPORT := "endgame 2"
  // Configuring reminders
  const REMIND_SET_AM := "remind wizard 1"
  const REMIND_SET_PM := "remind wizard 2"

  /**
   * The `temp` value meaning "no temperature recorded in this window"; the
   * reminder query selects it. The source refers to it as `User.TEMP_NONE`,
   * which the entity class does not define (see the reminder module).
   */
  const TEMP_NONE := "none"

  /** The states reached once set-up is complete. */
  const CONFIGURED_STATES: seq<string> := [TEMP_DEFAULT, TEMP_REPORT, REMIND_SET_AM, REMIND_SET_PM]

  const OFFLINE_PREFIX := "offline,"

  /** The statuses from which commands other than `/start` are accepted, as listed. */
  const COMMAND_STATES: seq<string> := [
    TEMP_DEFAULT,
    TEMP_REPORT,
    REMIND_SET_AM,
    REMIND_SET_PM,
    "offline,endgame 1",
    "offline,endgame 2",
    "offline,remind wizard 1",
    "offline,remind wizard 2"
  ]

  /** The stored fields of one user entity, as a value. */
  datatype UserRecord = UserRecord(
    firstName: Option<string>,
    status: string,
    groupId: Option<string>,
    groupName: Option<string>,
    groupMembers: Option<string>,
    memberName: Option<string>,
    memberId: Option<string>,
    pin: Option<string>,
    temp: Option<string>,
    remindAM: int,
    remindPM: int,
    blocked: bool)

  /** `canIssueCommand` on a status: membership in the fixed list. */
  predicate CommandCapable(status: string) {
    status in COMMAND_STATES
  }

  /** The command-capable statuses are exactly the configured states and their "offline," variants. */
  lemma CommandCapableCharacterised(status: string)
    ensures CommandCapable(status) <==>
      || status in CONFIGURED_STATES
      || (StartsWith(status, OFFLINE_PREFIX) && status[|OFFLINE_PREFIX|..] in CONFIGURED_STATES)
  {
    var n := |OFFLINE_PREFIX|;
    forall s | s in CONFIGURED_STATES ensures !StartsWith(s, OFFLINE_PREFIX) {
      assert s[0] != 'o';
    }
    assert COMMAND_STATES[..4] == CONFIGURED_STATES;
    assert COMMAND_STATES[4] == OFFLINE_PREFIX + CONFIGURED_STATES[0];
    assert COMMAND_STATES[5] == OFFLINE_PREFIX + CONFIGURED_STATES[1];
    assert COMMAND_STATES[6] == OFFLINE_PREFIX + CONFIGURED_STATES[2];
    assert COMMAND_STATES[7] == OFFLINE_PREFIX + CONFIGURED_STATES[3];
    forall i | 4 <= i < 8
      ensures StartsWith(COMMAND_STATES[i], OFFLINE_PREFIX)
      ensures COMMAND_STATES[i][n..] == CONFIGURED_STATES[i - 4]
    {
      assert COMMAND_STATES[i][..n] == OFFLINE_PREFIX;
    }
    if StartsWith(status, OFFLINE_PREFIX) && status[n..] in CONFIGURED_STATES {
      assert status == OFFLINE_PREFIX + status[n..];
      var i :| 0 <= i < 4 && CONFIGURED_STATES[i] == status[n..];
      assert status == COMMAND_STATES[i + 4];
    }
  }

  /** The list holds eight distinct statuses. */
  lemma EightCommandStates()
    ensures |COMMAND_STATES| == 8
    ensures forall i, j :: 0 <= i < j < |COMMAND_STATES| ==> COMMAND_STATES[i] != COMMAND_STATES[j]
  {
  }


  /** A freshly created entity: the property defaults. */
  function NewRecord(): (r: UserRecord)
    ensures r.status == INIT_DEFAULT
    ensures r.remindAM == -1 && r.remindPM == -1 && !r.blocked
    ensures r.firstName == None && r.temp == None && r.groupId == None && r.pin == None
  {
    UserRecord(None, INIT_DEFAULT, None, None, None, None, None, None, None, -1, -1, false)
  }

  /** `User.reset`: every field except `firstName` back to its start-of-onboarding value. */
  function ResetRecord(r: UserRecord): (r': UserRecord)
    ensures r'.status == INIT_START
    ensures r'.groupId == None && r'.groupName == None && r'.groupMembers == None
    ensures r'.memberName == None && r'.memberId == None && r'.pin == None
    ensures r'.temp == Some("init") && r'.remindAM == -1 && r'.remindPM == -1 && !r'.blocked
    ensures r'.firstName == r.firstName
  {
    r.(status := INIT_START, groupId := None, groupName := None, groupMembers := None,
       memberName := None, memberId := None, pin := None, temp := Some("init"),
       remindAM := -1, remindPM := -1, blocked := false)
  }

  /** None of the initialisation states can issue commands, so neither a new user nor a user just reset can. */
  lemma InitStatesCannotIssueCommands(r: UserRecord)
    ensures !CommandCapable(INIT_DEFAULT) && !CommandCapable(INIT_START)
    ensures !CommandCapable(INIT_CONFIRM_URL) && !CommandCapable(INIT_GET_NAME)
    ensures !CommandCapable(NewRecord().status) && !CommandCapable(ResetRecord(r).status)
  {
  }

  /** Resetting twice is resetting once. */
  lemma ResetIdempotent(r: UserRecord)
    ensures ResetRecord(ResetRecord(r)) == ResetRecord(r)
  {
  }

  /** `firstName` is the only field whose old value survives a reset. */
  lemma ResetKeepsOnlyFirstName(r1: UserRecord, r2: UserRecord)
    ensures ResetRecord(r1) == ResetRecord(r2) <==> r1.firstName == r2.firstName
  {
  }

  /** A user entity as loaded from the datastore; `key` is the chat id it is stored under. */
  class User {
    const key: Value
    var firstName: Option<string>
    var status: string
    var groupId: Option<string>
    var groupName: Option<string>
    var groupMembers: Option<string>
    var memberName: Option<string>
    var memberId: Option<string>
    var pin: Option<string>
    var temp: Option<string>
    var remindAM: int
    var remindPM: int
    var blocked: bool

    /** The entity's fields as a value. */
    function Record(): UserRecord
      reads this
    {
      UserRecord(firstName, status, groupId, groupName, groupMembers, memberName, memberId,
                 pin, temp, remindAM, remindPM, blocked)
    }

    /** A new entity with the property defaults. */
    constructor (key: Value)
      ensures this.key == key && Record() == NewRecord()
    {
      this.key := key;
      firstName, status := None, INIT_DEFAULT;
      groupId, groupName, groupMembers := None, None, None;
      memberName, memberId, pin, temp := None, None, None, None;
      remindAM, remindPM, blocked := -1, -1, false;
    }

    /** An entity materialised from its stored fields. */
    constructor Load(key: Value, r: UserRecord)
      ensures this.key == key && Record() == r
    {
      this.key := key;
      firstName, status := r.firstName, r.status;
      groupId, groupName, groupMembers := r.groupId, r.groupName, r.groupMembers;
      memberName, memberId, pin, temp := r.memberName, r.memberId, r.pin, r.temp;
      remindAM, remindPM, blocked := r.remindAM, r.remindPM, r.blocked;
    }

    /**
     * `canIssueCommand`: the current status is one of the eight in the
     * list, that is, a configured state or its "offline," variant.
     */
    predicate CanIssueCommand()
      reads this
      ensures CanIssueCommand() <==>
        || status in CONFIGURED_STATES
        || (StartsWith(status, OFFLINE_PREFIX) && status[|OFFLINE_PREFIX|..] in CONFIGURED_STATES)
    {
      CommandCapableCharacterised(status);
      CommandCapable(status)
    }

    /** `reset`: assigns every field but `firstName`. */
    method Reset()
      modifies this
      ensures Record() == ResetRecord(old(Record()))
    {
      ghost var r := Record();
      status := INIT_START;
      groupId, groupName, groupMembers := None, None, None;
      memberName, memberId, pin, temp := None, None, None, Some("init");
      remindAM, remindPM, blocked := -1, -1, false;
      assert Record() == UserRecord(r.firstName, INIT_START, None, None, None, None, None, None, Some("init"), -1, -1, false);
    }
  }
}
