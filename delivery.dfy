/**
 * What the reminder and broadcast fan-outs share: the outcome of one
 * `sendMessage` call to one user, and the counting of outcomes over all
 * targeted users.
 */
module Delivery {
  import opened Json

  /** The per-user result of a send: SUCCESS (0), FAILED (1) or BLOCKED (-1). */
  datatype Outcome = Success | Failed | Blocked

  /**
   * What one `telegramApi.sendMessage(payload)` call came to: the decoded
   * response, or an exception from the call itself.
   */
  datatype Sent = Answered(resp: Value) | Raised

  /** The Telegram API as seen by a fan-out: the result of sending each payload. */
  type Gateway = Object -> Sent

  /** The users whose send came to `o`. */
  function WithOutcome(outcomes: map<Value, Outcome>, o: Outcome): set<Value> {
    set k | k in outcomes && outcomes[k] == o
  }

  /** Recording one more user's outcome adds that user to exactly the set of its outcome. */
  lemma WithOutcomeAdd(outcomes: map<Value, Outcome>, k: Value, o: Outcome, o': Outcome)
    requires k !in outcomes
    ensures WithOutcome(outcomes[k := o], o') == WithOutcome(outcomes, o') + (if o == o' then {k} else {})
    ensures k !in WithOutcome(outcomes, o')
  {
  }

  /** The three counts are the numbers of users with each outcome. */
  predicate Counted(outcomes: map<Value, Outcome>, success: nat, failed: nat, blocked: nat) {
    && success == |WithOutcome(outcomes, Success)|
    && failed == |WithOutcome(outcomes, Failed)|
    && blocked == |WithOutcome(outcomes, Blocked)|
  }

  /** Recording one more user's outcome adds one to the count of that outcome and leaves the others. */
  lemma CountOne(outcomes: map<Value, Outcome>, k: Value, o: Outcome, success: nat, failed: nat, blocked: nat)
    requires k !in outcomes && Counted(outcomes, success, failed, blocked)
    ensures Counted(outcomes[k := o], success + (if o == Success then 1 else 0),
                    failed + (if o == Failed then 1 else 0), blocked + (if o == Blocked then 1 else 0))
  {
    WithOutcomeAdd(outcomes, k, o, Success);
    WithOutcomeAdd(outcomes, k, o, Failed);
    WithOutcomeAdd(outcomes, k, o, Blocked);
  }

  /** Every user falls under exactly one outcome, so the three counts add up to the number of users. */
  lemma {:induction false} OutcomeCountsPartition(outcomes: map<Value, Outcome>)
    ensures |WithOutcome(outcomes, Success)| + |WithOutcome(outcomes, Failed)| + |WithOutcome(outcomes, Blocked)|
         == |outcomes.Keys|
    decreases |outcomes.Keys|
  {
    if outcomes != map[] {
      var k :| k in outcomes;
      var rest := outcomes - {k};
      assert outcomes == rest[k := outcomes[k]];
      assert outcomes.Keys == rest.Keys + {k};
      OutcomeCountsPartition(rest);
      WithOutcomeAdd(rest, k, outcomes[k], Success);
      WithOutcomeAdd(rest, k, outcomes[k], Failed);
      WithOutcomeAdd(rest, k, outcomes[k], Blocked);
    } else {
      assert WithOutcome(outcomes, Success) == {};
      assert WithOutcome(outcomes, Failed) == {};
      assert WithOutcome(outcomes, Blocked) == {};
    }
  }

  /** Moving one key from the pending set to the processed set keeps the two a partition. */
  lemma MoveOne(done: set<Value>, remaining: set<Value>, all: set<Value>, k: Value)
    requires done + remaining == all && done !! remaining && k in remaining
    ensures (done + {k}) + (remaining - {k}) == all && (done + {k}) !! (remaining - {k})
    ensures |remaining - {k}| < |remaining|
  {
  }

  /** The values a list holds. */
  function Elements(xs: seq<Value>): set<Value> {
    set x | x in xs
  }

  /** No value is listed twice. */
  predicate Distinct(xs: seq<Value>) {
    forall i, j :: 0 <= i < j < |xs| ==> xs[i] != xs[j]
  }

  /** Appending a value not yet listed keeps the list free of repeats and adds the value to its elements. */
  lemma AppendFresh(xs: seq<Value>, x: Value)
    requires Distinct(xs) && x !in Elements(xs)
    ensures Distinct(xs + [x]) && Elements(xs + [x]) == Elements(xs) + {x}
  {
    assert forall i :: 0 <= i < |xs| ==> (xs + [x])[i] == xs[i];
  }
}
