/**
 * The reply keyboard the bot shows when asking for a temperature: thirteen
 * rows of two buttons, built from `range(350, 375, 2)` in tenths of a degree.
 */
module TelegramMarkup {
  import opened Optional
  import opened PyText
  import opened Json

  /**
   * Python's `str(x / 10)`: the float nearest `x` tenths prints as exactly
   * that decimal with one fractional digit (shortest round-trip repr, fixed
   * notation below 10^16).
   */
  function Tenths(x: nat): (s: string)
    ensures |s| >= 3 && s[|s| - 2] == '.'
  {
    NatToDecimal(x / 10) + "." + [DigitChar(x % 10)]
  }

  /** A label read back as a whole number of tenths; None unless it has the shape `digits.digit`. */
  function TenthsValue(s: string): Option<nat> {
    if |s| >= 3 && s[|s| - 2] == '.' && IsDigitChar(s[|s| - 1])
       && forall i :: 0 <= i < |s| - 2 ==> IsDigitChar(s[i])
    then Some(10 * DigitsValue(s[..|s| - 2]) + DigitValue(s[|s| - 1]))
    else None
  }

  /** Every label reads back as the number of tenths it was built from. */
  lemma TenthsRoundTrip(x: nat)
    ensures TenthsValue(Tenths(x)) == Some(x)
  {
    var s := Tenths(x);
    assert s[..|s| - 2] == NatToDecimal(x / 10);
    DecimalRoundTrip(x / 10);
  }

  /** `len(range(start, stop, 2))`. */
  function RangeLength(start: nat, stop: int): nat {
    if start >= stop then 0 else (stop - start + 1) / 2
  }

  /** The rows `[[str(x / 10), str((x + 1) / 10)] for x in range(start, stop, 2)]`. */
  function RangeRows(start: nat, stop: int): seq<seq<string>> {
    seq(RangeLength(start, stop), i requires 0 <= i => [Tenths(start + 2 * i), Tenths(start + 2 * i + 1)])
  }

  /** `TelegramMarkup._temperatureList`. */
  function TemperatureList(): seq<seq<string>> {
    RangeRows(350, 375)
  }

  lemma EndLabels()
    ensures Tenths(350) == "35.0" && Tenths(351) == "35.1"
    ensures Tenths(374) == "37.4" && Tenths(375) == "37.5"
  {
    assert NatToDecimal(35) == "35";
    assert NatToDecimal(37) == "37";
  }

  /** The keyboard runs from ["35.0", "35.1"] to ["37.4", "37.5"]. */
  lemma TemperatureListEnds()
    ensures |TemperatureList()| == 13
    ensures TemperatureList()[0] == ["35.0", "35.1"]
    ensures TemperatureList()[12] == ["37.4", "37.5"]
  {
    EndLabels();
  }

  /** The labels read row by row. */
  function Flatten(rows: seq<seq<string>>): seq<string> {
    if rows == [] then [] else rows[0] + Flatten(rows[1..])
  }

  lemma {:induction false} FlattenPairs(rows: seq<seq<string>>)
    requires forall i :: 0 <= i < |rows| ==> |rows[i]| == 2
    ensures |Flatten(rows)| == 2 * |rows|
    ensures forall k :: 0 <= k < 2 * |rows| ==> Flatten(rows)[k] == rows[k / 2][k % 2]
  {
    if rows != [] {
      FlattenPairs(rows[1..]);
      forall k | 2 <= k < 2 * |rows| ensures Flatten(rows)[k] == rows[k / 2][k % 2] {
        assert Flatten(rows)[k] == Flatten(rows[1..])[k - 2];
        assert (k - 2) / 2 == k / 2 - 1 && (k - 2) % 2 == k % 2;
      }
    }
  }

  /** Read row by row, the labels of `range(start, stop, 2)` are the consecutive tenths from `start`. */
  lemma RangeLabelsConsecutive(start: nat, stop: int)
    ensures |Flatten(RangeRows(start, stop))| == 2 * RangeLength(start, stop)
    ensures forall k :: 0 <= k < |Flatten(RangeRows(start, stop))| ==>
      TenthsValue(Flatten(RangeRows(start, stop))[k]) == Some(start + k)
  {
    var rows := RangeRows(start, stop);
    FlattenPairs(rows);
    forall k | 0 <= k < 2 * |rows| ensures TenthsValue(Flatten(rows)[k]) == Some(start + k) {
      RangeLabelAt(start, stop, k);
      TenthsRoundTrip(start + k);
    }
  }

  /** Button `k % 2` of row `k / 2` is the label of `start + k` tenths. */
  lemma RangeLabelAt(start: nat, stop: int, k: nat)
    requires k < 2 * RangeLength(start, stop)
    ensures RangeRows(start, stop)[k / 2][k % 2] == Tenths(start + k)
  {
    var j := k / 2;
    assert RangeRows(start, stop)[j] == [Tenths(start + 2 * j), Tenths(start + 2 * j + 1)];
    if k % 2 == 0 {
      assert k == 2 * j;
    } else {
      assert k == 2 * j + 1;
    }
  }

  /**
   * Read row by row, the 26 labels are consecutive tenths from 35.0 to 37.5:
   * strictly increasing, with no gap and no duplicate.
   */
  lemma TemperatureLabelsConsecutive()
    ensures |Flatten(TemperatureList())| == 26
    ensures forall k :: 0 <= k < 26 ==> TenthsValue(Flatten(TemperatureList())[k]) == Some(350 + k)
  {
    RangeLabelsConsecutive(350, 375);
  }

  /** The keyboard rows as JSON lists of strings. */
  function KeyboardRows(rows: seq<seq<string>>): seq<Value> {
    seq(|rows|, i requires 0 <= i < |rows| => JList(seq(|rows[i]|, j requires 0 <= j < |rows[i]| => JStr(rows[i][j]))))
  }

  /** `TelegramMarkup.TemperatureKeyboard`. */
  function TemperatureKeyboard(): Value {
    JObject(map["keyboard" := JList(KeyboardRows(TemperatureList())), "one_time_keyboard" := JBool(true)])
  }

  /** The keyboard is a one-time keyboard whose `keyboard` entry is the temperature list, row by row. */
  lemma TemperatureKeyboardShape()
    ensures var k := TemperatureKeyboard();
      && k.JObject? && k.fields.Keys == {"keyboard", "one_time_keyboard"}
      && k.fields["one_time_keyboard"] == JBool(true)
      && k.fields["keyboard"] == JList(KeyboardRows(TemperatureList()))
      && Truthy(k)
  {
    var k := TemperatureKeyboard();
    assert "keyboard" in k.fields;
  }
}
