/**
 * The time fields the bot derives from the current instant: local time is
 * UTC+8, the half-day ("AM"/"PM") and the clock-face emoji nearest to the
 * local time. The date, time and weekday strings are not modelled.
 */
module DateTimeFmt {

  type Hour = h: int | 0 <= h < 24
  type Minute = m: int | 0 <= m < 60

  /** The fixed offset of the bot's local time from UTC. */
  const UTC_OFFSET_HOURS := 8

  /** The local hour of a UTC hour. */
  function LocalHour(utcHour: Hour): Hour {
    (utcHour + UTC_OFFSET_HOURS) % 24
  }

  /** `"AM" if now.hour < 12 else "PM"`. */
  function Meridies(hour: Hour): (m: string)
    ensures m == "AM" || m == "PM"
    ensures m == "AM" <==> hour < 12
  {
    if hour < 12 then "AM" else "PM"
  }

  /** Python's `round(n / d)`: the nearest integer, ties to the even one. */
  function RoundHalfEven(n: int, d: int): (r: int)
    requires d > 0
    ensures 2 * (n - d * r) <= d && 2 * (d * r - n) <= d
    ensures 2 * (n - d * r) == d || 2 * (d * r - n) == d ==> r % 2 == 0
  {
    var q, rem := n / d, n % d;
    assert n == d * q + rem && 0 <= rem < d;
    assert d * (q + 1) == d * q + d;
    if 2 * rem < d then q
    else if 2 * rem > d then q + 1
    else if q % 2 == 0 then q
    else q + 1
  }

  /**
   * `round(2 * (hour + minute / 60) % 24)`, the index of the clock face:
   * the number of half hours since twelve o'clock, rounded to the nearest
   * half hour. Scaled by 30 the float expression is exact:
   * 2 * (h + m / 60) * 30 == 60 * h + m, and `% 24` becomes `% 720`.
   */
  function ClockIndex(hour: Hour, minute: Minute): (idx: int)
    ensures 0 <= idx <= 24
    ensures -15 <= 30 * idx - (60 * hour + minute) % 720 <= 15
  {
    RoundHalfEven((60 * hour + minute) % 720, 30)
  }

  /**
   * The index is twice the hour (mod 24), plus 0 up to minute 15, 1 from
   * minute 16 to 44 and 2 from minute 45: minutes 15 and 45 are the exact
   * halves, which round to the even neighbour.
   */
  lemma ClockIndexByMinute(hour: Hour, minute: Minute)
    ensures ClockIndex(hour, minute) ==
      (2 * hour) % 24 + (if minute <= 15 then 0 else if minute < 45 then 1 else 2)
  {
    var s := (60 * hour + minute) % 720;
    var h := hour % 12;
    assert s == 60 * h + minute;
    assert s / 30 == 2 * h + minute / 30;
    assert s % 30 == minute % 30;
    assert (2 * hour) % 24 == 2 * h;
  }

  /** The index depends on the hour only modulo 12. */
  lemma ClockIndexHalfDayPeriodic(hour: Hour, minute: Minute)
    requires hour < 12
    ensures ClockIndex(hour, minute) == ClockIndex(hour + 12, minute)
  {
    assert (60 * (hour + 12) + minute) % 720 == (60 * hour + minute) % 720;
  }

  /** `CLOCKS`: the clock faces from twelve o'clock, every half hour, back to twelve. */
  const CLOCKS: seq<string> := [
    "\U{1F55B}", "\U{1F567}", "\U{1F550}", "\U{1F55C}", "\U{1F551}", "\U{1F55D}",
    "\U{1F552}", "\U{1F55E}", "\U{1F553}", "\U{1F55F}", "\U{1F554}", "\U{1F560}",
    "\U{1F555}", "\U{1F561}", "\U{1F556}", "\U{1F562}", "\U{1F557}", "\U{1F563}",
    "\U{1F558}", "\U{1F564}", "\U{1F559}", "\U{1F565}", "\U{1F55A}", "\U{1F566}",
    "\U{1F55B}"
  ]

  /** 25 faces; the last is the twelve o'clock face again, and the first 24 are all different. */
  lemma ClocksWrapAround()
    ensures |CLOCKS| == 25 && CLOCKS[0] == CLOCKS[24]
    ensures forall i, j :: 0 <= i < j < 24 ==> CLOCKS[i] != CLOCKS[j]
  {
    forall i, j | 0 <= i < j < 24 ensures CLOCKS[i] != CLOCKS[j] {
      assert CLOCKS[i][0] != CLOCKS[j][0];
    }
  }

  /** The fields of `FmtDateTime.now()` that are derived from hour and minute. */
  datatype FmtTime = FmtTime(meridies: string, hour: Hour, minute: Minute, clockEmoji: string)

  /** `FmtDateTime.now()` for the UTC instant `utcHour:utcMinute`. */
  function Now(utcHour: Hour, utcMinute: Minute): (t: FmtTime)
    ensures t.hour == (utcHour + 8) % 24 && t.minute == utcMinute
    ensures t.meridies == "AM" <==> t.hour < 12
    ensures t.clockEmoji == CLOCKS[ClockIndex(t.hour, t.minute)]
  {
    var hour := LocalHour(utcHour);
    FmtTime(Meridies(hour), hour, utcMinute, CLOCKS[ClockIndex(hour, utcMinute)])
  }
}
