/** Pure time-of-day and weekday helpers of the background script. */
module Calendar {
  import opened Budgets

  const MINUTES_PER_DAY: int := 1440

  /** The Monday-based weekday `(getDay() + 6) % 7` of a JavaScript `getDay()` value
      (Sunday = 0); the result is the weekday just before `jsDay` in Sunday-first order. */
  function Weekday(jsDay: int): (weekday: int)
    requires 0 <= jsDay < 7
    ensures 0 <= weekday < DAYS_PER_WEEK
    ensures (weekday + 1) % 7 == jsDay
  {
    (jsDay + 6) % 7
  }

  /** The timestamp `getHours() * 60 + getMinutes()` compared against scheduled blocks. */
  function MinuteOfDay(hours: int, minutes: int): (minute: int)
    requires 0 <= hours < 24 && 0 <= minutes < 60
    ensures 0 <= minute < MINUTES_PER_DAY
    ensures minute / 60 == hours && minute % 60 == minutes
  {
    hours * 60 + minutes
  }

  /** Whether minute `now` falls in the block `range`; a block whose end is before its
      start runs past midnight. */
  function IsWithinScheduledBlock(range: Range, now: int): (inside: bool)
    ensures range.start == range.end ==> !inside
    ensures range.end < range.start ==> (inside <==> !(range.end <= now < range.start))
  {
    if range.end < range.start then now >= range.start || now < range.end
    else now >= range.start && now < range.end
  }

  /** For minutes of one day, a block is the circular interval that starts at `start`
      and lasts `(end - start) mod 1440` minutes. */
  lemma WithinIsCircularInterval(range: Range, now: int)
    requires 0 <= range.start < MINUTES_PER_DAY && 0 <= range.end < MINUTES_PER_DAY
    requires 0 <= now < MINUTES_PER_DAY
    ensures IsWithinScheduledBlock(range, now)
        <==> (now - range.start) % MINUTES_PER_DAY < (range.end - range.start) % MINUTES_PER_DAY
  {
    var offset := if now >= range.start then now - range.start else now - range.start + MINUTES_PER_DAY;
    var length := if range.end >= range.start then range.end - range.start else range.end - range.start + MINUTES_PER_DAY;
    assert (now - range.start) % MINUTES_PER_DAY == offset;
    assert (range.end - range.start) % MINUTES_PER_DAY == length;
  }
}
