/** The scheduled-block test of `checkScheduledBlock`: keep the ranges that apply on
    today's weekday, then take the first of them that contains the current minute. */
module Schedule {
  import opened Wrappers
  import opened Budgets
  import opened Calendar

  /** `range.days[weekday] == true`; an index past the mask reads as `undefined`, which is not true. */
  predicate ActiveOn(range: Range, weekday: int)
  {
    0 <= weekday < |range.days| && range.days[weekday]
  }

  /** The range applies today and contains minute `now`. */
  predicate Blocks(range: Range, weekday: int, now: int)
  {
    ActiveOn(range, weekday) && IsWithinScheduledBlock(range, now)
  }

  /** The ranges that apply on `weekday`, in their original order. */
  function ActiveToday(ranges: seq<Range>, weekday: int): (active: seq<Range>)
    ensures |active| <= |ranges|
    ensures forall r :: r in active ==> r in ranges && ActiveOn(r, weekday)
    ensures forall r :: r in ranges && ActiveOn(r, weekday) ==> r in active
  {
    if ranges == [] then []
    else if ActiveOn(ranges[0], weekday) then [ranges[0]] + ActiveToday(ranges[1..], weekday)
    else ActiveToday(ranges[1..], weekday)
  }

  /** The first range, in list order, that contains minute `now` (the `some` scan). */
  function FirstWithin(ranges: seq<Range>, now: int): (first: Option<Range>)
    ensures first.Some? ==> first.value in ranges && IsWithinScheduledBlock(first.value, now)
    ensures first.None? ==> forall r :: r in ranges ==> !IsWithinScheduledBlock(r, now)
  {
    if ranges == [] then None
    else if IsWithinScheduledBlock(ranges[0], now) then Some(ranges[0])
    else FirstWithin(ranges[1..], now)
  }

  /** The block `checkScheduledBlock` redirects for, if any. */
  function FirstScheduledBlock(ranges: seq<Range>, weekday: int, now: int): Option<Range>
  {
    FirstWithin(ActiveToday(ranges, weekday), now)
  }

  /** Filtering and then scanning finds the first range of the ORIGINAL list that both
      applies today and contains `now`. */
  lemma {:induction false} FirstScheduledBlockIsFirstMatch(ranges: seq<Range>, weekday: int, now: int, i: nat)
    requires i < |ranges| && Blocks(ranges[i], weekday, now)
    requires forall j :: 0 <= j < i ==> !Blocks(ranges[j], weekday, now)
    ensures FirstScheduledBlock(ranges, weekday, now) == Some(ranges[i])
  {
    if i > 0 {
      FirstScheduledBlockIsFirstMatch(ranges[1..], weekday, now, i - 1);
      if ActiveOn(ranges[0], weekday) {
        assert !IsWithinScheduledBlock(ranges[0], now);
      }
    }
  }

  /** No redirect happens exactly when no range both applies today and contains `now`. */
  lemma {:induction false} NoScheduledBlockIffNoMatch(ranges: seq<Range>, weekday: int, now: int)
    ensures FirstScheduledBlock(ranges, weekday, now).None?
        <==> forall j :: 0 <= j < |ranges| ==> !Blocks(ranges[j], weekday, now)
  {
    if ranges != [] {
      NoScheduledBlockIffNoMatch(ranges[1..], weekday, now);
      assert forall j :: 1 <= j < |ranges| ==> ranges[j] == ranges[1..][j - 1];
      if ActiveOn(ranges[0], weekday) && IsWithinScheduledBlock(ranges[0], now) {
        FirstScheduledBlockIsFirstMatch(ranges, weekday, now, 0);
      }
    }
  }
}
