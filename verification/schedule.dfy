/** The wall-clock side of the refresh job: `getMinutesUntilNext15` and the
    minutes of the hour on which the cron expression "2,17,32,47 * * * *"
    fires. The clock itself is a parameter: a minute of the hour, 0..59. */
module Schedule {

  /** `getMinutesUntilNext15` for the current minute of the hour (what
      `Date.getMinutes` returns). JavaScript `%` agrees with Dafny's on
      non-negative operands. */
  function MinutesUntilNext15(minutes: int): (r: int)
    requires 0 <= minutes < 60
    ensures 1 <= r <= 15
    ensures (minutes + r) % 15 == 0
    ensures forall k :: 1 <= k < r ==> !QuarterMarkAfter(minutes, k)
  {
    15 - (minutes % 15)
  }

  /** `k` minutes after minute `minutes` the clock is on a quarter hour. */
  predicate QuarterMarkAfter(minutes: int, k: int) {
    (minutes + k) % 15 == 0
  }

  /** The minutes listed in the job's cron expression. */
  const CronMinutes: set<int> := {2, 17, 32, 47}

  predicate CronFires(minute: int) {
    minute in CronMinutes
  }

  /** The job fires every fifteen minutes, two minutes past each quarter hour. */
  lemma CronEveryQuarterPlusTwo(minute: int)
    requires 0 <= minute < 60
    ensures CronFires(minute) <==> minute % 15 == 2
  {
  }

  /** The job fires two minutes after the quarter-hour mark that
      `getMinutesUntilNext15` counts down to. */
  lemma FiresTwoAfterMark(minutes: int)
    requires 0 <= minutes < 60
    ensures CronFires((minutes + MinutesUntilNext15(minutes) + 2) % 60)
  {
    var m := minutes + MinutesUntilNext15(minutes);
    CronEveryQuarterPlusTwo((m + 2) % 60);
  }

  /** That firing need not be the first one: less than two minutes past a
      quarter hour, the job fires before the mark the log announces. */
  lemma FiresBeforeMark(minutes: int)
    requires 0 <= minutes < 60 && minutes % 15 < 2
    ensures var f := minutes - minutes % 15 + 2;
      minutes < f < minutes + MinutesUntilNext15(minutes) && CronFires(f)
  {
    var f := minutes - minutes % 15 + 2;
    assert f % 15 == 2;
    CronEveryQuarterPlusTwo(f);
  }
}
