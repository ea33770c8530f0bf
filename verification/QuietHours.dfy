/** The quiet-hours calculation of app/services/dispatcher.py, in a zone of fixed offset. */
module QuietHours {
  import opened Prelude
  import opened Schema

  /** Start and end as time since local midnight; equal ones mean no quiet hours at all. */
  datatype Quiet = Quiet(start: int, end: int, utcOffset: int) {
    predicate Valid() {
      0 <= start < DAY && 0 <= end < DAY
    }
  }

  function LocalTime(q: Quiet, t: Instant): int {
    (t + q.utcOffset) % DAY
  }

  function LocalDate(q: Quiet, t: Instant): int {
    (t + q.utcOffset) / DAY
  }

  /** Whether an instant lies in quiet hours. */
  predicate IsQuiet(q: Quiet, t: Instant) {
    var time := LocalTime(q, t);
    if q.start < q.end then q.start <= time < q.end
    else q.start > q.end && (q.start <= time || time < q.end)
  }

  function QuietEnd(q: Quiet, now: Instant): Option<Instant> {
    var time := LocalTime(q, now);
    if q.start == q.end then None
    else if !(if q.start < q.end then q.start <= time < q.end else time >= q.start || time < q.end) then None
    else
      var endDate := if q.start >= q.end && time >= q.start then LocalDate(q, now) + 1 else LocalDate(q, now);
      Some(endDate * DAY + q.end - q.utcOffset)
  }

  lemma LocalSplit(q: Quiet, t: Instant, date: int, time: int)
    requires t + q.utcOffset == date * DAY + time && 0 <= time < DAY
    ensures LocalDate(q, t) == date && LocalTime(q, t) == time
  {
  }

  /**
   * None exactly outside quiet hours. Otherwise the first instant after now that is not quiet:
   * later than now, less than a day away, and quiet all the way up to it.
   */
  lemma QuietEndIsFirstLoudInstant(q: Quiet, now: Instant)
    requires q.Valid()
    ensures QuietEnd(q, now).None? <==> !IsQuiet(q, now)
    ensures QuietEnd(q, now).Some? ==>
              && now < QuietEnd(q, now).value < now + DAY
              && !IsQuiet(q, QuietEnd(q, now).value)
              && forall t :: now <= t < QuietEnd(q, now).value ==> IsQuiet(q, t)
  {
    var date, time := LocalDate(q, now), LocalTime(q, now);
    if QuietEnd(q, now).Some? {
      var end := QuietEnd(q, now).value;
      var endDate := if q.start >= q.end && time >= q.start then date + 1 else date;
      LocalSplit(q, end, endDate, q.end);
      forall t | now <= t < end ensures IsQuiet(q, t) {
        var local := t + q.utcOffset - date * DAY;
        if local < DAY {
          LocalSplit(q, t, date, local);
        } else {
          LocalSplit(q, t, date + 1, local - DAY);
        }
      }
    }
  }
}
