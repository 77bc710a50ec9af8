/**
 * The extension's background script: a daily countdown kept in local storage
 * under `badgeDate` (the midnight of the last update, in milliseconds) and
 * `badgeDay` (the days left), and shown as the browser action's badge text.
 * Each run subtracts the whole days elapsed since `badgeDate` and writes the
 * new count back when the stored date is earlier than today and the count is
 * not negative.
 *
 * Timestamps are integers already truncated to midnight by the caller. An
 * absent or unparsable stored value is `None`.
 */
module Background {
  import opened Wrappers
  import Decimal

  const DayMilliseconds: int := 24 * 60 * 60 * 1000

  /** `Math.floor(time / DAY_MILLISECONDS)`: the whole days in `time`, rounded down. */
  function MillisecondsToDays(time: int): (days: int)
    ensures days * DayMilliseconds <= time < (days + 1) * DayMilliseconds
  {
    // Dafny's division rounds down when the divisor is positive, as Math.floor does.
    time / DayMilliseconds
  }

  /** `Math.abs(now - badgeDate)`. */
  function DiffDates(now: int, badgeDate: int): (diff: nat)
    ensures diff == now - badgeDate || diff == badgeDate - now
  {
    if badgeDate <= now then now - badgeDate else badgeDate - now
  }

  /** The stored count less the whole days between the stored date and today. */
  function NewDay(badgeDay: int, badgeDate: int, now: int): (newDay: int)
    ensures (badgeDay - newDay) * DayMilliseconds <= DiffDates(now, badgeDate)
    ensures DiffDates(now, badgeDate) < (badgeDay - newDay + 1) * DayMilliseconds
    ensures newDay <= badgeDay
    ensures badgeDate == now ==> newDay == badgeDay
  {
    badgeDay - MillisecondsToDays(DiffDates(now, badgeDate))
  }

  /** The two storage keys and the badge text this script writes (`None`: never set). */
  datatype BadgeState = BadgeState(badgeDate: Option<int>, badgeDay: Option<int>, badgeText: Option<string>)

  /** Whether a run on `now` writes: both keys present, the browser action API present, the date earlier, the count not negative. */
  predicate Updates(s: BadgeState, now: int, hasBrowserAction: bool) {
    && hasBrowserAction
    && s.badgeDay.Some?
    && s.badgeDate.Some?
    && s.badgeDate.value < now
    && NewDay(s.badgeDay.value, s.badgeDate.value, now) >= 0
  }

  /**
   * One run of the script on day `now`. Without an update nothing changes;
   * an update stores `now` as the date and the new, non-negative and not larger
   * count, and shows that count as decimal text.
   */
  function Step(s: BadgeState, now: int, hasBrowserAction: bool): (t: BadgeState)
    ensures !Updates(s, now, hasBrowserAction) ==> t == s
    ensures Updates(s, now, hasBrowserAction) ==>
      && t.badgeDate == Some(now)
      && t.badgeDay == Some(s.badgeDay.value - MillisecondsToDays(now - s.badgeDate.value))
      && 0 <= t.badgeDay.value <= s.badgeDay.value
      && t.badgeText == Some(Decimal.IntToString(t.badgeDay.value))
      && Decimal.AllDigits(t.badgeText.value)
      && Decimal.ParseInt(t.badgeText.value) == t.badgeDay
  {
    if Updates(s, now, hasBrowserAction) then
      var newDay := NewDay(s.badgeDay.value, s.badgeDate.value, now);
      Decimal.IntRoundTrip(newDay);
      BadgeState(Some(now), Some(newDay), Some(Decimal.IntToString(newDay)))
    else
      s
  }

  /** The elapsed-time difference does not depend on which date comes first. */
  lemma DiffDatesSymmetric(a: int, b: int)
    ensures DiffDates(a, b) == DiffDates(b, a)
  {
  }

  /** Between two midnights a whole number of days apart, exactly that number of days is counted. */
  lemma WholeDaysBetweenMidnights(earlier: int, later: int, days: int)
    requires later - earlier == days * DayMilliseconds
    ensures MillisecondsToDays(DiffDates(later, earlier)) == if days < 0 then -days else days
  {
  }

  /** Running twice on the same day writes nothing the second time. */
  lemma StepIdempotent(s: BadgeState, now: int, hasBrowserAction: bool)
    ensures Step(Step(s, now, hasBrowserAction), now, hasBrowserAction) == Step(s, now, hasBrowserAction)
  {
  }

  /** Between midnights, an update takes at least one day off the count. */
  lemma UpdateDecrements(s: BadgeState, now: int, hasBrowserAction: bool)
    requires Updates(s, now, hasBrowserAction)
    requires (now - s.badgeDate.value) % DayMilliseconds == 0
    ensures Step(s, now, hasBrowserAction).badgeDay.value < s.badgeDay.value
  {
  }

  /**
   * Runs on several days give the count a single run on the last of them would
   * give: a run on `d1` followed by one on `d2` leaves the state one run on `d2`
   * leaves, whenever that single run writes.
   */
  lemma DailyRunsCompose(s: BadgeState, d1: int, d2: int, hasBrowserAction: bool)
    requires s.badgeDate.Some? && s.badgeDate.value < d1 < d2
    requires (d1 - s.badgeDate.value) % DayMilliseconds == 0 && (d2 - d1) % DayMilliseconds == 0
    requires Updates(s, d2, hasBrowserAction)
    ensures Step(Step(s, d1, hasBrowserAction), d2, hasBrowserAction) == Step(s, d2, hasBrowserAction)
  {
    var b, c := s.badgeDate.value, s.badgeDay.value;
    var k1, k2 := (d1 - b) / DayMilliseconds, (d2 - d1) / DayMilliseconds;
    assert d1 - b == k1 * DayMilliseconds;
    assert d2 - d1 == k2 * DayMilliseconds;
    WholeDaysBetweenMidnights(b, d1, k1);
    WholeDaysBetweenMidnights(d1, d2, k2);
    WholeDaysBetweenMidnights(b, d2, k1 + k2);
    // the run on d1 writes c - k1, which the later run reduces by k2 more
    assert Updates(s, d1, hasBrowserAction);
  }

  /** The storage keys and badge the script reads and writes. */
  class BadgeStore {
    var badgeDate: Option<int>
    var badgeDay: Option<int>
    var badgeText: Option<string>

    function State(): BadgeState
      reads this
    {
      BadgeState(badgeDate, badgeDay, badgeText)
    }

    constructor (badgeDate: Option<int>, badgeDay: Option<int>)
      ensures State() == BadgeState(badgeDate, badgeDay, None)
    {
      this.badgeDate := badgeDate;
      this.badgeDay := badgeDay;
      this.badgeText := None;
    }

    /** One run of the script on day `now`. */
    method Run(now: int, hasBrowserAction: bool)
      modifies this
      ensures State() == Step(old(State()), now, hasBrowserAction)
    {
      // A Date object is always truthy, so only a missing count or API stops the run here.
      if badgeDay.None? || !hasBrowserAction {
        return;
      }
      // An unparsable date is NaN, and `NaN < now` is false.
      if badgeDate.Some? {
        var diffDates := DiffDates(now, badgeDate.value);
        var newDay := badgeDay.value - MillisecondsToDays(diffDates);
        if badgeDate.value < now && newDay >= 0 {
          badgeText := Some(Decimal.IntToString(newDay));
          badgeDate := Some(now);
          badgeDay := Some(newDay);
        }
      }
    }
  }
}
