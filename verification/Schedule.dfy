/**
 The weekly schedule of the queue issue. An instant is a number of nanoseconds since 1970 in
 UTC; in UTC a day is always 24 hours, so moving back by days is plain arithmetic.
 */
module Scheduling {

  const SECOND := 1000000000
  const MINUTE := 60 * SECOND
  const HOUR := 60 * MINUTE
  const DAY := 24 * HOUR
  const WEEK := 7 * DAY

  /** A day of the week, Sunday being 0, and a time of day. */
  datatype Slot = Slot(weekday: nat, hour: nat, minute: nat)

  predicate SlotOk(s: Slot) { s.weekday < 7 && s.hour < 24 && s.minute < 60 }

  /** 1970-01-01 was a Thursday. */
  function Weekday(day: int): int { (day + 4) % 7 }

  function TimeOfDay(s: Slot): int { s.hour * HOUR + s.minute * MINUTE }

  /** The latest scheduled instant at or before now. */
  function Scheduled(s: Slot, now: int): int {
    var today := now / DAY;
    var back := (Weekday(today) - s.weekday + 7) % 7;
    var at := (today - back) * DAY + TimeOfDay(s);
    if at > now then at - WEEK else at
  }

  predicate IsScheduled(s: Slot, t: int) { Weekday(t / DAY) == s.weekday && t % DAY == TimeOfDay(s) }

  lemma DayParts(d: int, r: int)
    requires 0 <= r < DAY
    ensures (d * DAY + r) / DAY == d && (d * DAY + r) % DAY == r
  {
  }

  /** Scheduled instants lie whole weeks apart. */
  lemma SlotsAreWeeksApart(s: Slot, t: int, u: int)
    requires SlotOk(s) && IsScheduled(s, t) && IsScheduled(s, u) && t < u
    ensures u - t >= WEEK
  {
    var d := u / DAY - t / DAY;
    assert u - t == d * DAY;
    assert d % 7 == 0;
  }

  lemma ScheduledIsASlot(s: Slot, now: int)
    requires SlotOk(s)
    ensures IsScheduled(s, Scheduled(s, now))
  {
    var today := now / DAY;
    var back := (Weekday(today) - s.weekday + 7) % 7;
    BackDay(s, today);
    DayParts(today - back, TimeOfDay(s));
    DayParts(today - back - 7, TimeOfDay(s));
  }

  lemma ScheduledIsRecent(s: Slot, now: int)
    requires SlotOk(s)
    ensures Scheduled(s, now) <= now < Scheduled(s, now) + WEEK
  {
    var today := now / DAY;
    BackDay(s, today);
    assert now == today * DAY + now % DAY;
    assert 0 <= TimeOfDay(s) < DAY;
  }

  /** Scheduled gives a scheduled instant, at or before now, less than a week earlier; so it is the latest. */
  lemma ScheduledIsLatest(s: Slot, now: int)
    requires SlotOk(s)
    ensures IsScheduled(s, Scheduled(s, now)) && Scheduled(s, now) <= now < Scheduled(s, now) + WEEK
    ensures forall t :: IsScheduled(s, t) && t <= now ==> t <= Scheduled(s, now)
  {
    ScheduledIsASlot(s, now);
    ScheduledIsRecent(s, now);
    forall t | IsScheduled(s, t) && t <= now ensures t <= Scheduled(s, now) {
      if t > Scheduled(s, now) { SlotsAreWeeksApart(s, Scheduled(s, now), t); }
    }
  }

  lemma BackDay(s: Slot, today: int)
    requires SlotOk(s)
    ensures var back := (Weekday(today) - s.weekday + 7) % 7;
            0 <= back < 7 && Weekday(today - back) == s.weekday && Weekday(today - back - 7) == s.weekday
  {
  }

  /** A scheduled instant is a whole number of seconds, so dropping an earlier instant's fraction never moves
      it across. */
  lemma TruncationIsHarmless(s: Slot, t: int, now: int)
    requires SlotOk(s)
    ensures t / SECOND * SECOND < Scheduled(s, now) <==> t < Scheduled(s, now)
  {
    var at := Scheduled(s, now);
    ScheduledIsLatest(s, now);
    WholeSeconds(s, at);
    assert t / SECOND * SECOND <= t < (t / SECOND + 1) * SECOND;
    assert at == at / SECOND * SECOND;
    if t < at { assert t / SECOND <= at / SECOND; }
    if t >= at { assert t / SECOND >= at / SECOND; }
  }

  lemma WholeSeconds(s: Slot, at: int)
    requires SlotOk(s) && IsScheduled(s, at)
    ensures at % SECOND == 0
  {
    assert at == at / DAY * DAY + TimeOfDay(s);
    assert at == (at / DAY * 86400 + s.hour * 3600 + s.minute * 60) * SECOND;
  }
}
