/** The next-payout estimates. Douala is UTC+1 all year. */
module PayoutCalendar {

  const HOUR := 3_600_000
  const DAY := 24 * HOUR
  const WEEK := 7 * DAY
  const DOUALA_OFFSET_MS := HOUR

  /** Day of the week of a wall-clock instant; the epoch was a Thursday. */
  function DayOfWeek(wall: int): int { (wall / DAY + 4) % 7 }

  function HourOfDay(wall: int): int { wall % DAY / HOUR }

  /** Midnight of the wall-clock day, moved by whole days. */
  function Midnight(wall: int, daysAhead: int): int { (wall / DAY + daysAhead) * DAY }

  function NextSundayAt02(now: int): int {
    var wall := now + DOUALA_OFFSET_MS;
    var dow := DayOfWeek(wall);
    var ahead := if dow == 0 && HourOfDay(wall) < 2 then 0
                 else if (7 - dow) % 7 == 0 then 7
                 else (7 - dow) % 7;
    Midnight(wall, ahead) + 2 * HOUR - DOUALA_OFFSET_MS
  }

  function NextMorningAt06(now: int): int {
    var wall := now + DOUALA_OFFSET_MS;
    var today := Midnight(wall, 0) + 6 * HOUR;
    (if today <= wall then today + DAY else today) - DOUALA_OFFSET_MS
  }

  /** The vendor cron's instants: Sunday 02:00 in Douala. */
  predicate IsSunday02(t: int) {
    DayOfWeek(t + DOUALA_OFFSET_MS) == 0 && (t + DOUALA_OFFSET_MS) % DAY == 2 * HOUR
  }

  /** The rider cron's instants: 06:00 in Douala. */
  predicate IsMorning06(t: int) { (t + DOUALA_OFFSET_MS) % DAY == 6 * HOUR }

  lemma SplitDay(day: int, rest: int)
    requires 0 <= rest < DAY
    ensures (day * DAY + rest) / DAY == day && (day * DAY + rest) % DAY == rest
  {
  }

  /** Whole days to the next Sunday that is not yet past. */
  function DaysAhead(day: int, early: bool): int {
    var dow := (day + 4) % 7;
    if dow == 0 && early then 0 else if (7 - dow) % 7 == 0 then 7 else (7 - dow) % 7
  }

  lemma DaysAheadIsLeast(day: int, early: bool, other: int)
    ensures 0 <= DaysAhead(day, early) <= 7 && (day + DaysAhead(day, early) + 4) % 7 == 0
    ensures DaysAhead(day, early) == 0 ==> early
    ensures DaysAhead(day, early) == 7 ==> !early
    ensures (other + 4) % 7 == 0 && day <= other && (other == day ==> early) ==> day + DaysAhead(day, early) <= other
  {
  }

  lemma SundayForm(now: int)
    ensures var wall := now + DOUALA_OFFSET_MS;
            NextSundayAt02(now) + DOUALA_OFFSET_MS == (wall / DAY + DaysAhead(wall / DAY, HourOfDay(wall) < 2)) * DAY + 2 * HOUR
  {
  }

  /** The estimate is the least Sunday 02:00 strictly later than now, at most a
      week ahead. */
  lemma NextSundayIsLeast(now: int, other: int)
    ensures var t := NextSundayAt02(now);
            && IsSunday02(t) && now < t <= now + WEEK
            && (IsSunday02(other) && now < other ==> t <= other)
  {
    hide NextSundayAt02;
    hide DaysAhead;
    var wall, target := now + DOUALA_OFFSET_MS, other + DOUALA_OFFSET_MS;
    var day, rest, o := wall / DAY, wall % DAY, target / DAY;
    var early := HourOfDay(wall) < 2;
    var ahead := DaysAhead(day, early);
    assert early <==> rest < 2 * HOUR;
    DaysAheadIsLeast(day, early, o);
    SplitDay(day + ahead, 2 * HOUR);
    SundayForm(now);
    assert wall == day * DAY + rest && target == o * DAY + target % DAY;
  }

  /** Likewise for the riders' 06:00, at most a day ahead. */
  lemma NextMorningIsLeast(now: int, other: int)
    ensures var t := NextMorningAt06(now);
            && IsMorning06(t) && now < t <= now + DAY
            && (IsMorning06(other) && now < other ==> t <= other)
  {
  }

  /** Counted from the epoch, a Thursday midnight in London: the first Sunday
      02:00 of Douala is the Sunday's 01:00 there, the first 06:00 its 05:00. */
  lemma FromTheEpoch()
    ensures NextSundayAt02(0) == (3 * 24 + 1) * 60 * 60 * 1000
    ensures NextMorningAt06(0) == 5 * 60 * 60 * 1000
  {
  }
}
