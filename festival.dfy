/** The nearest-festival search of utils/lunar_festival.py: given today's lunar month
    and day, the festival of the fixed table that comes next on a calendar of twelve
    30-day months. */
module LunarFestival {
  import opened Containers

  datatype FestivalInfo = FestivalInfo(month: int, day: int, description: string)

  /** `FESTIVALS`, in declaration order (the order the search visits them). */
  const Festivals: Dict<string, FestivalInfo> := [
    ("春节", FestivalInfo(1, 1, "新年开始，万象更新")),
    ("元宵", FestivalInfo(1, 15, "正月十五闹元宵")),
    ("端午", FestivalInfo(5, 5, "端午佳节，驱邪避灾")),
    ("七夕", FestivalInfo(7, 7, "牛郎织女相会日")),
    ("中秋", FestivalInfo(8, 15, "八月中秋，月圆人团圆")),
    ("重阳", FestivalInfo(9, 9, "登高望远，敬老怀远")),
    ("腊八", FestivalInfo(12, 8, "腊八节日，祈福纳祥")),
    ("除夕", FestivalInfo(12, 30, "辞旧迎新，阖家团圆"))]

  /** The running minimum: `float('inf')` until the first festival is seen. */
  datatype Bound = Infinity | Finite(days: int)

  /** `d < min_days_diff`. */
  predicate Below(d: int, b: Bound) {
    b.Infinity? || d < b.days
  }

  /** The dict `get_current_festival` returns. */
  datatype CurrentFestival = CurrentFestival(name: string, info: FestivalInfo, daysUntil: int)

  /** The position of a month and day in a year of twelve 30-day months. */
  function DayOfYear(month: int, day: int): int {
    (month - 1) * 30 + (day - 1)
  }

  /** A month 1..12 and a day 1..30. */
  predicate InYear(month: int, day: int) {
    1 <= month <= 12 && 1 <= day <= 30
  }

  /** The day count to a festival: the month and day differences on 30-day months,
      moved forward by a 360-day year when the festival has already passed. For dates
      within the year it is the distance forward from today to the festival around
      the 360-day year, so it lies in 0..359. */
  function DaysUntil(info: FestivalInfo, lunarMonth: int, lunarDay: int): (d: int)
    ensures var offset := (info.month - lunarMonth) * 30 + (info.day - lunarDay);
      (offset >= 0 ==> d == offset) && (offset < 0 ==> d == offset + 360)
    ensures InYear(info.month, info.day) && InYear(lunarMonth, lunarDay) ==>
      d == (DayOfYear(info.month, info.day) - DayOfYear(lunarMonth, lunarDay)) % 360 && 0 <= d < 360
  {
    var monthDiff := info.month - lunarMonth;
    var dayDiff := info.day - lunarDay;
    var totalDaysDiff := monthDiff * 30 + dayDiff;
    WithinOneYear(totalDaysDiff);
    if totalDaysDiff < 0 then totalDaysDiff + 360 else totalDaysDiff
  }

  /** Less than a year either way, the remainder modulo 360 moves a negative offset
      forward by one year and keeps any other. */
  lemma WithinOneYear(x: int)
    ensures -360 < x < 0 ==> x % 360 == x + 360
    ensures 0 <= x < 360 ==> x % 360 == x
  {
  }

  /** Every festival of the table falls on a month 1..12 and a day 1..30. */
  lemma FestivalDatesInRange(i: nat)
    requires i < |Festivals|
    ensures 1 <= Festivals[i].1.month <= 12 && 1 <= Festivals[i].1.day <= 30
  {
  }

  /** No two festivals of the table share a month and day, nor a name. */
  lemma FestivalsDistinct(i: nat, j: nat)
    requires i < |Festivals| && j < |Festivals|
    ensures i != j ==> Festivals[i].1.month != Festivals[j].1.month || Festivals[i].1.day != Festivals[j].1.day
    ensures i != j ==> Festivals[i].0 != Festivals[j].0
  {
  }

  /** The day count to the festival at position `i`. */
  function Distance(lunarMonth: int, lunarDay: int, i: nat): int
    requires i < |Festivals|
  {
    DaysUntil(Festivals[i].1, lunarMonth, lunarDay)
  }

  /** The result recorded for the festival at position `i`. */
  function Entry(lunarMonth: int, lunarDay: int, i: nat): CurrentFestival
    requires i < |Festivals|
  {
    CurrentFestival(Festivals[i].0, Festivals[i].1, Distance(lunarMonth, lunarDay, i))
  }

  /** Among the first `n` festivals, the one at `k` is nearest, and no earlier one is as near. */
  predicate NearestAmong(lunarMonth: int, lunarDay: int, k: nat, n: nat)
    requires n <= |Festivals|
  {
    k < n
    && (forall j :: 0 <= j < n ==> Distance(lunarMonth, lunarDay, k) <= Distance(lunarMonth, lunarDay, j))
    && (forall j :: 0 <= j < k ==> Distance(lunarMonth, lunarDay, k) < Distance(lunarMonth, lunarDay, j))
  }

  /** At most one festival is the first nearest. */
  lemma NearestIsUnique(lunarMonth: int, lunarDay: int, k1: nat, k2: nat, n: nat)
    requires n <= |Festivals|
    requires NearestAmong(lunarMonth, lunarDay, k1, n) && NearestAmong(lunarMonth, lunarDay, k2, n)
    ensures k1 == k2
  {
    var d1, d2 := Distance(lunarMonth, lunarDay, k1), Distance(lunarMonth, lunarDay, k2);
    assert d1 <= d2 && d2 <= d1;
  }

  /** `get_current_festival`, with today's lunar month and day as parameters: the
      nearest festival, the first declared among equally near ones, with its table
      entry and its day count. */
  method GetCurrentFestival(lunarMonth: int, lunarDay: int) returns (currentFestival: Option<CurrentFestival>)
    ensures currentFestival.Some?
    ensures exists k :: NearestAmong(lunarMonth, lunarDay, k, |Festivals|)
                        && currentFestival.value == Entry(lunarMonth, lunarDay, k)
  {
    currentFestival := None;
    var minDaysDiff := Infinity;
    ghost var best: nat := 0;
    for i := 0 to |Festivals|
      invariant i == 0 <==> currentFestival.None?
      invariant i == 0 <==> minDaysDiff.Infinity?
      invariant i > 0 ==> NearestAmong(lunarMonth, lunarDay, best, i)
      invariant i > 0 ==> currentFestival.value == Entry(lunarMonth, lunarDay, best)
      invariant i > 0 ==> minDaysDiff.days == Distance(lunarMonth, lunarDay, best)
    {
      var (festivalName, festivalInfo) := Festivals[i];
      var monthDiff := festivalInfo.month - lunarMonth;
      var dayDiff := festivalInfo.day - lunarDay;
      var totalDaysDiff := monthDiff * 30 + dayDiff;
      if totalDaysDiff < 0 {
        totalDaysDiff := totalDaysDiff + 360;
      }
      assert totalDaysDiff == Distance(lunarMonth, lunarDay, i);
      if Below(totalDaysDiff, minDaysDiff) {
        minDaysDiff := Finite(totalDaysDiff);
        currentFestival := Some(CurrentFestival(festivalName, festivalInfo, totalDaysDiff));
        best := i;
      }
    }
  }

  /** With a lunar month 1..12 and day 1..30 the day count of the result is 0..359. */
  lemma NearestDistanceInRange(lunarMonth: int, lunarDay: int, k: nat)
    requires 1 <= lunarMonth <= 12 && 1 <= lunarDay <= 30
    requires NearestAmong(lunarMonth, lunarDay, k, |Festivals|)
    ensures 0 <= Entry(lunarMonth, lunarDay, k).daysUntil < 360
  {
    FestivalDatesInRange(k);
  }

  /** On a festival's own date that festival is the result, zero days away. */
  lemma FestivalToday(lunarMonth: int, lunarDay: int, i: nat, k: nat)
    requires i < |Festivals| && Festivals[i].1.month == lunarMonth && Festivals[i].1.day == lunarDay
    requires NearestAmong(lunarMonth, lunarDay, k, |Festivals|)
    ensures k == i && Entry(lunarMonth, lunarDay, k).daysUntil == 0
    ensures Entry(lunarMonth, lunarDay, k).name == Festivals[i].0
  {
    FestivalDatesInRange(k);
    FestivalDatesInRange(i);
    assert Distance(lunarMonth, lunarDay, i) == 0;
    ZeroDistanceIsSameDate(Festivals[k].1, lunarMonth, lunarDay);
    FestivalsDistinct(k, i);
  }

  /** Within the ranges of the table, a festival is zero days away only on its own date. */
  lemma ZeroDistanceIsSameDate(info: FestivalInfo, lunarMonth: int, lunarDay: int)
    requires 1 <= info.month <= 12 && 1 <= info.day <= 30
    requires 1 <= lunarMonth <= 12 && 1 <= lunarDay <= 30
    requires DaysUntil(info, lunarMonth, lunarDay) == 0
    ensures info.month == lunarMonth && info.day == lunarDay
  {
    var offset := (info.month - lunarMonth) * 30 + (info.day - lunarDay);
    assert offset == 0;
  }
}
