/**
  The attendance analytics card: a week of daily head counts drawn as bars scaled to the
  best day, a percentage badge per day, a row of monthly bars, and three fixed quick
  statistics. Percentages are kept in tenths of a percent and pixel heights in hundredths
  of a pixel, so that every figure the card shows is an exact integer.
 */
module AttendanceChart {
  import opened Common
  import opened Roles

  /** One day of the week; `tenths` is the attendance percentage times ten. */
  datatype DayRow = DayRow(day: string, present: int, absent: int, tenths: int)

  datatype MonthRow = MonthRow(month: string, tenths: int)

  const TotalStudents: int := 156

  const Weekly: seq<DayRow> := [
    DayRow("Mon", 145, 11, 929),
    DayRow("Tue", 142, 14, 910),
    DayRow("Wed", 148, 8, 949),
    DayRow("Thu", 143, 13, 917),
    DayRow("Fri", 149, 7, 955),
    DayRow("Sat", 138, 18, 885)
  ]

  const Monthly: seq<MonthRow> := [
    MonthRow("Aug", 892),
    MonthRow("Sep", 915),
    MonthRow("Oct", 887),
    MonthRow("Nov", 928),
    MonthRow("Dec", 903)
  ]

  /** The card's title: the government view reads as district analytics. */
  function Heading(role: string): (h: string)
    ensures h == "District Analytics" <==> role == RoleId(Government)
    ensures h == "District Analytics" || h == "Attendance Analytics"
  {
    if role == "government" then "District Analytics" else "Attendance Analytics"
  }

  /** The heading's string test agrees with the parsed role: only the government role
      reads as district analytics. */
  lemma HeadingOfRole(role: string)
    ensures Heading(role) == "District Analytics" <==> ParseRole(role) == Government
    ensures Heading(RoleId(ParseRole(role))) == Heading(role)
  {
  }

  /** The largest head count of the week. `Math.max` of no values is not a count, so the
      week must have a day. */
  method MaxPresent(rows: seq<DayRow>) returns (m: int)
    requires |rows| > 0
    ensures forall i :: 0 <= i < |rows| ==> rows[i].present <= m
    ensures exists i :: 0 <= i < |rows| && rows[i].present == m
  {
    m := rows[0].present;
    var k := 1;
    while k < |rows|
      invariant 1 <= k <= |rows|
      invariant forall i :: 0 <= i < k ==> rows[i].present <= m
      invariant exists i :: 0 <= i < k && rows[i].present == m
    {
      if rows[k].present > m {
        m := rows[k].present;
      }
      k := k + 1;
    }
  }

  /** A bar's width in whole percent of the track: the day's count relative to the best
      day's count. */
  function BarWidth(present: int, max: int): (w: int)
    requires 0 <= present <= max && 0 < max
    ensures 0 <= w <= 100
    ensures w == 100 <==> present == max
    ensures w * max <= present * 100 < (w + 1) * max
  {
    var w := present * 100 / max;
    BarWidthBounds(present, max, w);
    w
  }

  lemma BarWidthBounds(present: int, max: int, w: int)
    requires 0 <= present <= max && 0 < max
    requires w == present * 100 / max
    ensures 0 <= w <= 100
    ensures w == 100 <==> present == max
    ensures w * max <= present * 100 < (w + 1) * max
  {
    FloorDiv(present * 100, max);
    ScaleCancel(w, present, max);
    ScaleCancel(present, w, max);
    ScaleCancel(w, 100, max);
    ScaleCancel(100, w + 1, max);
  }

  /** Integer division rounds down. */
  lemma FloorDiv(n: int, d: int)
    requires 0 < d
    ensures (n / d) * d <= n < (n / d + 1) * d
  {
    assert n == d * (n / d) + n % d;
  }

  /** Scaling by a positive factor preserves order both ways. */
  lemma ScaleCancel(a: int, b: int, m: int)
    requires 0 < m
    ensures a * m <= b * m <==> a <= b
  {
    assert b * m - a * m == (b - a) * m;
    if a > b {
      MulAtLeast(a - b, m);
    } else {
      MulAtLeast(b - a, m);
    }
  }

  /** A positive multiple of `m` is at least `m`, and no multiple by a natural number is
      negative. */
  lemma {:induction false} MulAtLeast(k: int, m: int)
    requires 0 <= k && 0 < m
    ensures 0 <= k * m
    ensures 0 < k ==> m <= k * m
    decreases k
  {
    if k > 0 {
      MulAtLeast(k - 1, m);
      assert k * m == (k - 1) * m + m;
    }
  }

  /** Bars keep the order of the counts. */
  lemma BarWidthMonotone(a: int, b: int, max: int)
    requires 0 <= a <= b <= max && 0 < max
    ensures BarWidth(a, max) <= BarWidth(b, max)
  {
    var wa := BarWidth(a, max);
    var wb := BarWidth(b, max);
    ScaleCancel(wa, wb + 1, max);
  }

  /** The day badge is highlighted from 90.0 percent up. */
  function Highlighted(row: DayRow): (h: bool)
    ensures h <==> (row.tenths as real) / 10.0 >= 90.0
  {
    row.tenths >= 900
  }

  /** A monthly bar's height in hundredths of a pixel: the percentage of an 80px column. */
  function MonthBarHeight(tenths: int): (h: int)
    requires 0 <= tenths <= 1000
    ensures 0 <= h <= 8000
    ensures h * 1000 == tenths * 8000
  {
    8 * tenths
  }

  /** The weekly rows are consistent: every day accounts for all 156 students, and every
      percentage is that day's count over 156, rounded to one decimal. */
  lemma WeeklyConsistent()
    ensures forall i :: 0 <= i < |Weekly| ==> Weekly[i].present + Weekly[i].absent == TotalStudents
    ensures forall i :: 0 <= i < |Weekly| ==>
      RoundedQuotient(1000 * Weekly[i].present, TotalStudents, Weekly[i].tenths)
  {
  }

  /** The "Best Day" statistic names Friday at 95.5 percent, which is the week's highest
      count and highest percentage, so Friday's bar is the only full one. */
  lemma BestDayIsFriday()
    ensures Weekly[4].day == "Fri" && Weekly[4].tenths == 955
    ensures forall i :: 0 <= i < |Weekly| ==> Weekly[i].present <= Weekly[4].present
    ensures forall i :: 0 <= i < |Weekly| ==> Weekly[i].tenths <= Weekly[4].tenths
    ensures forall i :: 0 <= i < |Weekly| ==>
      (BarWidth(Weekly[i].present, Weekly[4].present) == 100 <==> i == 4)
  {
  }

  /** The sum of the daily percentages, in tenths. */
  function SumTenths(rows: seq<DayRow>): int {
    if rows == [] then 0 else rows[0].tenths + SumTenths(rows[1..])
  }

  /** Only Saturday's badge is not highlighted, and the "Average" badge, the mean of the
      daily percentages to one decimal, reads 92.4. */
  lemma WeeklyBadges()
    ensures forall i :: 0 <= i < |Weekly| ==> (Highlighted(Weekly[i]) <==> i != 5)
    ensures RoundedQuotient(SumTenths(Weekly), |Weekly|, 924)
  {
    assert Weekly[1..][1..][1..][1..][1..][1..] == [];
  }

  /** Every monthly bar fits its 80px column. */
  lemma MonthlyBarsFit()
    ensures forall i :: 0 <= i < |Monthly| ==> 0 <= Monthly[i].tenths <= 1000
    ensures forall i :: 0 <= i < |Monthly| ==> MonthBarHeight(Monthly[i].tenths) <= 8000
  {
  }
}
