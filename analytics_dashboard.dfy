/** The analytics page: the category pie, this month against last month,
    the spending of the last 30 days and of the last four weeks, and the
    bar that is highlighted as the largest. The goal figures at the top of
    the page are those of the savings goal card (`SavingsGoals.StatusOf`). */
module AnalyticsDashboard {
  import opened Prelude
  import opened Calendar
  import opened ExpenseContext
  import opened CategoryIcon
  import opened ExpenseCalendar

  // ---------------------------------------------------------------------
  // Spending over whole days

  /** The expenses dated on the days `first` through `last`, added up one
      expense at a time: the reference by whole days for the charts. */
  function SpentOnDays(es: seq<Expense>, first: Day, last: Day): real
  {
    if es == [] then 0.0
    else (if first <= DayOf(es[0].date) <= last then es[0].amount else 0.0) + SpentOnDays(es[1..], first, last)
  }

  /** The expenses dated from instant `from` through instant `to`, both
      included, added up (`expense.date >= from && expense.date <= to`). */
  function SpentBetween(es: seq<Expense>, from: Instant, to: Instant): real
  {
    TotalExpenses(Filter(es, (e: Expense) => from <= e.date <= to))
  }

  /** From the midnight of one day to the last millisecond of another is
      those days, whole. */
  lemma WholeDays(first: Day, last: Day, t: Instant)
    ensures Midnight(first) <= t <= EndOfDay(last) <==> first <= DayOf(t) <= last
  {
    var d := DayOf(t);
    if first <= d {
      assert Midnight(first) <= Midnight(d) by {
        assert Midnight(d) - Midnight(first) == (d - first) * DayMs;
      }
    } else {
      assert Midnight(d) + DayMs <= Midnight(first) by {
        assert Midnight(first) - Midnight(d) == (first - d) * DayMs;
      }
    }
    if d <= last {
      assert Midnight(d) <= Midnight(last) by {
        assert Midnight(last) - Midnight(d) == (last - d) * DayMs;
      }
    } else {
      assert Midnight(last) + DayMs <= Midnight(d) by {
        assert Midnight(d) - Midnight(last) == (d - last) * DayMs;
      }
    }
  }

  /** Spending between a midnight and an end of day, as the source filters
      it, is the spending on the days between. */
  lemma {:induction false} SpentBetweenWholeDays(es: seq<Expense>, first: Day, last: Day)
    ensures SpentBetween(es, Midnight(first), EndOfDay(last)) == SpentOnDays(es, first, last)
  {
    if es != [] {
      SpentBetweenWholeDays(es[1..], first, last);
      WholeDays(first, last, es[0].date);
      var p := (e: Expense) => Midnight(first) <= e.date <= EndOfDay(last);
      var head := if p(es[0]) then [es[0]] else [];
      assert Filter(es, p) == head + Filter(es[1..], p);
      SumAppend(head, Filter(es[1..], p), AmountOf);
      assert Sum(head, AmountOf) == if p(es[0]) then es[0].amount else 0.0 by {
        if p(es[0]) {
          assert head[..0] == [];
        }
      }
    }
  }

  /** Consecutive stretches of days add up. */
  lemma {:induction false} SpentOnDaysSplit(es: seq<Expense>, first: Day, mid: Day, last: Day)
    requires first - 1 <= mid <= last
    ensures SpentOnDays(es, first, last) == SpentOnDays(es, first, mid) + SpentOnDays(es, mid + 1, last)
  {
    if es != [] {
      SpentOnDaysSplit(es[1..], first, mid, last);
    }
  }

  /** A single day's spending is that day's calendar total. */
  lemma {:induction false} SpentOnOneDay(es: seq<Expense>, d: Day)
    ensures SpentOnDays(es, d, d) == TotalForDate(es, d)
  {
    if es != [] {
      SpentOnOneDay(es[1..], d);
      var p := (e: Expense) => DayOf(e.date) == d;
      var head := if p(es[0]) then [es[0]] else [];
      assert ExpensesForDate(es, d) == Filter(es, p) == head + Filter(es[1..], p);
      assert ExpensesForDate(es[1..], d) == Filter(es[1..], p);
      SumAppend(head, Filter(es[1..], p), AmountOf);
      assert Sum(head, AmountOf) == if p(es[0]) then es[0].amount else 0.0 by {
        if p(es[0]) {
          assert head[..0] == [];
        }
      }
    }
  }

  /** No days, no spending. */
  lemma {:induction false} SpentOnNoDays(es: seq<Expense>, first: Day)
    ensures SpentOnDays(es, first, first - 1) == 0.0
  {
    if es != [] {
      SpentOnNoDays(es[1..], first);
    }
  }

  // ---------------------------------------------------------------------
  // Category pie

  /** A slice of the category pie. */
  datatype Slice = Slice(name: string, value: real, color: string, category: string)

  /** `getCategoryConfig(category)`, then the slice's colour
      `config.color.replace('text-', '').replace('category-', '')`: the
      display name of the category and its bare key as colour. */
  function SliceOf(c: Category, amount: real): (s: Slice)
    ensures s == Slice(ConfigOf(c).name, amount, c.Key(), c.Key())
  {
    var config := GetCategoryConfig(c.Key());
    StripColorPrefixes(c.Key());
    Slice(config.name, amount, ReplaceFirst(ReplaceFirst(config.color, "text-", ""), "category-", ""), c.Key())
  }

  /** Taking `text-` and then `category-` off a category's text class
      leaves its key. */
  lemma StripColorPrefixes(key: string)
    ensures ReplaceFirst(ReplaceFirst("text-category-" + key, "text-", ""), "category-", "") == key
  {
    var s := "text-category-" + key;
    assert s[..5] == "text-";
    var t := s[5..];
    assert t == "category-" + key;
    assert t[..9] == "category-";
    assert t[9..] == key;
  }

  /** Distinct categories have distinct keys. */
  lemma KeysDistinct(keys: seq<Category>)
    requires NoDuplicates(keys)
    ensures forall i, j :: 0 <= i < j < |keys| ==> keys[i].Key() != keys[j].Key()
  {
    forall i, j | 0 <= i < j < |keys| ensures keys[i].Key() != keys[j].Key() {
      KeyInjective(keys[i], keys[j]);
    }
  }

  /** `pieChartData`: `Object.entries(categoryTotals)` in key order, a
      slice for each key with its total. */
  function PieChartData(es: seq<Expense>): (r: seq<Slice>)
    ensures |r| == |CategoryTotals(es).keys|
    ensures forall i :: 0 <= i < |r| ==>
              var c := CategoryTotals(es).keys[i];
              c in CategoryTotals(es).amounts && r[i] == SliceOf(c, CategoryTotals(es).amounts[c])
  {
    var t := CategoryTotals(es);
    CategoryTotalsAddUp(es);
    seq(|t.keys|, i requires 0 <= i < |t.keys| => SliceOf(t.keys[i], t.amounts[t.keys[i]]))
  }

  /** The pie has one slice per category present, and no category twice;
      each slice carries the category's display name, its key as colour,
      and the sum of its amounts. */
  lemma PieChartDataSpec(es: seq<Expense>)
    ensures var r := PieChartData(es);
            && (forall i :: 0 <= i < |r| ==>
                  var c := CategoryTotals(es).keys[i];
                  Present(es, c) && r[i] == Slice(ConfigOf(c).name, CategorySum(es, c), c.Key(), c.Key()))
            && (forall c :: Present(es, c) ==> exists i :: 0 <= i < |r| && r[i].category == c.Key())
            && (forall i, j :: 0 <= i < j < |r| ==> r[i].category != r[j].category)
  {
    var r := PieChartData(es);
    var t := CategoryTotals(es);
    CategoryTotalsSpec(es);
    assert forall i :: 0 <= i < |r| ==> r[i].category == t.keys[i].Key();
    forall c | Present(es, c) ensures exists i :: 0 <= i < |r| && r[i].category == c.Key() {
      var i :| 0 <= i < |t.keys| && t.keys[i] == c;
      assert r[i].category == c.Key();
    }
    KeysDistinct(t.keys);
  }

  function SliceValue(s: Slice): real
  {
    s.value
  }

  /** The slices' values add up to the total of all expenses. */
  lemma PieAddsUp(es: seq<Expense>)
    ensures Sum(PieChartData(es), SliceValue) == TotalExpenses(es)
  {
    var t := CategoryTotals(es);
    CategoryTotalsAddUp(es);
    SlicesAddUp(PieChartData(es), t.keys, t.amounts);
  }

  lemma {:induction false} SlicesAddUp(slices: seq<Slice>, keys: seq<Category>, amounts: map<Category, real>)
    requires forall k :: k in keys ==> k in amounts
    requires |slices| == |keys|
    requires forall i :: 0 <= i < |keys| ==> slices[i].value == amounts[keys[i]]
    ensures Sum(slices, SliceValue) == SumOfValues(keys, amounts)
  {
    if keys != [] {
      SlicesAddUp(slices[1..], keys[1..], amounts);
      SumCons(slices[0], slices[1..], SliceValue);
      assert slices == [slices[0]] + slices[1..];
    }
  }

  // ---------------------------------------------------------------------
  // Month over month

  /** `currentMonthExpenses`: from `startOfMonth(now)` through
      `endOfMonth(now)`, the spending on the days of the current month. */
  function CurrentMonthTotal(es: seq<Expense>, now: Instant): (r: real)
    ensures r == SpentOnDays(es, StartOfMonth(DayOf(now)), EndOfMonth(DayOf(now)))
  {
    var today := DayOf(now);
    SpentBetweenWholeDays(es, StartOfMonth(today), EndOfMonth(today));
    SpentBetween(es, Midnight(StartOfMonth(today)), EndOfDay(EndOfMonth(today)))
  }

  /** The first day of the previous month, `new Date(year, month - 1)`. */
  function LastMonthDay(now: Instant): Day
  {
    JsDate(YearOf(DayOf(now)), MonthOf(DayOf(now)) - 1, 1)
  }

  /** `lastMonthExpenses`: the spending on the days of the month of
      `new Date(year, month - 1)`. */
  function LastMonthTotal(es: seq<Expense>, now: Instant): (r: real)
    ensures r == SpentOnDays(es, StartOfMonth(LastMonthDay(now)), EndOfMonth(LastMonthDay(now)))
  {
    var last := LastMonthDay(now);
    SpentBetweenWholeDays(es, StartOfMonth(last), EndOfMonth(last));
    SpentBetween(es, Midnight(StartOfMonth(last)), EndOfDay(EndOfMonth(last)))
  }

  /** `monthOverMonthChange` in percent: 0 without spending last month;
      otherwise positive, zero or negative as this month is above, equal to
      or below last month, by the difference's share of last month. */
  function MonthOverMonthChange(current: real, last: real): (r: real)
    ensures last <= 0.0 ==> r == 0.0
    ensures last > 0.0 ==> (r > 0.0 <==> current > last) && (r < 0.0 <==> current < last)
    ensures last > 0.0 ==> r * last == 100.0 * (current - last)
  {
    if last > 0.0 then
      var q := (current - last) / last;
      assert q * last == current - last;
      DivCompare(current - last, last, 0.0);
      assert q * 100.0 * last == 100.0 * (q * last);
      q * 100.0
    else 0.0
  }

  // ---------------------------------------------------------------------
  // The last 30 days

  /** A bar of the daily chart; its `MMM dd` label is not modelled. */
  datatype DailyBar = DailyBar(fullDate: Instant, amount: real)

  /** `dailySpendingData`: 30 bars, oldest first, bar `i` for the day
      `29 - i` days before today with that day's calendar total. */
  function DailySpending(es: seq<Expense>, now: Instant): (r: seq<DailyBar>)
    ensures |r| == 30
    ensures forall i :: 0 <= i < 30 ==> r[i] == DayBar(es, now, i)
  {
    seq(30, i => DayBar(es, now, i))
  }

  /** Bar `i`: the day `29 - i` days before today, with its calendar total. */
  function DayBar(es: seq<Expense>, now: Instant, i: int): (b: DailyBar)
    ensures DayOf(b.fullDate) == DayOf(now) - 29 + i
    ensures b.amount == TotalForDate(es, DayOf(now) - 29 + i)
  {
    var date := SubDays(now, 29 - i);
    DailyBar(date, TotalForDate(es, DayOf(date)))
  }

  function BarAmount(b: DailyBar): real
  {
    b.amount
  }

  /** The 30 bars add up to the spending on the last 30 days. */
  lemma DailyAddsUp(es: seq<Expense>, now: Instant)
    ensures Sum(DailySpending(es, now), BarAmount) == SpentOnDays(es, DayOf(now) - 29, DayOf(now))
  {
    var bars := DailySpending(es, now);
    var first := DayOf(now) - 29;
    forall i | 0 <= i < |bars| ensures bars[i].amount == SpentOnDays(es, first + i, first + i) {
      SpentOnOneDay(es, first + i);
    }
    DayBarsAddUp(es, bars, first);
  }

  lemma {:induction false} DayBarsAddUp(es: seq<Expense>, bars: seq<DailyBar>, first: Day)
    requires forall i :: 0 <= i < |bars| ==> bars[i].amount == SpentOnDays(es, first + i, first + i)
    ensures Sum(bars, BarAmount) == SpentOnDays(es, first, first + |bars| - 1)
  {
    if bars == [] {
      SpentOnNoDays(es, first);
    } else {
      var n := |bars|;
      var last := first + n - 1;
      var front := bars[..n - 1];
      DayBarsAddUp(es, front, first);
      assert Sum(bars, BarAmount) == Sum(front, BarAmount) + SpentOnDays(es, last, last);
      SpentOnDaysSplit(es, first, last - 1, last);
    }
  }

  // ---------------------------------------------------------------------
  // The last four weeks

  /** A bar of the weekly chart; its `MMM dd - MMM dd` range label is not
      modelled. */
  datatype WeekBar = WeekBar(week: string, amount: real, start: Instant, end: Instant)

  /** `Week ${n}` for a one-digit `n`. */
  function WeekLabel(n: int): string
    requires 0 <= n <= 9
  {
    "Week " + [(48 + n) as char]
  }

  /** The window of week `w` (0 is the latest) as written: `weekEnd` is
      `w * 7` days before the current moment and `weekStart` six days before
      that, at the same time of day. */
  function WeekWindowAsWritten(now: Instant, w: int): (Instant, Instant)
  {
    var weekEnd := SubDays(now, w * 7);
    (SubDays(weekEnd, 6), weekEnd)
  }

  /** Between the window of one week and that of the week before lies a
      day's worth of instants that no window holds: the instant just before
      the start of week `w` is in none of the four windows, though it lies
      within the four weeks' span. */
  lemma WeeksAsWrittenLeaveGaps(now: Instant, w: int)
    requires 0 <= w < 3
    ensures var t := WeekWindowAsWritten(now, w).0 - 1;
            && WeekWindowAsWritten(now, 3).0 <= t <= now
            && forall v :: 0 <= v < 4 ==> !(WeekWindowAsWritten(now, v).0 <= t <= WeekWindowAsWritten(now, v).1)
  {
  }

  /** For example at 09:00 on June 28th 2025 an expense dated midnight of
      June 22nd falls in no weekly bar. */
  lemma WeeksAsWrittenExample()
    ensures var now := Midnight(20267) + 9 * 3_600_000;
            forall v :: 0 <= v < 4 ==> !(WeekWindowAsWritten(now, v).0 <= Midnight(20261) <= WeekWindowAsWritten(now, v).1)
  {
  }

  /** Week `w` as intended: the seven whole days ending `w * 7` days before
      today. */
  function WeekWindow(now: Instant, w: int): (Instant, Instant)
  {
    var weekEnd := DayOf(SubDays(now, w * 7));
    (Midnight(weekEnd - 6), EndOfDay(weekEnd))
  }

  /** An instant is in the window of week `w` exactly when its day is one of
      that week's seven days. */
  lemma WeekWindowWholeDays(now: Instant, w: int)
    ensures var r := WeekWindow(now, w);
            forall t :: r.0 <= t <= r.1 <==> DayOf(now) - w * 7 - 6 <= DayOf(t) <= DayOf(now) - w * 7
  {
    var weekEnd := DayOf(SubDays(now, w * 7));
    forall t ensures Midnight(weekEnd - 6) <= t <= EndOfDay(weekEnd) <==> weekEnd - 6 <= DayOf(t) <= weekEnd {
      WholeDays(weekEnd - 6, weekEnd, t);
    }
  }

  /** The bar the loop pushes for week `w`, labelled `Week ${4 - w}`: the
      spending within the week's window as written. */
  function WeekOf(es: seq<Expense>, now: Instant, w: int): WeekBar
    requires 0 <= w < 4
  {
    var window := WeekWindowAsWritten(now, w);
    WeekBar(WeekLabel(4 - w), SpentBetween(es, window.0, window.1), window.0, window.1)
  }

  /** The bar of week `w` as intended: the spending of its seven whole days. */
  function WholeWeekOf(es: seq<Expense>, now: Instant, w: int): WeekBar
    requires 0 <= w < 4
  {
    var window := WeekWindow(now, w);
    WeekBar(WeekLabel(4 - w), SpentBetween(es, window.0, window.1), window.0, window.1)
  }

  /** Week `w`'s intended bar is labelled `Week ${4 - w}`, runs from midnight
      of its first day to the end of its last, and holds the spending of its
      seven days. */
  lemma WholeWeekOfSpec(es: seq<Expense>, now: Instant, w: int)
    requires 0 <= w < 4
    ensures var b := WholeWeekOf(es, now, w);
            && b.week == WeekLabel(4 - w)
            && b.amount == SpentOnDays(es, DayOf(now) - w * 7 - 6, DayOf(now) - w * 7)
            && b.start == Midnight(DayOf(now) - w * 7 - 6) && b.end == EndOfDay(DayOf(now) - w * 7)
            && DayOf(b.start) == DayOf(now) - w * 7 - 6 && DayOf(b.end) == DayOf(now) - w * 7
  {
    DayOfMidnight(DayOf(now) - w * 7 - 6);
    SpentBetweenWholeDays(es, DayOf(now) - w * 7 - 6, DayOf(now) - w * 7);
  }

  /** The four intended weeks, oldest first, cover the last 28 days exactly
      once: their amounts add up to the spending on those days. */
  lemma WeeksAddUp(es: seq<Expense>, now: Instant)
    ensures WholeWeekOf(es, now, 3).amount + WholeWeekOf(es, now, 2).amount
            + WholeWeekOf(es, now, 1).amount + WholeWeekOf(es, now, 0).amount
            == SpentOnDays(es, DayOf(now) - 27, DayOf(now))
  {
    WholeWeekOfSpec(es, now, 0);
    WholeWeekOfSpec(es, now, 1);
    WholeWeekOfSpec(es, now, 2);
    WholeWeekOfSpec(es, now, 3);
    FourWeeksSplit(es, DayOf(now), WholeWeekOf(es, now, 3), WholeWeekOf(es, now, 2),
                   WholeWeekOf(es, now, 1), WholeWeekOf(es, now, 0));
  }

  /** Four bars holding the spending of consecutive runs of seven days
      ending on `today` add up to the spending of those 28 days. */
  lemma FourWeeksSplit(es: seq<Expense>, today: Day, b3: WeekBar, b2: WeekBar, b1: WeekBar, b0: WeekBar)
    requires b3.amount == SpentOnDays(es, today - 27, today - 21)
    requires b2.amount == SpentOnDays(es, today - 20, today - 14)
    requires b1.amount == SpentOnDays(es, today - 13, today - 7)
    requires b0.amount == SpentOnDays(es, today - 6, today)
    ensures b3.amount + b2.amount + b1.amount + b0.amount == SpentOnDays(es, today - 27, today)
  {
    SpentOnDaysSplit(es, today - 27, today - 21, today);
    SpentOnDaysSplit(es, today - 20, today - 14, today);
    SpentOnDaysSplit(es, today - 13, today - 7, today);
  }

  /** `weeklySpendingData`: the loop pushes week 0 (the latest) to week 3,
      then the list is reversed. Bar `k` is week `3 - k`, labelled
      `Week ${k + 1}`; it ends `(3 - k) * 7` days before the current moment,
      starts six days before its end at the same time of day, and holds the
      spending between the two. Each bar starts one whole day after the
      previous bar ends, so the instants between them fall in no bar. */
  method WeeklySpending(es: seq<Expense>, now: Instant) returns (weeks: seq<WeekBar>)
    ensures |weeks| == 4
    ensures forall k :: 0 <= k < 4 ==> weeks[k] == WeekOf(es, now, 3 - k) && weeks[k].week == WeekLabel(k + 1)
    ensures forall k :: 0 <= k < 4 ==>
              weeks[k].end == now - (3 - k) * 7 * DayMs && weeks[k].start == weeks[k].end - 6 * DayMs
              && weeks[k].amount == SpentBetween(es, weeks[k].start, weeks[k].end)
    ensures forall k :: 0 <= k < 3 ==> weeks[k + 1].start == weeks[k].end + DayMs
  {
    var pushed := PushLatestWeeks(es, now);
    weeks := Reverse(pushed);
  }

  /** The loop of `weeklySpendingData`: week 0 (the latest) to week 3. */
  method PushLatestWeeks(es: seq<Expense>, now: Instant) returns (pushed: seq<WeekBar>)
    ensures pushed == LatestWeeks(es, now, 4)
  {
    pushed := [];
    for w := 0 to 4
      invariant pushed == LatestWeeks(es, now, w)
    {
      var weekEnd := SubDays(now, w * 7);
      var weekStart := SubDays(weekEnd, 6);
      var total := SpentBetween(es, weekStart, weekEnd);
      pushed := pushed + [WeekBar(WeekLabel(4 - w), total, weekStart, weekEnd)];
    }
  }

  /** The bars of weeks 0 to `n - 1`, latest first. */
  function LatestWeeks(es: seq<Expense>, now: Instant, n: int): (r: seq<WeekBar>)
    requires 0 <= n <= 4
    ensures |r| == n && forall j :: 0 <= j < n ==> r[j] == WeekOf(es, now, j)
  {
    if n == 0 then [] else LatestWeeks(es, now, n - 1) + [WeekOf(es, now, n - 1)]
  }

  // ---------------------------------------------------------------------
  // The highlighted bar

  /** `reduce((max, d) => d.amount > max ? d.amount : max, acc)`. */
  function MaxFrom(acc: real, amounts: seq<real>): (m: real)
    ensures m >= acc && forall i :: 0 <= i < |amounts| ==> m >= amounts[i]
    ensures m == acc || exists i :: 0 <= i < |amounts| && m == amounts[i]
    decreases |amounts|
  {
    if amounts == [] then acc
    else
      var m := MaxFrom(if amounts[0] > acc then amounts[0] else acc, amounts[1..]);
      assert (exists i :: 0 <= i < |amounts[1..]| && m == amounts[1..][i]) ==>
             exists i :: 0 <= i < |amounts| && m == amounts[i];
      m
  }

  /** `maxAmount`: at least 0 and at least every bar, and some bar's amount
      as soon as one is positive. */
  function MaxAmount(amounts: seq<real>): (m: real)
    ensures m >= 0.0 && forall i :: 0 <= i < |amounts| ==> m >= amounts[i]
    ensures (exists i :: 0 <= i < |amounts| && amounts[i] > 0.0) ==> exists i :: 0 <= i < |amounts| && m == amounts[i]
    ensures (forall i :: 0 <= i < |amounts| ==> amounts[i] <= 0.0) ==> m == 0.0
  {
    MaxFrom(0.0, amounts)
  }

  datatype BarMode = Daily | Weekly

  /** The amounts of the bars on show. */
  function BarAmounts(mode: BarMode, daily: seq<DailyBar>, weekly: seq<WeekBar>): (r: seq<real>)
    ensures mode == Daily ==> |r| == |daily| && forall i :: 0 <= i < |r| ==> r[i] == daily[i].amount
    ensures mode == Weekly ==> |r| == |weekly| && forall i :: 0 <= i < |r| ==> r[i] == weekly[i].amount
  {
    if mode == Daily then seq(|daily|, i requires 0 <= i < |daily| => daily[i].amount)
    else seq(|weekly|, i requires 0 <= i < |weekly| => weekly[i].amount)
  }
}
