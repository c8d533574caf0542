/** The month calendar of spending: the grid of days padded to whole weeks,
    each day's expenses and total, the colour band of a day's total, and the
    dots that stand for a day's expenses. */
module ExpenseCalendar {
  import opened Prelude
  import opened Calendar
  import opened ExpenseContext

  /** `eachDayOfInterval`: every day from `start` to `end`, in order. */
  function DaysBetween(start: Day, end: Day): (r: seq<Day>)
    ensures |r| == if end < start then 0 else end - start + 1
    ensures forall i :: 0 <= i < |r| ==> r[i] == start + i
  {
    if end < start then [] else seq(end - start + 1, i => start + i)
  }

  /** A Sunday-to-Saturday stretch of days covers whole weeks. */
  lemma WholeWeeks(s: Day, e: Day)
    requires Weekday(s) == 0 && Weekday(e) == 6
    ensures (e - s + 1) % 7 == 0
  {
    var qs := (s + 4) / 7;
    var qe := (e + 4) / 7;
    assert s + 4 == 7 * qs;
    assert e + 4 == 7 * qe + 6;
    assert e - s + 1 == 7 * (qe - qs + 1);
  }

  /** `calendarDays`: the days of the month of `current`, preceded by the
      days of the previous month back to Sunday and followed by those of the
      next month up to Saturday. */
  method CalendarDays(current: Instant) returns (days: seq<Day>)
    ensures var start := StartOfMonth(DayOf(current));
            var end := EndOfMonth(DayOf(current));
            && |days| == Weekday(start) + (end - start + 1) + (6 - Weekday(end))
            && (forall i :: 0 <= i < |days| ==> days[i] == StartOfWeek(start) + i)
            && days[Weekday(start)..Weekday(start) + (end - start + 1)] == DaysBetween(start, end)
            && days[0] == StartOfWeek(start) && days[|days| - 1] == EndOfWeek(end)
            && |days| % 7 == 0
  {
    var start := StartOfMonth(DayOf(current));
    var end := EndOfMonth(DayOf(current));
    days := PaddedToWeeks(start, end);
  }

  /** The grid for the days `start` to `end`: padding days before `start`
      back to Sunday (as many as its weekday), the days themselves, and
      padding days after `end` up to Saturday. */
  method PaddedToWeeks(start: Day, end: Day) returns (days: seq<Day>)
    requires start <= end
    ensures |days| == Weekday(start) + (end - start + 1) + (6 - Weekday(end))
    ensures forall i :: 0 <= i < |days| ==> days[i] == StartOfWeek(start) + i
    ensures days[Weekday(start)..Weekday(start) + (end - start + 1)] == DaysBetween(start, end)
    ensures days[0] == StartOfWeek(start) && days[|days| - 1] == EndOfWeek(end)
    ensures Weekday(days[0]) == 0 && Weekday(days[|days| - 1]) == 6
    ensures |days| % 7 == 0
  {
    var daysInMonth := DaysBetween(start, end);
    var startPadding := Weekday(start);
    var paddingDays: seq<Day> := [];
    if startPadding > 0 {
      paddingDays := DaysBetween(start - startPadding, start - 1);
    }
    var endPadding := 6 - Weekday(end);
    var paddingEndDays: seq<Day> := [];
    if endPadding > 0 {
      paddingEndDays := DaysBetween(end + 1, end + endPadding);
    }
    days := paddingDays + daysInMonth + paddingEndDays;
    GridDays(start, end, paddingDays, daysInMonth, paddingEndDays);
    GridShape(start, end, days);
  }

  /** The padding before, the days themselves and the padding after run on
      day by day from the Sunday on or before `start`. */
  lemma GridDays(start: Day, end: Day, before: seq<Day>, month: seq<Day>, after: seq<Day>)
    requires start <= end
    requires before == DaysBetween(start - Weekday(start), start - 1)
    requires month == DaysBetween(start, end)
    requires after == DaysBetween(end + 1, end + (6 - Weekday(end)))
    ensures |before| == Weekday(start) && |month| == end - start + 1 && |after| == 6 - Weekday(end)
    ensures forall i :: 0 <= i < |before + month + after| ==> (before + month + after)[i] == StartOfWeek(start) + i
  {
    Consecutive(before, month, after, StartOfWeek(start));
  }

  /** A run of days from the Sunday on or before `start` to the Saturday on
      or after `end` holds the days `start` to `end` after as many padding
      days as `start`'s weekday, and covers whole weeks. */
  lemma GridShape(start: Day, end: Day, days: seq<Day>)
    requires start <= end
    requires |days| == Weekday(start) + (end - start + 1) + (6 - Weekday(end))
    requires forall i :: 0 <= i < |days| ==> days[i] == StartOfWeek(start) + i
    ensures days[Weekday(start)..Weekday(start) + (end - start + 1)] == DaysBetween(start, end)
    ensures days[0] == StartOfWeek(start) && days[|days| - 1] == EndOfWeek(end)
    ensures Weekday(days[0]) == 0 && Weekday(days[|days| - 1]) == 6
    ensures |days| % 7 == 0
  {
    var w := Weekday(start);
    var m := DaysBetween(start, end);
    assert days[w..w + |m|] == m by {
      forall i | 0 <= i < |m| ensures days[w..w + |m|][i] == m[i] {
        assert days[w + i] == StartOfWeek(start) + w + i;
      }
    }
    WholeWeeks(StartOfWeek(start), EndOfWeek(end));
  }

  /** Three runs of consecutive days, each picking up where the previous
      one stops, make one run. */
  lemma Consecutive(a: seq<Day>, b: seq<Day>, c: seq<Day>, first: Day)
    requires forall i :: 0 <= i < |a| ==> a[i] == first + i
    requires forall i :: 0 <= i < |b| ==> b[i] == first + |a| + i
    requires forall i :: 0 <= i < |c| ==> c[i] == first + |a| + |b| + i
    ensures forall i :: 0 <= i < |a + b + c| ==> (a + b + c)[i] == first + i
  {
    var days := a + b + c;
    forall i | 0 <= i < |days| ensures days[i] == first + i {
      if i < |a| {
        assert days[i] == a[i];
      } else if i < |a| + |b| {
        assert days[i] == b[i - |a|];
      } else {
        assert days[i] == c[i - |a| - |b|];
      }
    }
  }

  /** `getExpensesForDate`: the expenses dated on that day, in order. */
  function ExpensesForDate(es: seq<Expense>, d: Day): (r: seq<Expense>)
    ensures IsSubsequence(r, es)
    ensures forall e :: e in r <==> e in es && DayOf(e.date) == d
    ensures |r| == Count(es, (e: Expense) => DayOf(e.date) == d)
  {
    var p := (e: Expense) => DayOf(e.date) == d;
    FilterIsSubsequence(es, p);
    FilterLength(es, p);
    FilterMembers(es, p);
    Filter(es, p)
  }

  /** `getTotalForDate`: the amounts of that day's expenses added up from 0. */
  function TotalForDate(es: seq<Expense>, d: Day): real
  {
    Sum(ExpensesForDate(es, d), AmountOf)
  }

  /** The total grows by an expense's amount exactly when it is on that day,
      so it is the sum of the amounts dated that day. */
  lemma TotalForDateSnoc(es: seq<Expense>, e: Expense, d: Day)
    ensures TotalForDate(es + [e], d) == TotalForDate(es, d) + (if DayOf(e.date) == d then e.amount else 0.0)
  {
    var p := (x: Expense) => DayOf(x.date) == d;
    FilterAppend(es, [e], p);
    SumAppend(Filter(es, p), Filter([e], p), AmountOf);
    assert Filter([e], p) == if p(e) then [e] else [];
  }

  /** A day without expenses totals 0. */
  lemma TotalForEmptyDate(es: seq<Expense>, d: Day)
    requires forall i :: 0 <= i < |es| ==> DayOf(es[i].date) != d
    ensures ExpensesForDate(es, d) == [] && TotalForDate(es, d) == 0.0
  {
    FilterNone(es, (x: Expense) => DayOf(x.date) == d);
  }

  /** The spending band of a day's total that `getIntensityColor` picks:
      0 for nothing, then below 20, 50, 100 and 200, then the rest. A
      negative total falls in the first band after 0. */
  function IntensityBand(amount: real): (b: nat)
    ensures b <= 5
    ensures b == 0 <==> amount == 0.0
  {
    if amount == 0.0 then 0
    else if amount < 20.0 then 1
    else if amount < 50.0 then 2
    else if amount < 100.0 then 3
    else if amount < 200.0 then 4
    else 5
  }

  /** A larger total never gets a lower band. */
  lemma IntensityMonotone(a: real, b: real)
    requires 0.0 <= a <= b
    ensures IntensityBand(a) <= IntensityBand(b)
  {
  }

  /** The band's background classes. */
  function BandColor(b: nat): string
    requires b <= 5
  {
    match b
    case 0 => "bg-gray-50 dark:bg-[#23272f]"
    case 1 => "bg-sage-light/20 dark:bg-green-900"
    case 2 => "bg-sage-light/40 dark:bg-green-800"
    case 3 => "bg-sage-light/60 dark:bg-green-700"
    case 4 => "bg-sage/60 dark:bg-green-600"
    case _ => "bg-sage-dark/80 dark:bg-green-400"
  }

  /** `getIntensityColor`. */
  function IntensityColor(amount: real): string
  {
    BandColor(IntensityBand(amount))
  }

  /** Two totals share a colour exactly when they share a band. */
  lemma IntensityColorSameBand(a: real, b: real)
    ensures IntensityColor(a) == IntensityColor(b) <==> IntensityBand(a) == IntensityBand(b)
  {
    BandColorInjective(IntensityBand(a), IntensityBand(b));
  }

  lemma BandColorInjective(a: nat, b: nat)
    requires a <= 5 && b <= 5
    ensures BandColor(a) == BandColor(b) <==> a == b
  {
    BandOfColorInverts(a);
    BandOfColorInverts(b);
  }

  /** The band a colour stands for, read off the third character from the
      end of its classes. */
  function BandOfColor(color: string): nat
  {
    if |color| < 3 then 0
    else match color[|color| - 3]
      case '9' => 1
      case '8' => 2
      case '7' => 3
      case '6' => 4
      case '4' => 5
      case _ => 0
  }

  /** Each band's colour gives the band back. */
  lemma BandOfColorInverts(b: nat)
    requires b <= 5
    ensures BandOfColor(BandColor(b)) == b
  {
  }

  /** How a day's expenses are drawn: a dot for each of the first three and
      a "+n" marker for the rest. */
  datatype DayDots = DayDots(dots: seq<Expense>, more: Option<nat>)

  function DotsFor(dayExpenses: seq<Expense>): (r: DayDots)
    ensures |r.dots| <= 3 && |r.dots| <= |dayExpenses| && r.dots == dayExpenses[..|r.dots|]
    ensures r.more.Some? <==> |dayExpenses| > 3
    ensures |r.dots| + (if r.more.Some? then r.more.value else 0) == |dayExpenses|
  {
    if |dayExpenses| > 3 then DayDots(dayExpenses[..3], Some(|dayExpenses| - 3))
    else DayDots(dayExpenses, None)
  }

  /** The calendar's selection state. */
  class View {
    var selectedDate: Option<Day>
    var isModalOpen: bool

    constructor ()
      ensures selectedDate.None? && !isModalOpen
    {
      selectedDate := None;
      isModalOpen := false;
    }

    /** `handleDateClick`: selects the day and opens its details. */
    method HandleDateClick(d: Day)
      modifies this
      ensures selectedDate == Some(d) && isModalOpen
    {
      selectedDate := Some(d);
      isModalOpen := true;
    }

    /** `selectedDateExpenses`: nothing until a day is selected. */
    function SelectedExpenses(es: seq<Expense>): (r: seq<Expense>)
      reads this
      ensures selectedDate.None? ==> r == []
      ensures selectedDate.Some? ==> r == ExpensesForDate(es, selectedDate.value)
      ensures selectedDate.Some? ==> IsSubsequence(r, es)
      ensures selectedDate.Some? ==> forall e :: e in r <==> e in es && DayOf(e.date) == selectedDate.value
    {
      if selectedDate.Some? then ExpensesForDate(es, selectedDate.value) else []
    }

    /** `selectedDateTotal`. */
    function SelectedTotal(es: seq<Expense>): (t: real)
      reads this
      ensures t == Sum(SelectedExpenses(es), AmountOf)
    {
      if selectedDate.Some? then TotalForDate(es, selectedDate.value) else 0.0
    }
  }
}
