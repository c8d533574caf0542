/** The expense history: the list shown under the chosen category, date
    range and order, and the date-range presets that set the range. */
module ExpenseList {
  import opened Prelude
  import opened Calendar
  import opened ExpenseContext

  /** A date range as the list keeps it; `to` names the last day shown. */
  datatype DateRange = DateRange(from: Instant, to: Instant)

  datatype SortBy = ByDate | ByAmount

  datatype DateFilter = Last7 | ThisMonth | Custom

  /** The date test of `filteredAndSortedExpenses`: on or after `from` and
      before `to` moved one day on (`setDate(getDate() + 1)`). */
  predicate InDateRange(range: DateRange, t: Instant)
  {
    range.from <= t < range.to + DayMs
  }

  /** The category test: `'all'` keeps everything, any other text keeps the
      expenses whose category key it is. */
  predicate InCategory(category: string, e: Expense)
  {
    category == "all" || e.category.Key() == category
  }

  /** What an expense is ordered by, newest or largest first. */
  function SortKey(e: Expense, order: SortBy): real
  {
    match order
    case ByDate => e.date as real
    case ByAmount => e.amount
  }

  predicate SortedDescending(s: seq<Expense>, order: SortBy)
  {
    forall i, j :: 0 <= i < j < |s| ==> SortKey(s[i], order) >= SortKey(s[j], order)
  }

  /** Puts `x` in front of the first entry whose key is not larger, so that
      entries with equal keys keep their order. */
  function Insert(x: Expense, s: seq<Expense>, order: SortBy): (r: seq<Expense>)
    ensures multiset(r) == multiset(s) + multiset{x}
    ensures |r| == |s| + 1
  {
    if s == [] || SortKey(s[0], order) <= SortKey(x, order) then [x] + s
    else
      assert s == [s[0]] + s[1..];
      [s[0]] + Insert(x, s[1..], order)
  }

  /** No entry's key is above `k`. */
  predicate AllAtMost(s: seq<Expense>, order: SortBy, k: real)
  {
    forall j :: 0 <= j < |s| ==> SortKey(s[j], order) <= k
  }

  lemma {:induction false} InsertAtMost(x: Expense, s: seq<Expense>, order: SortBy, k: real)
    requires AllAtMost(s, order, k) && SortKey(x, order) <= k
    ensures AllAtMost(Insert(x, s, order), order, k)
  {
    if s != [] && SortKey(x, order) < SortKey(s[0], order) {
      InsertAtMost(x, s[1..], order, k);
      assert Insert(x, s, order) == [s[0]] + Insert(x, s[1..], order);
    }
  }

  lemma {:induction false} InsertSorted(x: Expense, s: seq<Expense>, order: SortBy)
    requires SortedDescending(s, order)
    ensures SortedDescending(Insert(x, s, order), order)
  {
    if s != [] && SortKey(x, order) < SortKey(s[0], order) {
      var t := Insert(x, s[1..], order);
      InsertSorted(x, s[1..], order);
      assert AllAtMost(s[1..], order, SortKey(s[0], order)) by {
        forall j | 0 <= j < |s[1..]| ensures SortKey(s[1..][j], order) <= SortKey(s[0], order) {
          assert s[1..][j] == s[j + 1];
        }
      }
      InsertAtMost(x, s[1..], order, SortKey(s[0], order));
      assert Insert(x, s, order) == [s[0]] + t;
    }
  }

  lemma MultisetCons(s: seq<Expense>)
    requires s != []
    ensures multiset(s) == multiset(s[1..]) + multiset{s[0]}
  {
    assert s == [s[0]] + s[1..];
  }

  /** `filtered.sort(...)` with a comparator that puts larger keys first:
      a stable sort into non-increasing key order. */
  function SortDescending(s: seq<Expense>, order: SortBy): (r: seq<Expense>)
    ensures multiset(r) == multiset(s)
    ensures |r| == |s|
    ensures SortedDescending(r, order)
  {
    if s == [] then []
    else
      var rest := SortDescending(s[1..], order);
      InsertSorted(s[0], rest, order);
      MultisetCons(s);
      Insert(s[0], rest, order)
  }

  /** Whether an expense passes both filters. */
  predicate Shown(e: Expense, category: string, range: DateRange)
  {
    InCategory(category, e) && InDateRange(range, e.date)
  }

  /** `filteredAndSortedExpenses`: a copy filtered by category unless
      `'all'`, then by date range, then sorted. The result holds exactly the
      expenses passing both filters, as many times as in the list, in
      non-increasing order of the chosen key. */
  function VisibleExpenses(es: seq<Expense>, category: string, order: SortBy, range: DateRange): (r: seq<Expense>)
    ensures multiset(r) == multiset(Filter(es, (e: Expense) => Shown(e, category, range)))
    ensures SortedDescending(r, order)
    ensures forall e :: e in r <==> e in es && Shown(e, category, range)
    ensures |r| <= |es|
  {
    var byCategory := if category == "all" then es else Filter(es, (e: Expense) => e.category.Key() == category);
    var byDate := Filter(byCategory, (e: Expense) => InDateRange(range, e.date));
    ShownIsBothFilters(es, category, range);
    FilterMembers(es, (e: Expense) => Shown(e, category, range));
    var r := SortDescending(byDate, order);
    SameMembers(r, Filter(es, (e: Expense) => Shown(e, category, range)));
    r
  }

  lemma ShownIsBothFilters(es: seq<Expense>, category: string, range: DateRange)
    ensures Filter(if category == "all" then es else Filter(es, (e: Expense) => e.category.Key() == category),
                   (e: Expense) => InDateRange(range, e.date))
            == Filter(es, (e: Expense) => Shown(e, category, range))
  {
    var inRange := (e: Expense) => InDateRange(range, e.date);
    var shown := (e: Expense) => Shown(e, category, range);
    if category == "all" {
      FilterSame(es, inRange, shown);
    } else {
      FilterFilter(es, (e: Expense) => e.category.Key() == category, inRange, shown);
    }
  }

  /** The "n of m" badge: never more shown than there are expenses. */
  lemma ShownCountBounded(es: seq<Expense>, category: string, order: SortBy, range: DateRange)
    ensures |VisibleExpenses(es, category, order, range)| <= |es|
    ensures category == "all" && (forall i :: 0 <= i < |es| ==> InDateRange(range, es[i].date)) ==>
              multiset(VisibleExpenses(es, category, order, range)) == multiset(es)
  {
    if category == "all" && (forall i :: 0 <= i < |es| ==> InDateRange(range, es[i].date)) {
      FilterAll(es, (e: Expense) => Shown(e, category, range));
    }
  }

  /** The "Last 7 Days" preset as written: six days before the current
      moment, to the current moment. With the one-day extension of the end
      bound, what it shows is every moment from exactly six days before now
      to just under a day after now, not whole calendar days. */
  function Last7RangeAsWritten(now: Instant): (r: DateRange)
    ensures forall t :: InDateRange(r, t) <==> now - 6 * DayMs <= t < now + DayMs
  {
    DateRange(SubDays(now, 6), now)
  }

  /** The "This Month" preset as written: `startOfMonth` to `endOfMonth`,
      the month's last millisecond. With the one-day extension of the end
      bound, what it shows runs from the month's first midnight up to, not
      including, the last millisecond of the next month's first day. */
  function ThisMonthRangeAsWritten(now: Instant): (r: DateRange)
    ensures forall t :: InDateRange(r, t) <==>
              Midnight(StartOfMonth(DayOf(now))) <= t < EndOfDay(EndOfMonth(DayOf(now)) + 1)
  {
    DateRange(Midnight(StartOfMonth(DayOf(now))), EndOfDay(EndOfMonth(DayOf(now))))
  }

  /** With "This Month" as written, the one-day extension of the end bound
      reaches past the month: an expense stamped at midnight on the first of
      the next month is shown. Unless the current moment is exactly
      midnight, the same holds for "Last 7 Days" and tomorrow, and that
      preset also drops an expense stamped at midnight six days back, so it
      shows six days of such expenses. */
  lemma PresetsAsWrittenOverreach(now: Instant)
    ensures InDateRange(ThisMonthRangeAsWritten(now), Midnight(EndOfMonth(DayOf(now)) + 1))
    ensures DayOf(Midnight(EndOfMonth(DayOf(now)) + 1)) > EndOfMonth(DayOf(now))
    ensures now != Midnight(DayOf(now)) ==> InDateRange(Last7RangeAsWritten(now), Midnight(DayOf(now) + 1))
    ensures now != Midnight(DayOf(now)) ==> !InDateRange(Last7RangeAsWritten(now), Midnight(DayOf(now) - 6))
  {
    DayOfMidnight(EndOfMonth(DayOf(now)) + 1);
  }

  /** For example at 09:00 on June 10th 2025 "Last 7 Days" as written
      leaves out the expenses of June 4th and takes in those of June 11th. */
  lemma Last7AsWrittenExample()
    ensures CivilFromDays(20249) == Civil(2025, 6, 10)
    ensures CivilFromDays(20243) == Civil(2025, 6, 4)
    ensures CivilFromDays(20250) == Civil(2025, 6, 11)
    ensures var now := Midnight(20249) + 9 * 3_600_000;
            !InDateRange(Last7RangeAsWritten(now), Midnight(20243))
            && InDateRange(Last7RangeAsWritten(now), Midnight(20250))
  {
    JuneCivil(10);
    JuneCivil(4);
    JuneCivil(11);
    var now := Midnight(20249) + 9 * 3_600_000;
    assert DayOf(now) == 20249;
    PresetsAsWrittenOverreach(now);
  }

  /** "Last 7 Days" as intended: today and the six days before, whole days. */
  function Last7Range(now: Instant): (r: DateRange)
    ensures forall t :: InDateRange(r, t) <==> DayOf(now) - 6 <= DayOf(t) <= DayOf(now)
  {
    DateRange(Midnight(DayOf(now) - 6), Midnight(DayOf(now)))
  }

  /** "This Month" as intended: every day of the current month and no other. */
  function ThisMonthRange(now: Instant): (r: DateRange)
    ensures forall t :: InDateRange(r, t) <==> StartOfMonth(DayOf(now)) <= DayOf(t) <= EndOfMonth(DayOf(now))
  {
    DateRange(Midnight(StartOfMonth(DayOf(now))), Midnight(EndOfMonth(DayOf(now))))
  }

  /** The list's filter and sort controls. */
  class View {
    var filterCategory: string
    var sortBy: SortBy
    var dateRange: DateRange
    var dateFilter: DateFilter

    /** All categories, newest first, this month. */
    constructor (now: Instant)
      ensures filterCategory == "all" && sortBy == ByDate
      ensures dateRange == ThisMonthRangeAsWritten(now) && dateFilter == ThisMonth
    {
      filterCategory := "all";
      sortBy := ByDate;
      dateRange := ThisMonthRangeAsWritten(now);
      dateFilter := ThisMonth;
    }

    /** What the list shows of `expenses`. */
    function Visible(expenses: seq<Expense>): (r: seq<Expense>)
      reads this
      ensures r == VisibleExpenses(expenses, filterCategory, sortBy, dateRange)
      ensures SortedDescending(r, sortBy)
      ensures forall e :: e in r <==> e in expenses && Shown(e, filterCategory, dateRange)
      ensures |r| <= |expenses|
    {
      VisibleExpenses(expenses, filterCategory, sortBy, dateRange)
    }

    method SetFilterCategory(category: string)
      modifies this
      ensures filterCategory == category
      ensures sortBy == old(sortBy) && dateRange == old(dateRange) && dateFilter == old(dateFilter)
    {
      filterCategory := category;
    }

    method SetSortBy(order: SortBy)
      modifies this
      ensures sortBy == order
      ensures filterCategory == old(filterCategory) && dateRange == old(dateRange) && dateFilter == old(dateFilter)
    {
      sortBy := order;
    }

    /** A complete range picked on the calendar: it becomes the range and
        the filter is marked `'custom'`. */
    method SetCustomRange(range: DateRange)
      modifies this
      ensures dateRange == range && dateFilter == Custom
      ensures filterCategory == old(filterCategory) && sortBy == old(sortBy)
    {
      dateRange := range;
      dateFilter := Custom;
    }

    /** `handleDateFilter`: the two presets set their range, `'custom'`
        only records the choice. */
    method HandleDateFilter(filter: DateFilter, now: Instant)
      modifies this
      ensures dateFilter == filter
      ensures filter == Last7 ==> dateRange == Last7RangeAsWritten(now)
      ensures filter == ThisMonth ==> dateRange == ThisMonthRangeAsWritten(now)
      ensures filter == Custom ==> dateRange == old(dateRange)
      ensures filter == Last7 ==>
                forall t :: InDateRange(dateRange, t) <==> now - 6 * DayMs <= t < now + DayMs
      ensures filterCategory == old(filterCategory) && sortBy == old(sortBy)
    {
      dateFilter := filter;
      if filter == Last7 {
        dateRange := Last7RangeAsWritten(now);
      } else if filter == ThisMonth {
        dateRange := ThisMonthRangeAsWritten(now);
      }
    }

    /** The empty state's "Reset Date Range" button. */
    method ResetDateRange(now: Instant)
      modifies this
      ensures dateRange == ThisMonthRangeAsWritten(now) && dateFilter == ThisMonth
      ensures filterCategory == old(filterCategory) && sortBy == old(sortBy)
    {
      dateRange := ThisMonthRangeAsWritten(now);
      dateFilter := ThisMonth;
    }
  }
}
