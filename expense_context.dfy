/** The expense store: the signed-in user's expenses and savings goals as the
    application keeps them in memory, the list updates it applies after each
    remote call succeeds, and the aggregations every view derives from the
    list (total, per-category totals, top category, date and month filters). */
module ExpenseContext {
  import opened Prelude
  import opened Calendar

  /** The six spending categories and their string keys. */
  datatype Category = Food | Transport | Entertainment | Shopping | Health | Other
  {
    function Key(): string
    {
      match this
      case Food => "food"
      case Transport => "transport"
      case Entertainment => "entertainment"
      case Shopping => "shopping"
      case Health => "health"
      case Other => "other"
    }
  }

  /** Distinct categories have distinct keys. */
  lemma KeyInjective(a: Category, b: Category)
    ensures a.Key() == b.Key() <==> a == b
  {
  }

  datatype Expense = Expense(id: string, amount: real, category: Category,
                             description: string, date: Instant, note: Option<string>)

  /** An expense as the form hands it over: everything but the id. */
  datatype NewExpense = NewExpense(amount: real, category: Category, description: string,
                                   date: Instant, note: Option<string>)

  /** `Partial<Expense>`: a present field replaces the entry's field; `note`
      may be present with the value `undefined` (`Some(None)`), which clears it. */
  datatype ExpensePatch = ExpensePatch(id: Option<string>, amount: Option<real>,
                                       category: Option<Category>, description: Option<string>,
                                       date: Option<Instant>, note: Option<Option<string>>)

  datatype SavingsGoal = SavingsGoal(id: string, name: string, targetAmount: real,
                                     currentAmount: real, deadline: Instant,
                                     createdAt: Instant, color: Option<string>)

  /** A goal as the views hand it over: everything but the id and the creation time. */
  datatype NewGoal = NewGoal(name: string, targetAmount: real, currentAmount: real,
                             deadline: Instant, color: Option<string>)

  datatype GoalPatch = GoalPatch(id: Option<string>, name: Option<string>,
                                 targetAmount: Option<real>, currentAmount: Option<real>,
                                 deadline: Option<Instant>, createdAt: Option<Instant>,
                                 color: Option<Option<string>>)

  predicate DeadlineIn(g: SavingsGoal, month: int, year: int)
  {
    MonthOf(DayOf(g.deadline)) == month && YearOf(DayOf(g.deadline)) == year
  }

  /** `savingsGoals.find(...)` on the deadline's month and year: the first
      goal whose deadline falls in that month, if any. */
  function GoalOfMonth(goals: seq<SavingsGoal>, month: int, year: int): (r: Option<SavingsGoal>)
    ensures r.None? <==> forall i :: 0 <= i < |goals| ==> !DeadlineIn(goals[i], month, year)
    ensures r.Some? ==> exists i :: 0 <= i < |goals| && goals[i] == r.value
                                    && DeadlineIn(goals[i], month, year)
                                    && forall j :: 0 <= j < i ==> !DeadlineIn(goals[j], month, year)
  {
    Find(goals, (g: SavingsGoal) => DeadlineIn(g, month, year))
  }

  /** What the data store assigns to an inserted goal. */
  datatype GoalRow = GoalRow(id: string, createdAt: Instant)

  /** An expense row as the data store returns it; `date` is `None` when the
      stored text does not parse as a date. */
  datatype ExpenseRow = ExpenseRow(id: string, amount: real, category: Category,
                                   description: string, date: Option<Day>, note: Option<string>)

  /** How a store operation ended: skipped because nobody is signed in,
      applied, or rejected by the data store (the promise rejects). */
  datatype CallOutcome = NotSignedIn | Done | Threw(error: string)

  function OutcomeOf<T>(user: Option<string>, response: Response<T>): CallOutcome
  {
    if user.None? then NotSignedIn
    else if response.Failure? then Threw(response.error)
    else Done
  }

  // ---------------------------------------------------------------------
  // Record merges (`{ ...entry, ...patch }`)

  function MergeExpense(e: Expense, d: ExpensePatch): Expense
  {
    Expense(if d.id.Some? then d.id.value else e.id,
            if d.amount.Some? then d.amount.value else e.amount,
            if d.category.Some? then d.category.value else e.category,
            if d.description.Some? then d.description.value else e.description,
            if d.date.Some? then d.date.value else e.date,
            if d.note.Some? then d.note.value else e.note)
  }

  function MergeGoal(g: SavingsGoal, d: GoalPatch): SavingsGoal
  {
    SavingsGoal(if d.id.Some? then d.id.value else g.id,
                if d.name.Some? then d.name.value else g.name,
                if d.targetAmount.Some? then d.targetAmount.value else g.targetAmount,
                if d.currentAmount.Some? then d.currentAmount.value else g.currentAmount,
                if d.deadline.Some? then d.deadline.value else g.deadline,
                if d.createdAt.Some? then d.createdAt.value else g.createdAt,
                if d.color.Some? then d.color.value else g.color)
  }

  /** Merging the same patch twice changes nothing more than merging it once,
      and merging a patch that repeats the entry's own fields changes nothing. */
  lemma MergeExpenseIdempotent(e: Expense, d: ExpensePatch)
    ensures MergeExpense(MergeExpense(e, d), d) == MergeExpense(e, d)
    ensures MergeExpense(e, ExpensePatch(Some(e.id), Some(e.amount), Some(e.category),
                                         Some(e.description), Some(e.date), Some(e.note))) == e
  {
  }

  // ---------------------------------------------------------------------
  // List updates applied after a successful remote call

  /** `prev.map(x => x.id === id ? { ...x, ...patch } : x)` for expenses. */
  function UpdateExpenseById(es: seq<Expense>, id: string, d: ExpensePatch): (r: seq<Expense>)
    ensures |r| == |es|
    ensures forall i :: 0 <= i < |es| ==>
              r[i] == if es[i].id == id then MergeExpense(es[i], d) else es[i]
  {
    if es == [] then []
    else [if es[0].id == id then MergeExpense(es[0], d) else es[0]]
         + UpdateExpenseById(es[1..], id, d)
  }

  /** `prev.filter(x => x.id !== id)` for expenses: exactly the entries with
      another id, in their original order. */
  function DeleteExpenseById(es: seq<Expense>, id: string): (r: seq<Expense>)
    ensures IsSubsequence(r, es)
    ensures forall i :: 0 <= i < |r| ==> r[i].id != id
    ensures forall i :: 0 <= i < |es| && es[i].id != id ==> es[i] in r
    ensures |r| == |es| - Count(es, (e: Expense) => e.id == id)
  {
    var keep := (e: Expense) => e.id != id;
    FilterIsSubsequence(es, keep);
    FilterLength(es, keep);
    CountComplement(es, keep, (e: Expense) => e.id == id);
    Filter(es, keep)
  }

  lemma {:induction false} CountComplement<T>(s: seq<T>, p: T -> bool, q: T -> bool)
    requires forall x :: p(x) == !q(x)
    ensures Count(s, p) == |s| - Count(s, q)
  {
    if s != [] {
      CountComplement(s[1..], p, q);
    }
  }

  function UpdateGoalById(gs: seq<SavingsGoal>, id: string, d: GoalPatch): (r: seq<SavingsGoal>)
    ensures |r| == |gs|
    ensures forall i :: 0 <= i < |gs| ==>
              r[i] == if gs[i].id == id then MergeGoal(gs[i], d) else gs[i]
  {
    if gs == [] then []
    else [if gs[0].id == id then MergeGoal(gs[0], d) else gs[0]] + UpdateGoalById(gs[1..], id, d)
  }

  function DeleteGoalById(gs: seq<SavingsGoal>, id: string): (r: seq<SavingsGoal>)
    ensures IsSubsequence(r, gs)
    ensures forall i :: 0 <= i < |r| ==> r[i].id != id
    ensures forall i :: 0 <= i < |gs| && gs[i].id != id ==> gs[i] in r
    ensures |r| == |gs| - Count(gs, (g: SavingsGoal) => g.id == id)
  {
    var keep := (g: SavingsGoal) => g.id != id;
    FilterIsSubsequence(gs, keep);
    FilterLength(gs, keep);
    CountComplement(gs, keep, (g: SavingsGoal) => g.id == id);
    Filter(gs, keep)
  }

  /** The date every new expense is stored with: the text `2025-06-01`. */
  const June1st2025: Day := JsDate(2025, 5, 1)

  lemma June1st2025Value()
    ensures June1st2025 == 20240
    ensures CivilFromDays(June1st2025) == Civil(2025, 6, 1)
  {
    JuneDayNumber(1);
    JuneCivil(1);
  }

  /** Day k of June 2025, for k in 1..30, is day number 20239 + k. */
  lemma JuneCivil(k: int)
    requires 1 <= k <= 30
    ensures CivilFromDays(20239 + k) == Civil(2025, 6, k)
  {
    var z := 20239 + k + 719468;
    DivBetween(z, 146097, 5);
    var doe := z - 730485;
    DivBetween(doe, 1460, 6);
    DivBetween(doe, 36524, 0);
    DivBetween(doe, 146096, 0);
    DivBetween(doe - 6, 365, 25);
    DivBetween(5 * (91 + k) + 2, 153, 3);
  }

  lemma JuneDayNumber(dom: int)
    ensures JsDate(2025, 5, dom) == 20239 + dom
  {
    assert DaysFromCivil(2025, 6, 1) == 20240;
  }

  lemma July1st2025()
    ensures CivilFromDays(20270) == Civil(2025, 7, 1)
  {
    var z := 20270 + 719468;
    assert z / 146097 == 5;
    assert z % 146097 == 9253;
    assert (9253 - 9253 / 1460 + 9253 / 36524 - 9253 / 146096) / 365 == 25;
  }

  /** The `fetchExpenses` date fix-up for a day of the month: it is moved
      into June 2025 with `new Date(2025, 5, day)`; the 31st runs into July
      and `setMonth(5)` brings it back to June 1st. */
  function MoveToJune(dom: int): Day
  {
    var moved := JsDate(2025, 5, dom);
    if MonthOf(moved) != 5 then SetMonth(moved, 5) else moved
  }

  lemma MoveToJuneUpTo30(dom: int)
    requires 1 <= dom <= 30
    ensures MoveToJune(dom) == 20239 + dom
    ensures CivilFromDays(MoveToJune(dom)) == Civil(2025, 6, dom)
  {
    JuneDayNumber(dom);
    JuneCivil(dom);
  }

  lemma MoveToJune31()
    ensures MoveToJune(31) == 20240
    ensures CivilFromDays(MoveToJune(31)) == Civil(2025, 6, 1)
  {
    JuneDayNumber(31);
    July1st2025();
    JuneDayNumber(1);
    JuneCivil(1);
  }

  /** Every day of the month lands in June 2025 and keeps its number, except
      that the 31st becomes the 1st. */
  lemma MoveToJuneLandsInJune(dom: int)
    requires 1 <= dom <= 31
    ensures 20240 <= MoveToJune(dom) <= 20269
    ensures CivilFromDays(MoveToJune(dom)) == Civil(2025, 6, if dom <= 30 then dom else 1)
  {
    if dom <= 30 {
      MoveToJuneUpTo30(dom);
    } else {
      assert dom == 31;
      MoveToJune31();
    }
  }

  /** The date a fetched row is shown with: midnight of its own day moved
      into June 2025, or of today when the stored date does not parse. */
  function RemapToJune(stored: Option<Day>, now: Instant): Instant
  {
    Midnight(MoveToJune(DayOfMonth(if stored.Some? then stored.value else DayOf(now))))
  }

  /** A fetched expense is shown at midnight of a day of June 2025, the stored
      day of the month kept unless it is the 31st. */
  lemma RemapToJuneSpec(stored: Option<Day>, now: Instant)
    ensures var d := DayOf(RemapToJune(stored, now));
            var dom := DayOfMonth(if stored.Some? then stored.value else DayOf(now));
            && RemapToJune(stored, now) == Midnight(d)
            && InJune2025(d) && MonthOf(d) == 5 && YearOf(d) == 2025
            && DayOfMonth(d) == (if dom <= 30 then dom else 1)
  {
    var dom := DayOfMonth(if stored.Some? then stored.value else DayOf(now));
    var j := MoveToJune(dom);
    MoveToJuneLandsInJune(dom);
    DayOfMidnight(j);
    assert DayOf(RemapToJune(stored, now)) == j;
  }

  /** The day numbers of June 2025. */
  predicate InJune2025(d: Day)
  {
    20240 <= d <= 20269
  }

  /** They are the days of month 5 (June) of 2025. */
  lemma InJune2025IsJune(d: Day)
    requires InJune2025(d)
    ensures MonthOf(d) == 5 && YearOf(d) == 2025 && DayOfMonth(d) == d - 20239
  {
    JuneCivil(d - 20239);
  }

  /** The expense a row becomes keeps the row's fields and is dated at
      midnight of a day of June 2025 with the same day of the month as the
      stored date (today's when it does not parse), the 31st becoming the
      1st. */
  predicate FromRow(e: Expense, row: ExpenseRow, now: Instant)
  {
    var d := DayOf(e.date);
    var dom := DayOfMonth(if row.date.Some? then row.date.value else DayOf(now));
    && e.id == row.id && e.amount == row.amount && e.category == row.category
    && e.description == row.description && e.note == row.note
    && e.date == Midnight(d) && InJune2025(d)
    && DayOfMonth(d) == (if dom <= 30 then dom else 1)
  }

  function ExpenseFromRow(row: ExpenseRow, now: Instant): (e: Expense)
    ensures FromRow(e, row, now)
  {
    RemapToJuneSpec(row.date, now);
    Expense(row.id, row.amount, row.category, row.description, RemapToJune(row.date, now), row.note)
  }

  /** `data.map(...)` in `fetchExpenses`: one expense per row, in the order
      the store returned them, each dated on its own day of the month in
      June 2025. */
  function ExpensesFromRows(rows: seq<ExpenseRow>, now: Instant): (r: seq<Expense>)
    ensures |r| == |rows|
    ensures forall i :: 0 <= i < |rows| ==> FromRow(r[i], rows[i], now)
  {
    seq(|rows|, i requires 0 <= i < |rows| => ExpenseFromRow(rows[i], now))
  }

  // ---------------------------------------------------------------------
  // The provider

  /** The expense provider's state: the signed-in user, the expense list and
      the savings-goal list. Each update runs only for a signed-in user and
      changes the lists only when the remote call succeeded. */
  class ExpenseProvider {
    var user: Option<string>
    var expenses: seq<Expense>
    var savingsGoals: seq<SavingsGoal>

    constructor (user: Option<string>)
      ensures this.user == user && expenses == [] && savingsGoals == []
    {
      this.user := user;
      expenses := [];
      savingsGoals := [];
    }

    /** The effect on sign-out: both lists are emptied. */
    method SignOut()
      modifies this
      ensures user.None? && expenses == [] && savingsGoals == []
    {
      user := None;
      expenses := [];
      savingsGoals := [];
    }

    /** `fetchExpenses`: on success the list is replaced by the returned rows,
        every date moved into June 2025; on error the list is kept. */
    method FetchExpenses(response: Response<seq<ExpenseRow>>, now: Instant)
      modifies this
      ensures user == old(user) && savingsGoals == old(savingsGoals)
      ensures expenses == if old(user).Some? && response.Success?
                          then ExpensesFromRows(response.data, now) else old(expenses)
    {
      if user.None? {
        return;
      }
      if response.Success? {
        expenses := ExpensesFromRows(response.data, now);
      }
    }

    /** `addExpense`: the row is inserted with the date `2025-06-01`; on
        success the stored expense is put in front of the list. */
    method AddExpense(input: NewExpense, response: Response<string>) returns (outcome: CallOutcome)
      modifies this
      ensures outcome == OutcomeOf(old(user), response)
      ensures user == old(user) && savingsGoals == old(savingsGoals)
      ensures expenses == if outcome.Done?
                          then [Expense(response.data, input.amount, input.category,
                                        input.description, Midnight(June1st2025), input.note)]
                               + old(expenses)
                          else old(expenses)
    {
      outcome := OutcomeOf(user, response);
      if outcome.Done? {
        var created := Expense(response.data, input.amount, input.category,
                               input.description, Midnight(June1st2025), input.note);
        expenses := [created] + expenses;
      }
    }

    /** `updateExpense`: on success every entry with the id takes the patch's fields. */
    method UpdateExpense(id: string, patch: ExpensePatch, response: Response<()>) returns (outcome: CallOutcome)
      modifies this
      ensures outcome == OutcomeOf(old(user), response)
      ensures user == old(user) && savingsGoals == old(savingsGoals)
      ensures expenses == if outcome.Done? then UpdateExpenseById(old(expenses), id, patch)
                          else old(expenses)
    {
      outcome := OutcomeOf(user, response);
      if outcome.Done? {
        expenses := UpdateExpenseById(expenses, id, patch);
      }
    }

    /** `deleteExpense`: on success the entries with the id are dropped. */
    method DeleteExpense(id: string, response: Response<()>) returns (outcome: CallOutcome)
      modifies this
      ensures outcome == OutcomeOf(old(user), response)
      ensures user == old(user) && savingsGoals == old(savingsGoals)
      ensures expenses == if outcome.Done? then DeleteExpenseById(old(expenses), id)
                          else old(expenses)
    {
      outcome := OutcomeOf(user, response);
      if outcome.Done? {
        expenses := DeleteExpenseById(expenses, id);
      }
    }

    /** `addSavingsGoal`: the deadline is sent as its calendar date and read
        back as midnight of that day; on success the goal is appended. */
    method AddSavingsGoal(input: NewGoal, response: Response<GoalRow>) returns (outcome: CallOutcome)
      modifies this
      ensures outcome == OutcomeOf(old(user), response)
      ensures user == old(user) && expenses == old(expenses)
      ensures savingsGoals == if outcome.Done?
                              then old(savingsGoals)
                                   + [SavingsGoal(response.data.id, input.name, input.targetAmount,
                                                  input.currentAmount, Midnight(DayOf(input.deadline)),
                                                  response.data.createdAt, input.color)]
                              else old(savingsGoals)
    {
      outcome := OutcomeOf(user, response);
      if outcome.Done? {
        var created := SavingsGoal(response.data.id, input.name, input.targetAmount,
                                   input.currentAmount, Midnight(DayOf(input.deadline)),
                                   response.data.createdAt, input.color);
        savingsGoals := savingsGoals + [created];
      }
    }

    method UpdateSavingsGoal(id: string, patch: GoalPatch, response: Response<()>) returns (outcome: CallOutcome)
      modifies this
      ensures outcome == OutcomeOf(old(user), response)
      ensures user == old(user) && expenses == old(expenses)
      ensures savingsGoals == if outcome.Done? then UpdateGoalById(old(savingsGoals), id, patch)
                              else old(savingsGoals)
    {
      outcome := OutcomeOf(user, response);
      if outcome.Done? {
        savingsGoals := UpdateGoalById(savingsGoals, id, patch);
      }
    }

    method DeleteSavingsGoal(id: string, response: Response<()>) returns (outcome: CallOutcome)
      modifies this
      ensures outcome == OutcomeOf(old(user), response)
      ensures user == old(user) && expenses == old(expenses)
      ensures savingsGoals == if outcome.Done? then DeleteGoalById(old(savingsGoals), id)
                              else old(savingsGoals)
    {
      outcome := OutcomeOf(user, response);
      if outcome.Done? {
        savingsGoals := DeleteGoalById(savingsGoals, id);
      }
    }
  }

  // ---------------------------------------------------------------------
  // Aggregations

  function AmountOf(e: Expense): real
  {
    e.amount
  }

  /** `getTotalExpenses`: the left-fold sum of the amounts. */
  function TotalExpenses(es: seq<Expense>): real
  {
    Sum(es, AmountOf)
  }

  /** The sum of the amounts, added from the front: a reference definition
      independent of the fold's order. */
  function AmountsSum(es: seq<Expense>): real
  {
    if es == [] then 0.0 else es[0].amount + AmountsSum(es[1..])
  }

  /** `getTotalExpenses` is the sum of all amounts, and 0 for no expenses. */
  lemma {:induction false} TotalExpensesIsSum(es: seq<Expense>)
    ensures TotalExpenses(es) == AmountsSum(es)
    ensures es == [] ==> TotalExpenses(es) == 0.0
  {
    if es != [] {
      TotalExpensesIsSum(es[1..]);
      SumCons(es[0], es[1..], AmountOf);
      assert [es[0]] + es[1..] == es;
    }
  }

  /** Adding an expense in front raises the total by its amount. */
  lemma TotalPrepend(e: Expense, es: seq<Expense>)
    ensures TotalExpenses([e] + es) == e.amount + TotalExpenses(es)
  {
    SumCons(e, es, AmountOf);
  }

  /** A list splits into the entries that satisfy `p` and those that do not,
      and the total splits the same way. */
  lemma {:induction false} TotalSplit(es: seq<Expense>, p: Expense -> bool, q: Expense -> bool)
    requires forall e :: q(e) == !p(e)
    ensures TotalExpenses(es) == TotalExpenses(Filter(es, p)) + TotalExpenses(Filter(es, q))
  {
    if es != [] {
      TotalSplit(es[1..], p, q);
      SumCons(es[0], es[1..], AmountOf);
      assert [es[0]] + es[1..] == es;
      if p(es[0]) {
        SumCons(es[0], Filter(es[1..], p), AmountOf);
        assert Filter(es, q) == Filter(es[1..], q);
      } else {
        SumCons(es[0], Filter(es[1..], q), AmountOf);
        assert Filter(es, p) == Filter(es[1..], p);
      }
    }
  }

  /** A successful delete lowers the total by the amounts of the removed entries. */
  lemma TotalAfterDelete(es: seq<Expense>, id: string)
    ensures TotalExpenses(DeleteExpenseById(es, id))
            == TotalExpenses(es) - TotalExpenses(Filter(es, (e: Expense) => e.id == id))
  {
    TotalSplit(es, (e: Expense) => e.id != id, (e: Expense) => e.id == id);
  }

  /** `!category`: both `undefined` and the empty string mean "no category". */
  predicate NoCategory(category: Option<string>)
  {
    category.None? || category.value == ""
  }

  /** `getExpensesByCategory`: the whole list without a category, otherwise
      exactly the expenses of that category, in order. */
  function ExpensesByCategory(es: seq<Expense>, category: Option<string>): (r: seq<Expense>)
    ensures NoCategory(category) ==> r == es
    ensures !NoCategory(category) ==>
              && IsSubsequence(r, es)
              && (forall i :: 0 <= i < |r| ==> r[i].category.Key() == category.value)
              && (forall i :: 0 <= i < |es| && es[i].category.Key() == category.value ==> es[i] in r)
              && |r| == Count(es, (e: Expense) => e.category.Key() == category.value)
  {
    if NoCategory(category) then es
    else
      var p := (e: Expense) => e.category.Key() == category.value;
      FilterIsSubsequence(es, p);
      FilterLength(es, p);
      Filter(es, p)
  }

  /** The three conditions of `filterExpenses`. */
  predicate MatchesFilter(e: Expense, category: Option<string>, start: Option<Instant>, end: Option<Instant>)
  {
    && (NoCategory(category) || e.category.Key() == category.value)
    && (start.None? || e.date >= start.value)
    && (end.None? || e.date <= end.value)
  }

  /** `filterExpenses`: exactly the expenses meeting all three conditions, in order. */
  function FilterExpenses(es: seq<Expense>, category: Option<string>, start: Option<Instant>, end: Option<Instant>): (r: seq<Expense>)
    ensures IsSubsequence(r, es)
    ensures forall i :: 0 <= i < |r| ==> MatchesFilter(r[i], category, start, end)
    ensures forall i :: 0 <= i < |es| && MatchesFilter(es[i], category, start, end) ==> es[i] in r
    ensures |r| == Count(es, (e: Expense) => MatchesFilter(e, category, start, end))
  {
    var p := (e: Expense) => MatchesFilter(e, category, start, end);
    FilterIsSubsequence(es, p);
    FilterLength(es, p);
    Filter(es, p)
  }

  /** Without date bounds, `filterExpenses` is `getExpensesByCategory`. */
  lemma {:induction false} FilterWithoutDatesIsByCategory(es: seq<Expense>, category: Option<string>)
    ensures FilterExpenses(es, category, None, None) == ExpensesByCategory(es, category)
  {
    if es != [] {
      FilterWithoutDatesIsByCategory(es[1..], category);
      if NoCategory(category) {
        assert es == [es[0]] + es[1..];
      }
    }
  }

  predicate InMonth(e: Expense, month: int, year: int)
  {
    MonthOf(DayOf(e.date)) == month && YearOf(DayOf(e.date)) == year
  }

  /** `getMonthlyExpenses`: exactly the expenses dated in that month of that year. */
  function MonthlyExpenses(es: seq<Expense>, month: int, year: int): (r: seq<Expense>)
    ensures IsSubsequence(r, es)
    ensures forall i :: 0 <= i < |r| ==> InMonth(r[i], month, year)
    ensures forall i :: 0 <= i < |es| && InMonth(es[i], month, year) ==> es[i] in r
    ensures |r| == Count(es, (e: Expense) => InMonth(e, month, year))
    ensures (month < 0 || month > 11) ==> r == []
  {
    var p := (e: Expense) => InMonth(e, month, year);
    FilterIsSubsequence(es, p);
    FilterLength(es, p);
    Filter(es, p)
  }

  /** The sum of the amounts of one category's expenses. */
  function CategorySum(es: seq<Expense>, c: Category): real
  {
    TotalExpenses(Filter(es, (e: Expense) => e.category == c))
  }

  lemma CategorySumSnoc(es: seq<Expense>, e: Expense, c: Category)
    ensures CategorySum(es + [e], c) == CategorySum(es, c) + (if e.category == c then e.amount else 0.0)
  {
    var p := (x: Expense) => x.category == c;
    FilterAppend(es, [e], p);
    SumAppend(Filter(es, p), Filter([e], p), AmountOf);
    assert Filter([e], p) == if p(e) then [e] else [];
  }

  /** A JavaScript object that maps category keys to totals: its keys in
      insertion order and its values. */
  datatype Tally = Tally(keys: seq<Category>, amounts: map<Category, real>)

  predicate Present(es: seq<Expense>, c: Category)
  {
    exists i :: 0 <= i < |es| && es[i].category == c
  }

  predicate NoDuplicates<T(==)>(s: seq<T>)
  {
    forall i, j :: 0 <= i < j < |s| ==> s[i] != s[j]
  }

  /** One step of the `forEach` in `getCategoryTotals`: the amount is added
      under the expense's key, and a new key goes after the existing ones. */
  function TallyAdd(t: Tally, e: Expense): Tally
  {
    var prior := if e.category in t.amounts then t.amounts[e.category] else 0.0;
    Tally(if e.category in t.amounts then t.keys else t.keys + [e.category],
          t.amounts[e.category := prior + e.amount])
  }

  /** The totals object after the `forEach` has visited every expense. */
  function CategoryTotals(es: seq<Expense>): Tally
  {
    if es == [] then Tally([], map[]) else TallyAdd(CategoryTotals(es[..|es| - 1]), es[|es| - 1])
  }

  lemma PresentSnoc(es: seq<Expense>, e: Expense, c: Category)
    ensures Present(es + [e], c) <==> Present(es, c) || e.category == c
  {
    var s := es + [e];
    if Present(s, c) {
      var i :| 0 <= i < |s| && s[i].category == c;
      if i < |es| {
        assert es[i].category == c;
      }
    }
    if Present(es, c) {
      var i :| 0 <= i < |es| && es[i].category == c;
      assert s[i].category == c;
    }
    if e.category == c {
      assert s[|es|].category == c;
    }
  }

  /** Where category `c` first occurs in `es`. */
  function FirstIndex(es: seq<Expense>, c: Category): (i: nat)
    requires Present(es, c)
    ensures i < |es| && es[i].category == c
    ensures forall j :: 0 <= j < i ==> es[j].category != c
    decreases |es|
  {
    var prefix := es[..|es| - 1];
    if Present(prefix, c) then
      var i := FirstIndex(prefix, c);
      assert forall j :: 0 <= j <= i ==> prefix[j] == es[j];
      i
    else
      assert forall j :: 0 <= j < |prefix| ==> prefix[j] == es[j];
      |es| - 1
  }

  lemma FirstIndexSnoc(es: seq<Expense>, e: Expense, c: Category)
    requires Present(es + [e], c)
    ensures Present(es, c) ==> FirstIndex(es + [e], c) == FirstIndex(es, c)
    ensures !Present(es, c) ==> FirstIndex(es + [e], c) == |es|
  {
    assert (es + [e])[..|es|] == es;
  }

  /** The keys are in the order in which their categories first occur. */
  predicate InFirstOccurrenceOrder(keys: seq<Category>, es: seq<Expense>)
  {
    forall i, j :: 0 <= i < j < |keys| && Present(es, keys[i]) && Present(es, keys[j]) ==>
      FirstIndex(es, keys[i]) < FirstIndex(es, keys[j])
  }

  /** A new key is appended for a category occurring for the first time, so
      the keys stay in order of first occurrence. */
  lemma TallyAddOrder(t: Tally, es: seq<Expense>, e: Expense)
    requires IsTallyOf(t, es) && InFirstOccurrenceOrder(t.keys, es)
    ensures InFirstOccurrenceOrder(TallyAdd(t, e).keys, es + [e])
  {
    var keys := TallyAdd(t, e).keys;
    forall i, j | 0 <= i < j < |keys| && Present(es + [e], keys[i]) && Present(es + [e], keys[j])
      ensures FirstIndex(es + [e], keys[i]) < FirstIndex(es + [e], keys[j])
    {
      assert keys[i] == t.keys[i];
      FirstIndexSnoc(es, e, keys[i]);
      FirstIndexSnoc(es, e, keys[j]);
      if j == |t.keys| {
        assert keys[j] == e.category && e.category !in t.keys;
      } else {
        assert keys[j] == t.keys[j];
      }
    }
  }

  /** `t` is the totals object of `es`: one key per category present in the
      list, no key twice, each holding the sum of that category's amounts. */
  predicate IsTallyOf(t: Tally, es: seq<Expense>)
  {
    && NoDuplicates(t.keys)
    && (forall c :: c in t.amounts <==> c in t.keys)
    && (forall c :: c in t.keys <==> Present(es, c))
    && (forall c :: c in t.amounts ==> t.amounts[c] == CategorySum(es, c))
  }

  lemma TallyAddKeys(t: Tally, es: seq<Expense>, e: Expense)
    requires NoDuplicates(t.keys)
    requires forall c :: c in t.amounts <==> c in t.keys
    requires forall c :: c in t.keys <==> Present(es, c)
    ensures NoDuplicates(TallyAdd(t, e).keys)
    ensures forall c :: c in TallyAdd(t, e).amounts <==> c in TallyAdd(t, e).keys
    ensures forall c :: c in TallyAdd(t, e).keys <==> Present(es + [e], c)
  {
    forall c ensures Present(es + [e], c) <==> Present(es, c) || e.category == c {
      PresentSnoc(es, e, c);
    }
    if e.category !in t.amounts {
      var keys := t.keys + [e.category];
      forall i, j | 0 <= i < j < |keys| ensures keys[i] != keys[j] {
        assert keys[i] == t.keys[i];
        if j < |t.keys| {
          assert keys[j] == t.keys[j];
        }
      }
    }
  }

  lemma TallyAddAmounts(t: Tally, es: seq<Expense>, e: Expense)
    requires forall c :: c in t.amounts ==> t.amounts[c] == CategorySum(es, c)
    requires e.category !in t.amounts ==> CategorySum(es, e.category) == 0.0
    ensures forall c :: c in TallyAdd(t, e).amounts ==> TallyAdd(t, e).amounts[c] == CategorySum(es + [e], c)
  {
    forall c | c in TallyAdd(t, e).amounts
      ensures TallyAdd(t, e).amounts[c] == CategorySum(es + [e], c)
    {
      CategorySumSnoc(es, e, c);
    }
  }

  /** A category that does not occur sums to zero. */
  lemma CategorySumAbsent(es: seq<Expense>, c: Category)
    requires !Present(es, c)
    ensures CategorySum(es, c) == 0.0
  {
    FilterNone(es, (x: Expense) => x.category == c);
  }

  lemma TallyAddSpec(t: Tally, es: seq<Expense>, e: Expense)
    requires IsTallyOf(t, es)
    ensures IsTallyOf(TallyAdd(t, e), es + [e])
  {
    TallyAddKeys(t, es, e);
    if e.category !in t.amounts {
      CategorySumAbsent(es, e.category);
    }
    TallyAddAmounts(t, es, e);
  }

  /** `getCategoryTotals` has one key per category present in the list, in
      order of first appearance, each holding the sum of that category's
      amounts (the sum over the filtered list, an independent definition). */
  lemma {:induction false} CategoryTotalsSpec(es: seq<Expense>)
    ensures IsTallyOf(CategoryTotals(es), es)
    ensures InFirstOccurrenceOrder(CategoryTotals(es).keys, es)
  {
    if es != [] {
      var prefix := es[..|es| - 1];
      var e := es[|es| - 1];
      var t := CategoryTotals(prefix);
      assert es == prefix + [e];
      CategoryTotalsSpec(prefix);
      TallyAddSpec(t, prefix, e);
      TallyAddOrder(t, prefix, e);
    }
  }

  /** The `forEach` loop of `getCategoryTotals`. */
  method GetCategoryTotals(es: seq<Expense>) returns (t: Tally)
    ensures t == CategoryTotals(es)
  {
    t := Tally([], map[]);
    var i := 0;
    while i < |es|
      invariant 0 <= i <= |es|
      invariant t == CategoryTotals(es[..i])
    {
      assert es[..i + 1][..i] == es[..i];
      t := TallyAdd(t, es[i]);
      i := i + 1;
    }
    assert es[..i] == es;
  }

  /** The sum of a tally's values, key by key. */
  function SumOfValues(keys: seq<Category>, amounts: map<Category, real>): real
    requires forall k :: k in keys ==> k in amounts
  {
    if keys == [] then 0.0 else amounts[keys[0]] + SumOfValues(keys[1..], amounts)
  }

  lemma {:induction false} SumOfValuesAppend(keys: seq<Category>, k: Category, amounts: map<Category, real>)
    requires forall x :: x in keys ==> x in amounts
    requires k in amounts
    ensures SumOfValues(keys + [k], amounts) == SumOfValues(keys, amounts) + amounts[k]
  {
    if keys != [] {
      assert (keys + [k])[1..] == keys[1..] + [k];
      SumOfValuesAppend(keys[1..], k, amounts);
    }
  }

  /** Raising one key's value raises the sum by the same amount. */
  lemma {:induction false} SumOfValuesBump(keys: seq<Category>, amounts: map<Category, real>, k: Category, delta: real)
    requires NoDuplicates(keys) && k in keys
    requires forall x :: x in keys ==> x in amounts
    ensures SumOfValues(keys, amounts[k := amounts[k] + delta]) == SumOfValues(keys, amounts) + delta
  {
    var bumped := amounts[k := amounts[k] + delta];
    if keys[0] == k {
      assert k !in keys[1..] by {
        forall j | 0 <= j < |keys[1..]| ensures keys[1..][j] != k {
          assert keys[1..][j] == keys[j + 1];
        }
      }
      SumOfValuesUnchanged(keys[1..], amounts, bumped);
    } else {
      SumOfValuesBump(keys[1..], amounts, k, delta);
    }
  }

  lemma {:induction false} SumOfValuesUnchanged(keys: seq<Category>, m1: map<Category, real>, m2: map<Category, real>)
    requires forall x :: x in keys ==> x in m1 && x in m2 && m1[x] == m2[x]
    ensures SumOfValues(keys, m1) == SumOfValues(keys, m2)
  {
    if keys != [] {
      SumOfValuesUnchanged(keys[1..], m1, m2);
    }
  }

  /** Adding an expense to a tally raises the sum of its values by the amount. */
  lemma TallyAddSum(t: Tally, e: Expense)
    requires NoDuplicates(t.keys)
    requires forall c :: c in t.amounts <==> c in t.keys
    ensures forall c :: c in TallyAdd(t, e).keys ==> c in TallyAdd(t, e).amounts
    ensures SumOfValues(TallyAdd(t, e).keys, TallyAdd(t, e).amounts) == SumOfValues(t.keys, t.amounts) + e.amount
  {
    if e.category in t.amounts {
      SumOfValuesBump(t.keys, t.amounts, e.category, e.amount);
    } else {
      var m := t.amounts[e.category := e.amount];
      SumOfValuesUnchanged(t.keys, t.amounts, m);
      SumOfValuesAppend(t.keys, e.category, m);
    }
  }

  /** The category totals add up to `getTotalExpenses`. */
  lemma {:induction false} CategoryTotalsAddUp(es: seq<Expense>)
    ensures forall c :: c in CategoryTotals(es).keys ==> c in CategoryTotals(es).amounts
    ensures SumOfValues(CategoryTotals(es).keys, CategoryTotals(es).amounts) == TotalExpenses(es)
  {
    CategoryTotalsSpec(es);
    if es != [] {
      var prefix := es[..|es| - 1];
      var e := es[|es| - 1];
      var t := CategoryTotals(prefix);
      CategoryTotalsAddUp(prefix);
      CategoryTotalsSpec(prefix);
      TallyAddSum(t, e);
      assert CategoryTotals(es) == TallyAdd(t, e);
      assert TotalExpenses(es) == TotalExpenses(prefix) + e.amount;
    }
  }

  /** `categoryTotals[a] > categoryTotals[b]`, where a missing key reads as
      `undefined` and every comparison with it is false. */
  predicate Greater(amounts: map<Category, real>, a: Category, b: Category)
  {
    a in amounts && b in amounts && amounts[a] > amounts[b]
  }

  /** `keys.reduce((a, b) => totals[a] > totals[b] ? a : b, acc)`. */
  function TopFrom(keys: seq<Category>, amounts: map<Category, real>, acc: Category): Category
  {
    if keys == [] then acc
    else TopFrom(keys[1..], amounts, if Greater(amounts, acc, keys[0]) then acc else keys[0])
  }

  /** `getTopCategory`: the fold starts from `'other'`. */
  function TopCategory(es: seq<Expense>): Category
  {
    var t := CategoryTotals(es);
    TopFrom(t.keys, t.amounts, Other)
  }

  /** The fold ends on a key of maximal total that strictly beats every later key. */
  predicate LastMaximal(keys: seq<Category>, amounts: map<Category, real>, r: Category)
    requires forall k :: k in keys ==> k in amounts
  {
    exists i :: 0 <= i < |keys| && keys[i] == r
      && (forall j :: 0 <= j < |keys| ==> amounts[keys[j]] <= amounts[r])
      && (forall j :: i < j < |keys| ==> amounts[keys[j]] < amounts[r])
  }

  /** The start value beats every key. */
  predicate Beats(keys: seq<Category>, amounts: map<Category, real>, acc: Category)
    requires forall k :: k in keys ==> k in amounts
  {
    acc in amounts && forall j :: 0 <= j < |keys| ==> amounts[keys[j]] < amounts[acc]
  }

  /** Where a fold that started from `acc` may end: on `acc` when there are
      no keys or when it beats every key, otherwise on the last maximal key,
      which is at least `acc`. */
  predicate FoldEnd(keys: seq<Category>, amounts: map<Category, real>, acc: Category, r: Category)
    requires forall k :: k in keys ==> k in amounts
  {
    || (keys == [] && r == acc)
    || (r == acc && Beats(keys, amounts, acc))
    || (LastMaximal(keys, amounts, r) && (acc in amounts ==> amounts[acc] <= amounts[r]))
  }

  /** The fold keeps its start value only when that value beats every key
      (or there are no keys); otherwise it ends on the last maximal key,
      which is at least the start value. */
  lemma {:induction false} TopFromSpec(keys: seq<Category>, amounts: map<Category, real>, acc: Category)
    requires forall k :: k in keys ==> k in amounts
    ensures FoldEnd(keys, amounts, acc, TopFrom(keys, amounts, acc))
  {
    if keys != [] {
      var next := if Greater(amounts, acc, keys[0]) then acc else keys[0];
      TopFromSpec(keys[1..], amounts, next);
      FoldEndStep(keys, amounts, acc, TopFrom(keys[1..], amounts, next));
    }
  }

  /** One step of the fold: where the fold over the later keys ends, from
      the better of `acc` and the first key, is where the whole fold ends. */
  lemma FoldEndStep(keys: seq<Category>, amounts: map<Category, real>, acc: Category, r: Category)
    requires keys != [] && forall k :: k in keys ==> k in amounts
    requires FoldEnd(keys[1..], amounts, if Greater(amounts, acc, keys[0]) then acc else keys[0], r)
    ensures FoldEnd(keys, amounts, acc, r)
  {
    var k := keys[0];
    var rest := keys[1..];
    var next := if Greater(amounts, acc, k) then acc else k;
    if rest == [] {
      if !Greater(amounts, acc, k) {
        assert LastMaximal(keys, amounts, r) by { assert keys[0] == r; }
      }
    } else if r == next && Beats(rest, amounts, next) {
      FirstBeatsRest(keys, amounts, acc, r);
    } else {
      LaterMaximal(keys, amounts, acc, r);
    }
  }

  lemma FirstBeatsRest(keys: seq<Category>, amounts: map<Category, real>, acc: Category, r: Category)
    requires keys != [] && forall k :: k in keys ==> k in amounts
    requires r == (if Greater(amounts, acc, keys[0]) then acc else keys[0]) && Beats(keys[1..], amounts, r)
    ensures FoldEnd(keys, amounts, acc, r)
  {
    assert forall j :: 0 < j < |keys| ==> keys[j] == keys[1..][j - 1];
    if Greater(amounts, acc, keys[0]) {
      assert Beats(keys, amounts, acc);
    } else {
      assert LastMaximal(keys, amounts, r) by { assert keys[0] == r; }
    }
  }

  lemma LaterMaximal(keys: seq<Category>, amounts: map<Category, real>, acc: Category, r: Category)
    requires keys != [] && forall k :: k in keys ==> k in amounts
    requires var next := if Greater(amounts, acc, keys[0]) then acc else keys[0];
             LastMaximal(keys[1..], amounts, r) && (next in amounts ==> amounts[next] <= amounts[r])
    ensures FoldEnd(keys, amounts, acc, r)
  {
    var rest := keys[1..];
    var i :| 0 <= i < |rest| && rest[i] == r
             && (forall j :: 0 <= j < |rest| ==> amounts[rest[j]] <= amounts[r])
             && (forall j :: i < j < |rest| ==> amounts[rest[j]] < amounts[r]);
    assert forall j :: 0 < j < |keys| ==> keys[j] == rest[j - 1];
    assert keys[i + 1] == r;
    assert LastMaximal(keys, amounts, r);
  }

  /** `getTopCategory` is `'other'` when there are no expenses; otherwise it
      is a category present in the list whose total is maximal, and among
      the maximal ones the last in key order (ties go to the later key). */
  lemma TopCategoryIsMaximal(es: seq<Expense>)
    ensures es == [] ==> TopCategory(es) == Other
    ensures forall c :: c in CategoryTotals(es).keys ==> c in CategoryTotals(es).amounts
    ensures es != [] ==>
              && Present(es, TopCategory(es))
              && (forall c :: Present(es, c) ==> CategorySum(es, c) <= CategorySum(es, TopCategory(es)))
              && LastMaximal(CategoryTotals(es).keys, CategoryTotals(es).amounts, TopCategory(es))
    ensures es != [] ==>
              forall c :: Present(es, c) && CategorySum(es, c) == CategorySum(es, TopCategory(es)) ==>
                FirstIndex(es, c) <= FirstIndex(es, TopCategory(es))
  {
    var t := CategoryTotals(es);
    CategoryTotalsSpec(es);
    TopFromSpec(t.keys, t.amounts, Other);
    if es != [] {
      var top := TopCategory(es);
      assert Present(es, es[0].category);
      assert t.keys != [];
      if Other in t.amounts {
        var j :| 0 <= j < |t.keys| && t.keys[j] == Other;
        assert !Beats(t.keys, t.amounts, Other);
      }
      forall c | Present(es, c) ensures CategorySum(es, c) <= CategorySum(es, top) {
        var j :| 0 <= j < |t.keys| && t.keys[j] == c;
      }
      LastMaximalFirstOccursLast(t.keys, t.amounts, es, top);
    }
  }

  /** In keys ordered by first occurrence, the last maximal key is the
      maximal category that first occurs latest. */
  lemma LastMaximalFirstOccursLast(keys: seq<Category>, amounts: map<Category, real>,
                                   es: seq<Expense>, top: Category)
    requires forall k :: k in keys ==> k in amounts
    requires forall c :: c in keys <==> Present(es, c)
    requires InFirstOccurrenceOrder(keys, es)
    requires LastMaximal(keys, amounts, top)
    ensures forall c :: c in keys && amounts[c] == amounts[top] ==> FirstIndex(es, c) <= FirstIndex(es, top)
  {
    var i :| 0 <= i < |keys| && keys[i] == top
             && (forall j :: i < j < |keys| ==> amounts[keys[j]] < amounts[top]);
    forall c | c in keys && amounts[c] == amounts[top]
      ensures FirstIndex(es, c) <= FirstIndex(es, top)
    {
      var j :| 0 <= j < |keys| && keys[j] == c;
      assert !(i < j);
    }
  }

  // ---------------------------------------------------------------------
  // The current month, as the views and the nudge rules select it

  /** The spending of the month of `now`: `getMonthlyExpenses` with the
      current month and year, added up. */
  function SpentThisMonth(es: seq<Expense>, now: Instant): real
  {
    TotalExpenses(MonthlyExpenses(es, MonthOf(DayOf(now)), YearOf(DayOf(now))))
  }

  /** The goal whose deadline is in the month of `now` (`currentGoal`). */
  function GoalThisMonth(goals: seq<SavingsGoal>, now: Instant): Option<SavingsGoal>
  {
    GoalOfMonth(goals, MonthOf(DayOf(now)), YearOf(DayOf(now)))
  }
}
