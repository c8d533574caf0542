/** The monthly savings goal card: the goal of the current month, what is
    left of it after this month's spending, the progress bar, the
    overspending warning, and saving a new target. The analytics page shows
    the same figures, computed the same way. */
module SavingsGoals {
  import opened Prelude
  import opened Calendar
  import opened ExpenseContext

  /** `targetAmount`: the current goal's target, or 0 without a goal. */
  function TargetAmount(goal: Option<SavingsGoal>): real
  {
    if goal.Some? then goal.value.targetAmount else 0.0
  }

  /** `remaining`: what is left of the target, never below zero. */
  function Remaining(target: real, spent: real): (r: real)
    ensures r >= 0.0 && r >= target - spent
    ensures r == 0.0 || r == target - spent
    ensures r == 0.0 <==> spent >= target
  {
    if target - spent > 0.0 then target - spent else 0.0
  }

  /** `progress`: the unspent share of a positive target in percent,
      clamped to 0..100 (`Math.max(0, Math.min(100, …))`); 0 without a
      positive target. */
  function Progress(target: real, spent: real): (p: real)
    ensures 0.0 <= p <= 100.0
    ensures target <= 0.0 ==> p == 0.0
  {
    if target > 0.0 then
      var x := (target - spent) / target * 100.0;
      var m := if 100.0 < x then 100.0 else x;
      if 0.0 < m then m else 0.0
    else 0.0
  }

  /** For a positive target the bar is empty exactly when the target is
      spent, full exactly when nothing is, and in between it shows the
      unspent share: `progress * target == 100 * (target - spent)`. */
  lemma ProgressMeaning(target: real, spent: real)
    requires target > 0.0
    ensures Progress(target, spent) == 0.0 <==> spent >= target
    ensures Progress(target, spent) == 100.0 <==> spent <= 0.0
    ensures 0.0 <= spent <= target ==> Progress(target, spent) * target == 100.0 * (target - spent)
  {
    var q := (target - spent) / target;
    assert q * target == target - spent;
    DivCompare(target - spent, target, 0.0);
    DivCompare(target - spent, target, 1.0);
    var x := q * 100.0;
    assert x * target == 100.0 * (q * target);
  }

  /** Spending more never fills the bar further. */
  lemma ProgressMonotone(target: real, less: real, more: real)
    requires less <= more
    ensures Progress(target, more) <= Progress(target, less)
  {
    if target > 0.0 {
      var q := (target - more) / target;
      assert q * target == target - more;
      DivCompare(target - less, target, q);
      assert q * 100.0 <= (target - less) / target * 100.0;
    }
  }

  /** `overspending`. */
  predicate Overspending(target: real, spent: real)
  {
    spent > target && target > 0.0
  }

  /** Overspending leaves nothing remaining and an empty bar; for a
      positive target it is an empty bar with the target not met exactly. */
  lemma OverspendingMeans(target: real, spent: real)
    ensures Overspending(target, spent) ==> Remaining(target, spent) == 0.0 && Progress(target, spent) == 0.0
    ensures target > 0.0 ==> (Overspending(target, spent) <==> Progress(target, spent) == 0.0 && spent != target)
  {
    if target > 0.0 {
      ProgressMeaning(target, spent);
    }
  }

  /** The figures on the card for the month of `now`. */
  datatype Status = Status(goal: Option<SavingsGoal>, target: real, spent: real,
                           remaining: real, progress: real, overspending: bool)

  /** `currentGoal`, `targetAmount`, `totalExpensesThisMonth`, `remaining`,
      `progress` and `overspending` together. */
  function StatusOf(goals: seq<SavingsGoal>, expenses: seq<Expense>, now: Instant): (s: Status)
    ensures s.goal == GoalThisMonth(goals, now) && s.spent == SpentThisMonth(expenses, now)
    ensures s.goal.Some? ==> s.goal.value in goals && s.target == s.goal.value.targetAmount
    ensures s.goal.None? ==> s.target == 0.0 && s.progress == 0.0 && !s.overspending
    ensures s.remaining >= 0.0 && s.remaining >= s.target - s.spent
    ensures 0.0 <= s.progress <= 100.0
    ensures s.overspending <==> s.spent > s.target > 0.0
    ensures s.overspending ==> s.remaining == 0.0 && s.progress == 0.0
  {
    var goal := GoalThisMonth(goals, now);
    var target := TargetAmount(goal);
    var spent := SpentThisMonth(expenses, now);
    OverspendingMeans(target, spent);
    Status(goal, target, spent, Remaining(target, spent), Progress(target, spent), Overspending(target, spent))
  }

  /** The patch sent for an existing goal: it changes the target and
      nothing else. */
  function TargetOnly(amount: real): (p: GoalPatch)
    ensures forall g :: MergeGoal(g, p) == g.(targetAmount := amount)
  {
    GoalPatch(None, None, Some(amount), None, None, None, None)
  }

  /** The goal added when the month has none: named after the month
      (`monthLabel` is the month as `format(now, 'MMMM yyyy')` writes it), its
      amount as target, nothing saved yet, due on the month's last day, no
      colour. */
  function MonthlyGoal(monthLabel: string, amount: real, now: Instant): (g: NewGoal)
    ensures g.targetAmount == amount && g.currentAmount == 0.0 && g.color.None?
    ensures DayOf(g.deadline) == EndOfMonth(DayOf(now))
  {
    NewGoal("Monthly Goal " + monthLabel, amount, 0.0, EndOfDay(EndOfMonth(DayOf(now))), None)
  }

  /** The goal as the store keeps it once added: the data store's id and
      creation time, due at midnight of the month's last day. */
  function AddedGoal(monthLabel: string, amount: real, now: Instant, row: GoalRow): (g: SavingsGoal)
    ensures g.id == row.id && g.targetAmount == amount && g.currentAmount == 0.0
    ensures DayOf(g.deadline) == EndOfMonth(DayOf(now)) && g.color.None?
  {
    var input := MonthlyGoal(monthLabel, amount, now);
    SavingsGoal(row.id, input.name, amount, 0.0, Midnight(DayOf(input.deadline)), row.createdAt, None)
  }

  /** Changing only the target of the month's goal keeps it the month's
      goal, now with the new target. */
  lemma {:induction false} RetargetKeepsCurrentGoal(goals: seq<SavingsGoal>, month: int, year: int, amount: real)
    requires GoalOfMonth(goals, month, year).Some?
    ensures var g := GoalOfMonth(goals, month, year).value;
            GoalOfMonth(UpdateGoalById(goals, g.id, TargetOnly(amount)), month, year)
              == Some(g.(targetAmount := amount))
  {
    var g := GoalOfMonth(goals, month, year).value;
    var p := TargetOnly(amount);
    var updated := UpdateGoalById(goals, g.id, p);
    assert updated == [if goals[0].id == g.id then MergeGoal(goals[0], p) else goals[0]]
                      + UpdateGoalById(goals[1..], g.id, p);
    if !DeadlineIn(goals[0], month, year) {
      RetargetKeepsCurrentGoal(goals[1..], month, year, amount);
      assert updated[1..] == UpdateGoalById(goals[1..], g.id, p);
    }
  }

  /** A goal due in the month, appended when the month has none, becomes
      the month's goal. */
  lemma {:induction false} AddedGoalBecomesCurrent(goals: seq<SavingsGoal>, g: SavingsGoal, month: int, year: int)
    requires GoalOfMonth(goals, month, year).None?
    requires DeadlineIn(g, month, year)
    ensures GoalOfMonth(goals + [g], month, year) == Some(g)
  {
    if goals != [] {
      AddedGoalBecomesCurrent(goals[1..], g, month, year);
      assert (goals + [g])[1..] == goals[1..] + [g];
    }
  }

  /** The card's editing state. */
  class Card {
    var isEditing: bool
    var goalAmount: string

    /** `targetText` is the current goal's target as `toString` writes it,
        or empty without a goal. */
    constructor (targetText: string)
      ensures !isEditing && goalAmount == targetText
    {
      isEditing := false;
      goalAmount := targetText;
    }

    /** The "Set Goal" / "Update Goal" button. */
    method StartEditing(targetText: string)
      modifies this
      ensures isEditing && goalAmount == targetText
    {
      goalAmount := targetText;
      isEditing := true;
    }

    /** The amount field's `onChange`. */
    method SetGoalAmount(text: string)
      modifies this
      ensures goalAmount == text && isEditing == old(isEditing)
    {
      goalAmount := text;
    }

    /** `handleSaveGoal`. `parsed` is `parseFloat(goalAmount)`, `None` for
        NaN; `monthLabel` names the month; `updateResponse` and `addResponse`
        are how the remote call ends. An unparsable or non-positive amount
        is refused and nothing happens. Otherwise the month's goal gets the
        amount as its target, or a new goal is added when the month has
        none; the dialog closes unless that call throws. The returned
        outcome is that of the call made. */
    method HandleSaveGoal(store: ExpenseProvider, now: Instant, parsed: Option<real>, monthLabel: string,
                          updateResponse: Response<()>, addResponse: Response<GoalRow>)
      returns (outcome: Option<CallOutcome>)
      modifies this, store
      ensures goalAmount == old(goalAmount)
      ensures store.user == old(store.user) && store.expenses == old(store.expenses)
      ensures (parsed.None? || parsed.value <= 0.0) ==>
                outcome.None? && isEditing == old(isEditing) && store.savingsGoals == old(store.savingsGoals)
      ensures parsed.Some? && parsed.value > 0.0 ==>
                outcome.Some? && isEditing == (old(isEditing) && outcome.value.Threw?)
      ensures var current := GoalThisMonth(old(store.savingsGoals), now);
              parsed.Some? && parsed.value > 0.0 && current.Some? ==>
                && outcome == Some(OutcomeOf(old(store.user), updateResponse))
                && store.savingsGoals == (if outcome.value.Done?
                                          then UpdateGoalById(old(store.savingsGoals), current.value.id, TargetOnly(parsed.value))
                                          else old(store.savingsGoals))
                && (outcome.value.Done? ==>
                      GoalThisMonth(store.savingsGoals, now) == Some(current.value.(targetAmount := parsed.value)))
      ensures var current := GoalThisMonth(old(store.savingsGoals), now);
              parsed.Some? && parsed.value > 0.0 && current.None? ==>
                && outcome == Some(OutcomeOf(old(store.user), addResponse))
                && (!outcome.value.Done? ==> store.savingsGoals == old(store.savingsGoals))
                && (outcome.value.Done? ==>
                      var added := AddedGoal(monthLabel, parsed.value, now, addResponse.data);
                      && store.savingsGoals == old(store.savingsGoals) + [added]
                      && (DeadlineIn(added, MonthOf(DayOf(now)), YearOf(DayOf(now))) ==>
                            GoalThisMonth(store.savingsGoals, now) == Some(added)))
    {
      if parsed.None? || parsed.value <= 0.0 {
        outcome := None;
        return;
      }
      var current := GoalThisMonth(store.savingsGoals, now);
      var result;
      if current.Some? {
        result := RetargetCurrentGoal(store, now, parsed.value, updateResponse);
      } else {
        result := AddMonthlyGoal(store, now, parsed.value, monthLabel, addResponse);
      }
      outcome := Some(result);
      if !result.Threw? {
        isEditing := false;
      }
    }
  }

  /** `updateSavingsGoal(currentGoal.id, { target_amount: amount })`: on
      success the month's goal keeps its place and gets the new target. */
  method RetargetCurrentGoal(store: ExpenseProvider, now: Instant, amount: real, response: Response<()>)
    returns (outcome: CallOutcome)
    requires GoalThisMonth(store.savingsGoals, now).Some?
    modifies store
    ensures store.user == old(store.user) && store.expenses == old(store.expenses)
    ensures var current := GoalThisMonth(old(store.savingsGoals), now).value;
            && outcome == OutcomeOf(old(store.user), response)
            && store.savingsGoals == (if outcome.Done?
                                      then UpdateGoalById(old(store.savingsGoals), current.id, TargetOnly(amount))
                                      else old(store.savingsGoals))
            && (outcome.Done? ==> GoalThisMonth(store.savingsGoals, now) == Some(current.(targetAmount := amount)))
  {
    var current := GoalThisMonth(store.savingsGoals, now).value;
    outcome := store.UpdateSavingsGoal(current.id, TargetOnly(amount), response);
    if outcome.Done? {
      RetargetKeepsCurrentGoal(old(store.savingsGoals), MonthOf(DayOf(now)), YearOf(DayOf(now)), amount);
    }
  }

  /** `addSavingsGoal` with the month's goal: on success it is appended, and
      when its deadline falls in the month it becomes the month's goal. */
  method AddMonthlyGoal(store: ExpenseProvider, now: Instant, amount: real, monthLabel: string,
                        response: Response<GoalRow>)
    returns (outcome: CallOutcome)
    requires GoalThisMonth(store.savingsGoals, now).None?
    modifies store
    ensures store.user == old(store.user) && store.expenses == old(store.expenses)
    ensures outcome == OutcomeOf(old(store.user), response)
    ensures !outcome.Done? ==> store.savingsGoals == old(store.savingsGoals)
    ensures outcome.Done? ==>
              var added := AddedGoal(monthLabel, amount, now, response.data);
              && store.savingsGoals == old(store.savingsGoals) + [added]
              && (DeadlineIn(added, MonthOf(DayOf(now)), YearOf(DayOf(now))) ==>
                    GoalThisMonth(store.savingsGoals, now) == Some(added))
  {
    var goal := MonthlyGoal(monthLabel, amount, now);
    outcome := store.AddSavingsGoal(goal, response);
    if outcome.Done? {
      var added := AddedGoal(monthLabel, amount, now, response.data);
      assert store.savingsGoals == old(store.savingsGoals) + [added];
      if DeadlineIn(added, MonthOf(DayOf(now)), YearOf(DayOf(now))) {
        AddedGoalBecomesCurrent(old(store.savingsGoals), added, MonthOf(DayOf(now)), YearOf(DayOf(now)));
      }
    }
  }
}
