/** The notification store: the signed-in user's notifications, the list
    updates applied after each remote call succeeds, the unread count, and
    the rules that decide which nudges and achievements to issue. */
module NotificationContext {
  import opened Prelude
  import opened Calendar
  import opened ExpenseContext

  /** A notification; `kind` is the stored `type` text
      (`achievement`, `warning`, `nudge`, `weekly_report`). */
  datatype Notification = Notification(id: string, kind: string, title: string, message: string,
                                       createdAt: Instant, isRead: bool, icon: Option<string>)

  /** What `addNotification` is called with: everything but the id, the
      creation time and the read flag. */
  datatype Draft = Draft(kind: string, title: string, message: string, icon: Option<string>)

  /** What the data store assigns to an inserted notification. */
  datatype NotificationRow = NotificationRow(id: string, createdAt: Instant, isRead: bool)

  predicate IsUnread(n: Notification)
  {
    !n.isRead
  }

  /** `unreadCount`. */
  function UnreadCount(ns: seq<Notification>): (k: nat)
    ensures k == Count(ns, IsUnread) && k <= |ns|
  {
    FilterLength(ns, IsUnread);
    |Filter(ns, IsUnread)|
  }

  lemma {:induction false} CountAppend<T>(a: seq<T>, b: seq<T>, p: T -> bool)
    ensures Count(a + b, p) == Count(a, p) + Count(b, p)
  {
    if a == [] {
      assert a + b == b;
    } else {
      assert (a + b)[1..] == a[1..] + b;
      CountAppend(a[1..], b, p);
    }
  }

  /** `prev.map(n => n.id === id ? { ...n, is_read: true } : n)`. */
  function MarkReadById(ns: seq<Notification>, id: string): (r: seq<Notification>)
    ensures |r| == |ns|
    ensures forall i :: 0 <= i < |ns| ==>
              r[i] == if ns[i].id == id then ns[i].(isRead := true) else ns[i]
  {
    if ns == [] then [] else [if ns[0].id == id then ns[0].(isRead := true) else ns[0]] + MarkReadById(ns[1..], id)
  }

  /** `prev.map(n => ({ ...n, is_read: true }))`. */
  function MarkAllRead(ns: seq<Notification>): (r: seq<Notification>)
    ensures |r| == |ns|
    ensures forall i :: 0 <= i < |ns| ==> r[i] == ns[i].(isRead := true)
  {
    if ns == [] then [] else [ns[0].(isRead := true)] + MarkAllRead(ns[1..])
  }

  /** `prev.filter(n => n.id !== id)`: exactly the notifications with another id, in order. */
  function ClearById(ns: seq<Notification>, id: string): (r: seq<Notification>)
    ensures IsSubsequence(r, ns)
    ensures forall i :: 0 <= i < |r| ==> r[i].id != id
    ensures forall i :: 0 <= i < |ns| && ns[i].id != id ==> ns[i] in r
    ensures |r| == Count(ns, (n: Notification) => n.id != id)
  {
    var keep := (n: Notification) => n.id != id;
    FilterIsSubsequence(ns, keep);
    FilterLength(ns, keep);
    Filter(ns, keep)
  }

  /** After marking everything read nothing is unread. */
  lemma {:induction false} MarkAllReadClearsUnread(ns: seq<Notification>)
    ensures UnreadCount(MarkAllRead(ns)) == 0
  {
    if ns != [] {
      MarkAllReadClearsUnread(ns[1..]);
      assert MarkAllRead(ns)[1..] == MarkAllRead(ns[1..]);
    }
  }

  predicate UnreadWithId(n: Notification, id: string)
  {
    !n.isRead && n.id == id
  }

  /** Marking one id read lowers the unread count by the number of unread
      notifications with that id, and never raises it. */
  lemma {:induction false} MarkReadLowersUnread(ns: seq<Notification>, id: string)
    ensures UnreadCount(MarkReadById(ns, id)) == UnreadCount(ns) - Count(ns, (n: Notification) => UnreadWithId(n, id))
    ensures UnreadCount(MarkReadById(ns, id)) <= UnreadCount(ns)
  {
    if ns != [] {
      MarkReadLowersUnread(ns[1..], id);
      assert MarkReadById(ns, id)[1..] == MarkReadById(ns[1..], id);
    }
  }

  /** The notification shown after a successful insert: the stored row with
      the draft's icon. */
  function Created(draft: Draft, row: NotificationRow): Notification
  {
    Notification(row.id, draft.kind, draft.title, draft.message, row.createdAt, row.isRead, draft.icon)
  }

  /** A new unread notification raises the unread count by one. */
  lemma AddRaisesUnread(draft: Draft, row: NotificationRow, ns: seq<Notification>)
    ensures UnreadCount([Created(draft, row)] + ns) == UnreadCount(ns) + (if row.isRead then 0 else 1)
  {
    CountAppend([Created(draft, row)], ns, IsUnread);
  }

  /** The notification provider's state. Failed calls are logged and leave
      the list as it was. */
  class NotificationProvider {
    var user: Option<string>
    var notifications: seq<Notification>

    constructor (user: Option<string>)
      ensures this.user == user && notifications == []
    {
      this.user := user;
      notifications := [];
    }

    /** The effect on sign-out empties the list. */
    method SignOut()
      modifies this
      ensures user.None? && notifications == []
    {
      user := None;
      notifications := [];
    }

    /** `fetchNotifications`: the stored list, newest first as the store orders it. */
    method FetchNotifications(response: Response<seq<Notification>>)
      modifies this
      ensures user == old(user)
      ensures notifications == if old(user).Some? && response.Success? then response.data
                               else old(notifications)
    {
      if user.Some? && response.Success? {
        notifications := response.data;
      }
    }

    /** `addNotification`: on success the new notification goes in front. */
    method AddNotification(draft: Draft, response: Response<NotificationRow>)
      modifies this
      ensures user == old(user)
      ensures notifications == if old(user).Some? && response.Success?
                               then [Created(draft, response.data)] + old(notifications)
                               else old(notifications)
    {
      if user.Some? && response.Success? {
        notifications := [Created(draft, response.data)] + notifications;
      }
    }

    method MarkAsRead(id: string, response: Response<()>)
      modifies this
      ensures user == old(user)
      ensures notifications == if old(user).Some? && response.Success?
                               then MarkReadById(old(notifications), id) else old(notifications)
    {
      if user.Some? && response.Success? {
        notifications := MarkReadById(notifications, id);
      }
    }

    method MarkAllAsRead(response: Response<()>)
      modifies this
      ensures user == old(user)
      ensures notifications == if old(user).Some? && response.Success?
                               then MarkAllRead(old(notifications)) else old(notifications)
    {
      if user.Some? && response.Success? {
        notifications := MarkAllRead(notifications);
      }
    }

    method ClearNotification(id: string, response: Response<()>)
      modifies this
      ensures user == old(user)
      ensures notifications == if old(user).Some? && response.Success?
                               then ClearById(old(notifications), id) else old(notifications)
    {
      if user.Some? && response.Success? {
        notifications := ClearById(notifications, id);
      }
    }

    method ClearAllNotifications(response: Response<()>)
      modifies this
      ensures user == old(user)
      ensures notifications == if old(user).Some? && response.Success? then [] else old(notifications)
    {
      if user.Some? && response.Success? {
        notifications := [];
      }
    }
  }

  // ---------------------------------------------------------------------
  // Nudge rules

  /** `hasNudge`: a nudge with this title and message is already in the list. */
  predicate HasNudge(ns: seq<Notification>, title: string, message: string)
  {
    exists i :: 0 <= i < |ns| && ns[i].kind == "nudge" && ns[i].title == title && ns[i].message == message
  }

  const HalfwayTitle: string := "You're halfway to your savings goal!"
  const HalfwayMessage: string := "Great job! Keep up the saving streak."
  const EntertainmentTitle: string := "Your entertainment spending has doubled this week!"
  const EntertainmentMessage: string := "Consider reviewing your fun budget."
  const NoSpendTitle: string := "Try a no-spend day tomorrow?"
  const NoSpendMessage: string := "Challenge yourself to spend nothing for a day!"

  /** `progress <= 0.5 && progress > 0.45` with `progress = (target - spent) / target`;
      a zero target gives NaN or an infinity, which never passes. */
  predicate HalfwayBand(target: real, spent: real)
  {
    target != 0.0 && 0.45 < (target - spent) / target <= 0.5
  }

  /** For a positive target the band is: half the target to just under 55% of it spent. */
  lemma HalfwayBandForPositiveTarget(target: real, spent: real)
    requires target > 0.0
    ensures HalfwayBand(target, spent) <==> 0.5 * target <= spent < 0.55 * target
  {
    DivCompare(target - spent, target, 0.45);
    DivCompare(target - spent, target, 0.5);
  }

  predicate IsEntertainment(e: Expense)
  {
    e.category == Entertainment
  }

  /** The entertainment spent between two instants, both included. */
  function EntertainmentBetween(es: seq<Expense>, from: Instant, to: Instant): real
  {
    TotalExpenses(Filter(es, (e: Expense) => IsEntertainment(e) && from <= e.date <= to))
  }

  /** This week's entertainment spending: Sunday midnight through the end of Saturday. */
  function EntertainmentThisWeek(es: seq<Expense>, now: Instant): real
  {
    var today := DayOf(now);
    EntertainmentBetween(es, Midnight(StartOfWeek(today)), EndOfDay(EndOfWeek(today)))
  }

  /** Last week's, the week that contains `subWeeks(now, 1)`. */
  function EntertainmentLastWeek(es: seq<Expense>, now: Instant): real
  {
    var lastWeek := DayOf(SubDays(now, 7));
    EntertainmentBetween(es, Midnight(StartOfWeek(lastWeek)), EndOfDay(EndOfWeek(lastWeek)))
  }

  /** Some expense falls on the given day (`isSameDay`). */
  predicate SpentOn(es: seq<Expense>, d: Day)
  {
    exists i :: 0 <= i < |es| && DayOf(es[i].date) == d
  }

  /** `hadNoSpendDay`: one of the seven dates `now - i` days, i in 0..6, has no expense. */
  predicate HadNoSpendDay(es: seq<Expense>, now: Instant)
  {
    exists i :: 0 <= i < 7 && !SpentOn(es, DayOf(SubDays(now, i)))
  }

  /** Every day from six days ago through today has an expense. */
  predicate SpentEveryDayOfLastWeek(es: seq<Expense>, today: Day)
  {
    forall d :: today - 6 <= d <= today ==> SpentOn(es, d)
  }

  /** There was no no-spend day exactly when each of the last seven days has an expense. */
  lemma NoSpendDayIff(es: seq<Expense>, now: Instant)
    ensures !HadNoSpendDay(es, now) <==> SpentEveryDayOfLastWeek(es, DayOf(now))
  {
    if !HadNoSpendDay(es, now) {
      forall d | DayOf(now) - 6 <= d <= DayOf(now) ensures SpentOn(es, d) {
        var i := DayOf(now) - d;
        assert DayOf(SubDays(now, i)) == d;
      }
    }
    if SpentEveryDayOfLastWeek(es, DayOf(now)) {
      forall i | 0 <= i < 7 ensures SpentOn(es, DayOf(SubDays(now, i))) {
        assert DayOf(SubDays(now, i)) == DayOf(now) - i;
      }
    }
  }

  function HalfwayNudges(goal: Option<SavingsGoal>, spent: real, ns: seq<Notification>): seq<Draft>
  {
    if goal.Some? && HalfwayBand(goal.value.targetAmount, spent) && !HasNudge(ns, HalfwayTitle, HalfwayMessage)
    then [Draft("nudge", HalfwayTitle, HalfwayMessage, Some("🌱"))] else []
  }

  function EntertainmentNudges(thisWeek: real, lastWeek: real, ns: seq<Notification>): seq<Draft>
  {
    if lastWeek > 0.0 && thisWeek > 2.0 * lastWeek && !HasNudge(ns, EntertainmentTitle, EntertainmentMessage)
    then [Draft("nudge", EntertainmentTitle, EntertainmentMessage, Some("🎉"))] else []
  }

  function NoSpendNudges(hadNoSpendDay: bool, ns: seq<Notification>): seq<Draft>
  {
    if !hadNoSpendDay && !HasNudge(ns, NoSpendTitle, NoSpendMessage)
    then [Draft("nudge", NoSpendTitle, NoSpendMessage, Some("💡"))] else []
  }

  /** The three rules in the order `sendNudges` applies them, given what they
      measure. All three look at the notification list as it was when they started. */
  function Nudges(goal: Option<SavingsGoal>, spent: real, thisWeek: real, lastWeek: real,
                  hadNoSpendDay: bool, ns: seq<Notification>): seq<Draft>
  {
    HalfwayNudges(goal, spent, ns) + EntertainmentNudges(thisWeek, lastWeek, ns) + NoSpendNudges(hadNoSpendDay, ns)
  }

  /** `sendNudges`: the drafts it passes to `addNotification`, in order. */
  function SendNudges(user: Option<string>, expenses: seq<Expense>, goals: seq<SavingsGoal>,
                      notifications: seq<Notification>, now: Instant): seq<Draft>
  {
    if user.None? then []
    else Nudges(GoalThisMonth(goals, now), SpentThisMonth(expenses, now),
                EntertainmentThisWeek(expenses, now), EntertainmentLastWeek(expenses, now),
                HadNoSpendDay(expenses, now), notifications)
  }

  predicate Issued(ds: seq<Draft>, title: string)
  {
    exists i :: 0 <= i < |ds| && ds[i].title == title
  }

  lemma TitlesDistinct()
    ensures HalfwayTitle != EntertainmentTitle && HalfwayTitle != NoSpendTitle
    ensures EntertainmentTitle != NoSpendTitle
  {
    assert |HalfwayTitle| == 36 && |EntertainmentTitle| == 50 && |NoSpendTitle| == 28;
  }

  /** The rules never issue a nudge already in the list, issue at most three,
      and no title twice. */
  lemma NudgesNeverDuplicate(goal: Option<SavingsGoal>, spent: real, thisWeek: real, lastWeek: real,
                             hadNoSpendDay: bool, ns: seq<Notification>)
    ensures var ds := Nudges(goal, spent, thisWeek, lastWeek, hadNoSpendDay, ns);
            && |ds| <= 3
            && (forall i :: 0 <= i < |ds| ==> ds[i].kind == "nudge" && !HasNudge(ns, ds[i].title, ds[i].message))
            && (forall i, j :: 0 <= i < j < |ds| ==> ds[i].title != ds[j].title)
  {
    TitlesDistinct();
  }

  /** Each rule fires exactly under its own condition. */
  lemma NudgeConditions(goal: Option<SavingsGoal>, spent: real, thisWeek: real, lastWeek: real,
                        hadNoSpendDay: bool, ns: seq<Notification>)
    ensures var ds := Nudges(goal, spent, thisWeek, lastWeek, hadNoSpendDay, ns);
            && (Issued(ds, HalfwayTitle) <==>
                  goal.Some? && HalfwayBand(goal.value.targetAmount, spent)
                  && !HasNudge(ns, HalfwayTitle, HalfwayMessage))
            && (Issued(ds, EntertainmentTitle) <==>
                  lastWeek > 0.0 && thisWeek > 2.0 * lastWeek
                  && !HasNudge(ns, EntertainmentTitle, EntertainmentMessage))
            && (Issued(ds, NoSpendTitle) <==>
                  !hadNoSpendDay && !HasNudge(ns, NoSpendTitle, NoSpendMessage))
  {
    TitlesDistinct();
    var h := HalfwayNudges(goal, spent, ns);
    var e := EntertainmentNudges(thisWeek, lastWeek, ns);
    var n := NoSpendNudges(hadNoSpendDay, ns);
    var ds := h + e + n;
    if h != [] { assert ds[0] == h[0]; }
    if e != [] { assert ds[|h|] == e[0]; }
    if n != [] { assert ds[|h| + |e|] == n[0]; }
  }

  /** `sendNudges` issues nothing without a user and never repeats a nudge;
      with a user each rule fires exactly under its condition: the halfway
      nudge when this month's goal exists and 0.45 < (target - spent) /
      target <= 0.5, the entertainment nudge when last week's is positive
      and this week's more than double it, the no-spend nudge when each of
      the last seven days has an expense. */
  lemma SendNudgesRules(user: Option<string>, expenses: seq<Expense>, goals: seq<SavingsGoal>,
                        notifications: seq<Notification>, now: Instant)
    ensures var ds := SendNudges(user, expenses, goals, notifications, now);
            && (user.None? ==> ds == [])
            && (forall i :: 0 <= i < |ds| ==> !HasNudge(notifications, ds[i].title, ds[i].message))
            && (user.Some? ==>
                var goal := GoalThisMonth(goals, now);
                var thisWeek := EntertainmentThisWeek(expenses, now);
                var lastWeek := EntertainmentLastWeek(expenses, now);
                && (Issued(ds, HalfwayTitle) <==>
                      goal.Some? && HalfwayBand(goal.value.targetAmount, SpentThisMonth(expenses, now))
                      && !HasNudge(notifications, HalfwayTitle, HalfwayMessage))
                && (Issued(ds, EntertainmentTitle) <==>
                      lastWeek > 0.0 && thisWeek > 2.0 * lastWeek
                      && !HasNudge(notifications, EntertainmentTitle, EntertainmentMessage))
                && (Issued(ds, NoSpendTitle) <==>
                      SpentEveryDayOfLastWeek(expenses, DayOf(now))
                      && !HasNudge(notifications, NoSpendTitle, NoSpendMessage)))
  {
    if user.Some? {
      var goal := GoalThisMonth(goals, now);
      var spent := SpentThisMonth(expenses, now);
      var thisWeek := EntertainmentThisWeek(expenses, now);
      var lastWeek := EntertainmentLastWeek(expenses, now);
      var noSpend := HadNoSpendDay(expenses, now);
      NudgeConditions(goal, spent, thisWeek, lastWeek, noSpend, notifications);
      NudgesNeverDuplicate(goal, spent, thisWeek, lastWeek, noSpend, notifications);
      NoSpendDayIff(expenses, now);
    }
  }

  // ---------------------------------------------------------------------
  // Achievement rules

  /** `progress >= 50 && progress < 55 && current > 0` with
      `progress = current / target * 100`; a zero target gives NaN or an
      infinity, which is never in the band. */
  predicate HalfwayThere(current: real, target: real)
  {
    target != 0.0 && 50.0 <= current / target * 100.0 < 55.0 && current > 0.0
  }

  /** `progress >= 100`; with a zero target a positive amount gives +Infinity,
      which passes, and zero or a negative amount does not. */
  predicate GoalAchieved(current: real, target: real)
  {
    if target == 0.0 then current > 0.0 else current / target * 100.0 >= 100.0
  }

  /** For a positive target: halfway is 50% up to just under 55% saved, and
      achieved is the target reached. */
  lemma AchievementBands(current: real, target: real)
    requires target > 0.0
    ensures HalfwayThere(current, target) <==> 0.5 * target <= current < 0.55 * target
    ensures GoalAchieved(current, target) <==> current >= target
  {
    DivCompare(current, target, 0.5);
    DivCompare(current, target, 0.55);
    DivCompare(current, target, 1.0);
  }

  /** A negative target is never halfway: the ratio is then negative. */
  lemma NegativeTargetNeverHalfway(current: real, target: real)
    requires target < 0.0
    ensures !HalfwayThere(current, target)
  {
    if current > 0.0 {
      var q := current / target;
      assert q * target == current;
      ScaleKeepsOrder(q, 0.0, -target);
    }
  }

  /** No goal is both halfway and achieved. */
  lemma BandsExclusive(current: real, target: real)
    ensures !(HalfwayThere(current, target) && GoalAchieved(current, target))
  {
    if target > 0.0 {
      AchievementBands(current, target);
    } else if target < 0.0 {
      NegativeTargetNeverHalfway(current, target);
    }
  }

  const HalfwayThereTitle: string := "Halfway There! 🎉"
  const GoalAchievedTitle: string := "Goal Achieved! 🏆"

  /** The drafts the achievement effect issues for one goal; `formatMoney`
      stands for `toFixed(2)`. The two bands never overlap, so a goal gets
      at most one achievement. */
  function GoalAchievements(g: SavingsGoal, formatMoney: real -> string): (r: seq<Draft>)
    ensures |r| <= 1
    ensures r != [] <==> HalfwayThere(g.currentAmount, g.targetAmount) || GoalAchieved(g.currentAmount, g.targetAmount)
    ensures r != [] ==> r[0].kind == "achievement"
                        && (r[0].title == GoalAchievedTitle <==> GoalAchieved(g.currentAmount, g.targetAmount))
  {
    BandsExclusive(g.currentAmount, g.targetAmount);
    assert HalfwayThereTitle[0] == 'H' && GoalAchievedTitle[0] == 'G';
    (if HalfwayThere(g.currentAmount, g.targetAmount)
     then [Draft("achievement", HalfwayThereTitle,
                 "You're 50% of the way to your \"" + g.name + "\" goal! Keep up the great work!",
                 Some("🎯"))]
     else [])
    + (if GoalAchieved(g.currentAmount, g.targetAmount)
       then [Draft("achievement", GoalAchievedTitle,
                   "Congratulations! You've reached your \"" + g.name + "\" goal of $"
                   + formatMoney(g.targetAmount) + "!",
                   Some("🏆"))]
       else [])
  }

  /** The achievement effect: for a signed-in user, each goal in turn; at
      most one achievement per goal and nothing without a user. */
  function Achievements(user: Option<string>, goals: seq<SavingsGoal>, formatMoney: real -> string): (r: seq<Draft>)
    ensures |r| <= |goals|
    ensures forall i :: 0 <= i < |r| ==> r[i].kind == "achievement"
    ensures user.None? ==> r == []
  {
    if user.None? || goals == [] then []
    else GoalAchievements(goals[0], formatMoney) + Achievements(user, goals[1..], formatMoney)
  }
}
