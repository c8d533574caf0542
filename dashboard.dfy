/** The overview page: the greeting's name, this month's total, the three
    most recent expenses, and the banners of unread nudges with their
    dismiss button. */
module Dashboard {
  import opened Prelude
  import opened Calendar
  import opened ExpenseContext
  import opened NotificationContext
  import opened NotificationPanel
  import opened DismissedNudges

  /** What the page reads of the signed-in user: the name kept in the
      account's metadata and the e-mail address, either possibly absent. */
  datatype AuthUser = AuthUser(name: Option<string>, email: Option<string>)

  /** `email.split('@')[0]`: the text before the first '@', all of it when
      there is none. */
  function EmailLocalPart(email: string): (r: string)
    ensures r <= email && '@' !in r
    ensures |r| < |email| ==> email[|r|] == '@'
  {
    SplitFirstPiece(email, '@');
    Split(email, '@')[0]
  }

  /** `userName`: a non-empty metadata name, else the non-empty part of the
      e-mail before '@', else "User" (JavaScript's `||` passes over the
      empty text as it does over a missing value). */
  function UserName(user: Option<AuthUser>): (r: string)
    ensures r != []
    ensures user.Some? && user.value.name.Some? && user.value.name.value != [] ==> r == user.value.name.value
    ensures user.Some? && (user.value.name.None? || user.value.name.value == []) && user.value.email.Some?
              && EmailLocalPart(user.value.email.value) != [] ==>
                r == EmailLocalPart(user.value.email.value)
                && r <= user.value.email.value && '@' !in r
    ensures (user.None? || ((user.value.name.None? || user.value.name.value == [])
                            && (user.value.email.None? || EmailLocalPart(user.value.email.value) == []))) ==>
              r == "User"
  {
    if user.Some? && user.value.name.Some? && user.value.name.value != [] then user.value.name.value
    else if user.Some? && user.value.email.Some? && EmailLocalPart(user.value.email.value) != []
    then EmailLocalPart(user.value.email.value)
    else "User"
  }

  /** Two instants fall in the same month of the same year, which is when
      `format(…, 'MMMM yyyy')` writes the same text for both. */
  predicate SameMonth(a: Instant, b: Instant)
  {
    MonthOf(DayOf(a)) == MonthOf(DayOf(b)) && YearOf(DayOf(a)) == YearOf(DayOf(b))
  }

  /** `thisMonthExpenses`. */
  function ThisMonthExpenses(es: seq<Expense>, now: Instant): (r: seq<Expense>)
    ensures IsSubsequence(r, es)
    ensures forall e :: e in r <==> e in es && SameMonth(e.date, now)
    ensures |r| == Count(es, (e: Expense) => SameMonth(e.date, now))
  {
    var p := (e: Expense) => SameMonth(e.date, now);
    FilterIsSubsequence(es, p);
    FilterLength(es, p);
    FilterMembers(es, p);
    Filter(es, p)
  }

  /** `thisMonthTotal`: the same figure as the month's spending the goals
      card shows. */
  function ThisMonthTotal(es: seq<Expense>, now: Instant): (r: real)
    ensures r == SpentThisMonth(es, now)
  {
    FilterSame(es, (e: Expense) => SameMonth(e.date, now),
               (e: Expense) => InMonth(e, MonthOf(DayOf(now)), YearOf(DayOf(now))));
    TotalExpenses(ThisMonthExpenses(es, now))
  }

  /** Each expense adds its amount to the month's total exactly when it is
      dated in the month of `now`. */
  lemma ThisMonthTotalSnoc(es: seq<Expense>, e: Expense, now: Instant)
    ensures ThisMonthTotal(es + [e], now) == ThisMonthTotal(es, now) + (if SameMonth(e.date, now) then e.amount else 0.0)
  {
    var p := (x: Expense) => SameMonth(x.date, now);
    FilterAppend(es, [e], p);
    SumAppend(Filter(es, p), Filter([e], p), AmountOf);
    assert Filter([e], p) == if p(e) then [e] else [];
  }

  /** `recentExpenses`: the first three expenses of the list, or all of a
      shorter list. */
  function RecentExpenses(es: seq<Expense>): (r: seq<Expense>)
    ensures |r| == if |es| < 3 then |es| else 3
    ensures r <= es
  {
    es[..if |es| < 3 then |es| else 3]
  }

  /** An expense just added goes in front of the list, so it is the first
      recent expense and the older ones move down one place. */
  lemma AddedExpenseIsRecent(e: Expense, es: seq<Expense>)
    ensures RecentExpenses([e] + es)[0] == e
    ensures RecentExpenses([e] + es)[1..] == RecentExpenses(es)[..if |es| < 2 then |es| else 2]
  {
  }

  /** A notification the banners may show: an unread nudge. */
  predicate UnreadNudge(n: Notification)
  {
    n.kind == "nudge" && !n.isRead
  }

  /** The banners: the unread nudges, less those whose key is among the
      dismissed pairs, in the list's order. */
  function NudgeBanners(ns: seq<Notification>, dismissed: seq<string>): (r: seq<Notification>)
    ensures IsSubsequence(r, ns)
    ensures forall n :: n in r <==> n in ns && UnreadNudge(n) && PairKey(n) !in DismissedPairs(ns, dismissed)
    ensures |r| == Count(ns, (n: Notification) => UnreadNudge(n) && PairKey(n) !in DismissedPairs(ns, dismissed))
  {
    var pairs := DismissedPairs(ns, dismissed);
    var shown := (n: Notification) => UnreadNudge(n) && PairKey(n) !in pairs;
    FilterFilter(ns, UnreadNudge, (n: Notification) => PairKey(n) !in pairs, shown);
    FilterIsSubsequence(ns, shown);
    FilterLength(ns, shown);
    FilterMembers(ns, shown);
    Filter(Filter(ns, UnreadNudge), (n: Notification) => PairKey(n) !in pairs)
  }

  /** The banners are exactly the unread nudges of the notification panel's
      list, in the same order. */
  lemma BannersAreUnreadNudgesOfPanel(ns: seq<Notification>, dismissed: seq<string>)
    ensures NudgeBanners(ns, dismissed) == Filter(FilteredNotifications(ns, dismissed), UnreadNudge)
  {
    var pairs := DismissedPairs(ns, dismissed);
    var kept := (n: Notification) => Kept(n, pairs);
    var shown := (n: Notification) => UnreadNudge(n) && PairKey(n) !in pairs;
    FilterFilter(ns, UnreadNudge, (n: Notification) => PairKey(n) !in pairs, shown);
    FilterFilter(ns, kept, UnreadNudge, shown);
  }

  /** The banner's icon: the nudge's own icon when it has a non-empty one,
      else the bulb. */
  function BannerIcon(n: Notification): string
  {
    if n.icon.Some? && n.icon.value != [] then n.icon.value else "\U{1F4A1}"
  }

  /** A nudge's banner shows the icon the notification panel shows for it. */
  lemma BannerIconMatchesPanel(n: Notification)
    requires n.kind == "nudge"
    ensures BannerIcon(n) == NotificationIcon(n.kind, n.icon)
  {
  }

  /** The banner's "Dismiss" button: the nudge's id joins the dismissed
      ids and the nudge is marked read (`response` is how that call ends).
      Whether or not marking it read succeeds, no banner with that id is
      shown afterwards. */
  method DismissBanner(nudges: DismissedNudgesProvider, store: NotificationProvider, id: string, response: Response<()>)
    modifies nudges, store
    ensures nudges.dismissed == Dismissed(old(nudges.dismissed), id)
    ensures store.user == old(store.user)
    ensures store.notifications == if old(store.user).Some? && response.Success?
                                   then MarkReadById(old(store.notifications), id) else old(store.notifications)
    ensures forall n :: n in NudgeBanners(store.notifications, nudges.dismissed) ==> n.id != id
  {
    nudges.DismissNudge(id);
    store.MarkAsRead(id, response);
  }
}
