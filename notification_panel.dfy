/** The notification panel: the list shown, with the nudges whose title and
    message were dismissed left out, and the icon and style of each entry. */
module NotificationPanel {
  import opened Prelude
  import opened NotificationContext

  /** `n.title + '||' + n.message`, the text nudges are matched by. */
  function PairKey(n: Notification): string
  {
    n.title + "||" + n.message
  }

  /** `dismissedNudgePairs`: the keys of the notifications whose id is
      among the dismissed ids. */
  function DismissedPairs(ns: seq<Notification>, dismissed: seq<string>): (r: set<string>)
    ensures forall k :: k in r <==> exists i :: 0 <= i < |ns| && ns[i].id in dismissed && PairKey(ns[i]) == k
  {
    set i | 0 <= i < |ns| && ns[i].id in dismissed :: PairKey(ns[i])
  }

  /** The panel keeps a notification unless it is a nudge with a dismissed key. */
  predicate Kept(n: Notification, pairs: set<string>)
  {
    n.kind != "nudge" || PairKey(n) !in pairs
  }

  /** `filteredNotifications`: in order, every notification that is not a
      nudge, and the nudges whose key no dismissed notification has. */
  function FilteredNotifications(ns: seq<Notification>, dismissed: seq<string>): (r: seq<Notification>)
    ensures IsSubsequence(r, ns)
    ensures forall n :: n in r <==> n in ns && (n.kind != "nudge" || PairKey(n) !in DismissedPairs(ns, dismissed))
    ensures |r| == Count(ns, (n: Notification) => Kept(n, DismissedPairs(ns, dismissed)))
  {
    var pairs := DismissedPairs(ns, dismissed);
    FilterIsSubsequence(ns, (n: Notification) => Kept(n, pairs));
    FilterLength(ns, (n: Notification) => Kept(n, pairs));
    FilterMembers(ns, (n: Notification) => Kept(n, pairs));
    Filter(ns, (n: Notification) => Kept(n, pairs))
  }

  /** Notifications that are not nudges are always listed; a dismissed
      nudge is never listed, nor is any nudge with the same title and
      message as a dismissed notification; with nothing dismissed the list
      is shown whole. */
  lemma FilteredNotificationsSpec(ns: seq<Notification>, dismissed: seq<string>)
    ensures forall n :: n in ns && n.kind != "nudge" ==> n in FilteredNotifications(ns, dismissed)
    ensures forall i, j :: 0 <= i < |ns| && 0 <= j < |ns| && ns[i].id in dismissed
                           && ns[j].kind == "nudge" && PairKey(ns[j]) == PairKey(ns[i])
                           ==> ns[j] !in FilteredNotifications(ns, dismissed)
    ensures dismissed == [] ==> FilteredNotifications(ns, dismissed) == ns
  {
    if dismissed == [] {
      FilterAll(ns, (n: Notification) => Kept(n, DismissedPairs(ns, dismissed)));
    }
  }

  /** Two different title and message pairs can share a key, so a nudge can
      be hidden by a dismissed notification with another title. */
  lemma PairKeysCanCollide()
    ensures var a := Notification("1", "nudge", "a||b", "c", 0, false, None);
            var b := Notification("2", "nudge", "a", "b||c", 0, false, None);
            (a.title, a.message) != (b.title, b.message) && PairKey(a) == PairKey(b)
  {
    var a := Notification("1", "nudge", "a||b", "c", 0, false, None);
    var b := Notification("2", "nudge", "a", "b||c", 0, false, None);
    assert a.title != b.title by {
      assert |a.title| != |b.title|;
    }
    assert PairKey(a) == "a||b||c" == PairKey(b);
  }

  /** The notification types that have their own icon and style. */
  const KnownKinds: set<string> := {"achievement", "warning", "nudge", "success"}

  const DefaultIcon: string := "\U{1F4C4}"

  /** The icon of a notification type. */
  function KindIcon(kind: string): string
  {
    if kind == "achievement" then "\U{1F3C6}"
    else if kind == "warning" then "\U{26A0}\U{FE0F}"
    else if kind == "nudge" then "\U{1F4A1}"
    else if kind == "success" then "\U{2705}"
    else DefaultIcon
  }

  /** `getNotificationIcon`: the notification's own icon when it has a
      non-empty one; otherwise the icon of its type, and the page icon
      exactly when the type is not one of the known ones. */
  function NotificationIcon(kind: string, icon: Option<string>): (r: string)
    ensures icon.Some? && icon.value != [] ==> r == icon.value
    ensures (icon.None? || icon.value == []) ==> r == KindIcon(kind) && (r == DefaultIcon <==> kind !in KnownKinds)
  {
    if icon.Some? && icon.value != [] then icon.value else KindIcon(kind)
  }

  const DefaultStyle: string := "bg-card border"

  /** `getNotificationStyle`: the classes of the type's card, and the
      default ones exactly for a type that is not one of the known ones. */
  function NotificationStyle(kind: string): (r: string)
    ensures r == DefaultStyle <==> kind !in KnownKinds
  {
    if kind == "achievement" then "bg-gradient-to-r from-bloom-yellow to-bloom-coral text-white border-0"
    else if kind == "warning" then "bg-yellow-50 dark:bg-yellow-900/20 border-yellow-200 dark:border-yellow-800"
    else if kind == "nudge" then "bg-sage-light/10 dark:bg-sage/20 border-sage-light dark:border-sage"
    else if kind == "success" then "bg-green-50 dark:bg-green-900/20 border-green-200 dark:border-green-800"
    else DefaultStyle
  }
}
