/**
 * The notifications screen (src/components/NotificationsScreen.tsx): a
 * constant list per language, the number of unread notifications (shown as
 * a badge, together with a "Mark All Read" button that has no handler), an
 * empty-state branch, and three `switch` lookups from a notification's type
 * or priority to an icon or a colour. Titles, messages and times are
 * wording and are not modelled.
 */
module NotificationsScreen {

  import opened Wrappers
  import opened App

  datatype Notification = Notification(id: nat, kind: string, priority: string, read: bool)

  datatype Icon = Cloud | Droplets | AlertTriangle | TrendingUp | Bell

  datatype Color = Red | Yellow | Blue | Purple | Cyan | Green | Gray

  /** The notifications of each language's list, in order. */
  function Notifications(l: Language): seq<Notification> {
    match l
    case En => [
      Notification(1, "weather", "high", false),
      Notification(2, "irrigation", "medium", false),
      Notification(3, "disease", "high", true),
      Notification(4, "market", "low", true),
      Notification(5, "fertilizer", "medium", true)]
    case Ur => [
      Notification(1, "weather", "high", false),
      Notification(2, "irrigation", "medium", false),
      Notification(3, "disease", "high", true),
      Notification(4, "market", "low", true),
      Notification(5, "fertilizer", "medium", true)]
  }

  /** getNotificationIcon. */
  function NotificationIcon(kind: string): Icon {
    if kind == "weather" then Cloud
    else if kind == "irrigation" then Droplets
    else if kind == "disease" then AlertTriangle
    else if kind == "market" then TrendingUp
    else Bell
  }

  /** getPriorityColor. */
  function PriorityColor(priority: string): Color {
    if priority == "high" then Red
    else if priority == "medium" then Yellow
    else if priority == "low" then Blue
    else Gray
  }

  /** getTypeColor. */
  function TypeColor(kind: string): Color {
    if kind == "weather" then Purple
    else if kind == "irrigation" then Cyan
    else if kind == "disease" then Red
    else if kind == "market" then Green
    else if kind == "fertilizer" then Yellow
    else Gray
  }

  /** unreadCount: the length of the list filtered to `!read`. */
  function UnreadCount(ns: seq<Notification>): nat {
    if |ns| == 0 then 0
    else UnreadCount(ns[..|ns| - 1]) + (if ns[|ns| - 1].read then 0 else 1)
  }

  /** The positions of the unread notifications. */
  function UnreadPositions(ns: seq<Notification>): set<nat> {
    set i: nat | i < |ns| && !ns[i].read
  }

  /** Appending a notification adds its position to the unread positions exactly when it is unread. */
  lemma UnreadPositionsSnoc(ns: seq<Notification>)
    requires |ns| > 0
    ensures UnreadPositions(ns) == UnreadPositions(ns[..|ns| - 1]) + (if ns[|ns| - 1].read then {} else {|ns| - 1})
    ensures |ns| - 1 !in UnreadPositions(ns[..|ns| - 1])
  {
    var init := ns[..|ns| - 1];
    forall i: nat | i < |ns| - 1
      ensures ns[i] == init[i]
    {
    }
  }

  /** The count is the number of unread positions, and it is positive exactly when some notification is unread. */
  lemma {:induction false} UnreadCountCounts(ns: seq<Notification>)
    ensures UnreadCount(ns) == |UnreadPositions(ns)|
    ensures UnreadCount(ns) > 0 <==> exists i :: 0 <= i < |ns| && !ns[i].read
    ensures UnreadCount(ns) <= |ns|
  {
    if |ns| > 0 {
      var last := |ns| - 1;
      var init := ns[..last];
      UnreadCountCounts(init);
      UnreadPositionsSnoc(ns);
      if UnreadCount(init) > 0 {
        var j :| 0 <= j < |init| && !init[j].read;
        assert !ns[j].read;
      }
      if ns[last].read && UnreadCount(init) == 0 {
        forall i | 0 <= i < |ns|
          ensures ns[i].read
        {
          if i < last {
            assert ns[i] == init[i];
          }
        }
      }
    }
  }

  /** The header and body the screen renders. */
  datatype Body = EmptyState | Cards(icons: seq<Icon>)

  datatype View = View(badge: Option<nat>, markAllRead: bool, body: Body)

  /** What the screen shows for a list: badge and button only with unread notifications, cards unless the list is empty. */
  function Render(ns: seq<Notification>): View {
    var count := UnreadCount(ns);
    View(
      if count > 0 then Some(count) else None,
      count > 0,
      if |ns| == 0 then EmptyState else Cards(seq(|ns|, i requires 0 <= i < |ns| => NotificationIcon(ns[i].kind))))
  }

  /**
   * The badge and the "Mark All Read" button appear exactly when some
   * notification is unread, the badge showing their number; the empty state
   * appears exactly for an empty list, otherwise one card per notification.
   */
  lemma RenderShows(ns: seq<Notification>)
    ensures Render(ns).badge.Some? <==> Render(ns).markAllRead
    ensures Render(ns).markAllRead <==> exists i :: 0 <= i < |ns| && !ns[i].read
    ensures Render(ns).badge.Some? ==> Render(ns).badge.value == |UnreadPositions(ns)|
    ensures Render(ns).body.EmptyState? <==> ns == []
    ensures Render(ns).body.Cards? ==> |Render(ns).body.icons| == |ns|
  {
    UnreadCountCounts(ns);
  }

  /** The three priorities get three distinct non-gray colours, and anything else gray; an unknown type gets the bell. */
  lemma Lookups(p: string, kind: string)
    ensures PriorityColor("high") != PriorityColor("medium") && PriorityColor("medium") != PriorityColor("low")
    ensures PriorityColor("low") != PriorityColor("high")
    ensures PriorityColor(p) == Gray <==> p !in {"high", "medium", "low"}
    ensures kind !in {"weather", "irrigation", "disease", "market"} ==> NotificationIcon(kind) == Bell
    ensures TypeColor(kind) == Gray <==> kind !in {"weather", "irrigation", "disease", "market", "fertilizer"}
  {
  }

  /** Both lists agree on ids, types, priorities and read flags; two of five are unread in either language. */
  lemma ShippedLists(l: Language)
    ensures Notifications(l) == Notifications(Toggled(l))
    ensures |Notifications(l)| == 5
    ensures UnreadCount(Notifications(l)) == 2
    ensures Render(Notifications(l)).badge == Some(2)
  {
    var ns := Notifications(l);
    UnreadCountCounts(ns);
    assert UnreadPositions(ns) == {0, 1};
  }
}
