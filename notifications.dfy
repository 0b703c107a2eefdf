/**
 * The notifications page over its fixed list: the unread counter, the unread tab and the
 * buttons of a notification card on each tab.
 */
module Notifications {
  import opened Seqs

  /** A notification (the fields the page decides on). */
  datatype Notification = Notification(id: string, category: string, read: bool, actionUrl: string)

  const AllNotifications: seq<Notification> := [
    Notification("N-001", "decision", false, "/decisions"),
    Notification("N-002", "issue", false, "/issues"),
    Notification("N-003", "meeting", true, "/meetings"),
    Notification("N-004", "project", true, "/portfolio")
  ]

  /** The list the unread tab renders. */
  function UnreadTab(notifications: seq<Notification>): (r: seq<Notification>)
    ensures IsSubsequence(r, notifications)
    ensures forall k :: 0 <= k < |r| ==> !r[k].read
    ensures forall k :: 0 <= k < |notifications| && !notifications[k].read ==> notifications[k] in r
    ensures multiset(r) <= multiset(notifications)
    ensures forall i :: 0 <= i < |notifications| && !notifications[i].read ==> multiset(r)[notifications[i]] == multiset(notifications)[notifications[i]]
    ensures |r| == |Positions(notifications, (n: Notification) => !n.read)|
  {
    var unread := (n: Notification) => !n.read;
    FilterIsSubsequence(notifications, unread);
    FilterMultiset(notifications, unread);
    FilterCount(notifications, unread);
    Filter(notifications, unread)
  }

  /** The cards (Unread, Total) and the label of the unread tab. */
  datatype Counters = Counters(unread: nat, total: nat, unreadLabel: nat)

  function CountersOf(notifications: seq<Notification>): (c: Counters)
    ensures c.unread == c.unreadLabel == |UnreadTab(notifications)|
    ensures c.total == |notifications|
    ensures c.unread <= c.total
  {
    var unreadCount := |Filter(notifications, (n: Notification) => !n.read)|;
    Counters(unreadCount, |notifications|, unreadCount)
  }

  /** The counter is zero exactly when every notification has been read. */
  lemma NoUnreadIffAllRead(notifications: seq<Notification>)
    ensures CountersOf(notifications).unread == 0 <==> forall k :: 0 <= k < |notifications| ==> notifications[k].read
  {
    var f := UnreadTab(notifications);
    if f != [] {
      assert !f[0].read && f[0] in notifications;
    }
  }

  /** What a card shows besides its text, on the tab that renders it. */
  datatype CardParts = CardParts(newBadge: bool, markAsRead: bool, viewDetails: bool)

  /** A card of the all tab: "New" and "Mark as Read" when unread, "View Details" when there is a link. */
  function AllTabCard(n: Notification): (c: CardParts)
    ensures c.newBadge <==> !n.read
    ensures c.markAsRead <==> !n.read
    ensures c.viewDetails <==> n.actionUrl != ""
  {
    CardParts(!n.read, !n.read, n.actionUrl != "")
  }

  /** A card of the unread tab: no badge, and both buttons whatever the notification holds. */
  function UnreadTabCard(n: Notification): (c: CardParts)
    ensures !c.newBadge && c.markAsRead && c.viewDetails
  {
    CardParts(false, true, true)
  }

  /** The cards offering "Mark as Read" on the all tab are exactly those of the unread tab. */
  lemma MarkAsReadMatchesUnreadTab(notifications: seq<Notification>)
    ensures forall k :: 0 <= k < |notifications| ==>
      (AllTabCard(notifications[k]).markAsRead <==> notifications[k] in UnreadTab(notifications))
  {
  }

  /** An unread notification without a link: the unread tab offers "View Details", the all tab does not. */
  lemma UnreadTabOffersDetailsWithoutLink(n: Notification)
    requires !n.read && n.actionUrl == ""
    ensures UnreadTabCard(n).viewDetails && !AllTabCard(n).viewDetails
  {
  }

  /** Any four notifications of which the first two are unread. */
  lemma ShapeCounts(s: seq<Notification>)
    requires |s| == 4 && !s[0].read && !s[1].read && s[2].read && s[3].read
    ensures UnreadTab(s) == s[..2]
    ensures CountersOf(s) == Counters(2, 4, 2)
  {
    var unread := (n: Notification) => !n.read;
    assert s == s[..2] + s[2..];
    FilterAll(s[..2], unread);
    FilterNone(s[2..], unread);
    FilterAppend(s[..2], s[2..], unread);
  }

  /** The fixed list: two unread of four, and every notification has a link. */
  lemma FixedListCounts()
    ensures CountersOf(AllNotifications) == Counters(2, 4, 2)
    ensures UnreadTab(AllNotifications) == AllNotifications[..2]
    ensures forall k :: 0 <= k < |AllNotifications| ==> AllTabCard(AllNotifications[k]).viewDetails
  {
    ShapeCounts(AllNotifications);
  }
}
