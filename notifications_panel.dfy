/** The notifications sheet (src/components/notifications-panel.tsx): the
    unread counter, mark-one-read, mark-all-read, clear-all, and when the
    badge, the footer and the "Mark All Read" button are shown or enabled. */
module NotificationsPanel {
  import opened Seqs

  datatype Notification = Notification(
    id: int,
    kind: string,                 // the `type` field
    title: string,
    description: string,
    timestamp: int,               // epoch milliseconds
    read: bool,
    iconUrl: string)

  predicate IsUnread(n: Notification) {
    !n.read
  }

  /** `notifications.filter(n => !n.read).length`. */
  function UnreadCount(ns: seq<Notification>): nat {
    |Filter(ns, IsUnread)|
  }

  /** The counter is zero exactly when every notification is read. */
  lemma {:induction false} UnreadCountZero(ns: seq<Notification>)
    ensures UnreadCount(ns) == 0 <==> forall n :: n in ns ==> n.read
  {
    if ns != [] {
      UnreadCountZero(ns[1..]);
      assert ns == [ns[0]] + ns[1..];
    }
  }

  predicate IsUnreadWithId(id: int, n: Notification) {
    !n.read && n.id == id
  }

  function UnreadWithId(id: int): Notification -> bool {
    (n: Notification) => IsUnreadWithId(id, n)
  }

  /** `map(n => n.id === id ? { ...n, read: true } : n)`. */
  function MarkRead(ns: seq<Notification>, id: int): (r: seq<Notification>)
    ensures |r| == |ns|
    ensures forall i :: 0 <= i < |ns| && ns[i].id == id ==> r[i] == ns[i].(read := true)
    ensures forall i :: 0 <= i < |ns| && ns[i].id != id ==> r[i] == ns[i]
  {
    if ns == [] then []
    else [if ns[0].id == id then ns[0].(read := true) else ns[0]] + MarkRead(ns[1..], id)
  }

  /** Marking one id read lowers the counter by exactly the number of unread
      notifications with that id, so it never raises it. */
  lemma {:induction false} MarkReadCount(ns: seq<Notification>, id: int)
    ensures UnreadCount(MarkRead(ns, id)) == UnreadCount(ns) - |Filter(ns, UnreadWithId(id))|
    ensures UnreadCount(MarkRead(ns, id)) <= UnreadCount(ns)
  {
    if ns != [] {
      MarkReadCount(ns[1..], id);
      var r := MarkRead(ns, id);
      assert r[1..] == MarkRead(ns[1..], id);
      assert r == [r[0]] + r[1..];
    }
  }

  /** Marking an id no notification has changes nothing. */
  lemma MarkReadAbsentIsNoop(ns: seq<Notification>, id: int)
    requires forall n :: n in ns ==> n.id != id
    ensures MarkRead(ns, id) == ns
  {
    assert forall i :: 0 <= i < |ns| ==> ns[i] in ns;
  }

  /** `map(n => ({ ...n, read: true }))`. */
  function MarkAllRead(ns: seq<Notification>): (r: seq<Notification>)
    ensures |r| == |ns|
    ensures forall i :: 0 <= i < |ns| ==> r[i] == ns[i].(read := true)
  {
    if ns == [] then [] else [ns[0].(read := true)] + MarkAllRead(ns[1..])
  }

  /** After marking all read the counter is zero, and doing it again changes nothing. */
  lemma MarkAllReadSpec(ns: seq<Notification>)
    ensures UnreadCount(MarkAllRead(ns)) == 0
    ensures MarkAllRead(MarkAllRead(ns)) == MarkAllRead(ns)
  {
    var r := MarkAllRead(ns);
    UnreadCountZero(r);
  }

  /** The red counter on the bell is shown only while something is unread. */
  predicate BadgeShown(ns: seq<Notification>) {
    UnreadCount(ns) > 0
  }

  /** The footer with both buttons is shown only for a non-empty list. */
  predicate FooterShown(ns: seq<Notification>) {
    |ns| > 0
  }

  /** "Mark All Read" is disabled when nothing is unread. */
  predicate MarkAllDisabled(ns: seq<Notification>) {
    UnreadCount(ns) == 0
  }

  /** "Mark All Read" is disabled iff every notification is read, so it is
      always disabled once pressed, and the badge shows iff it is enabled. */
  lemma MarkAllButtonSpec(ns: seq<Notification>)
    ensures MarkAllDisabled(ns) <==> forall n :: n in ns ==> n.read
    ensures MarkAllDisabled(MarkAllRead(ns))
    ensures BadgeShown(ns) <==> !MarkAllDisabled(ns)
  {
    UnreadCountZero(ns);
    MarkAllReadSpec(ns);
  }

  class NotificationsPanel {
    var notifications: seq<Notification>

    constructor (initial: seq<Notification>)
      ensures notifications == initial
    {
      notifications := initial;
    }

    /** `markAsRead`. */
    method MarkAsRead(id: int)
      modifies this
      ensures notifications == MarkRead(old(notifications), id)
      ensures UnreadCount(notifications) <= UnreadCount(old(notifications))
    {
      MarkReadCount(notifications, id);
      notifications := MarkRead(notifications, id);
    }

    /** `markAllAsRead`. */
    method MarkAllAsRead()
      modifies this
      ensures notifications == MarkAllRead(old(notifications))
      ensures UnreadCount(notifications) == 0
    {
      MarkAllReadSpec(notifications);
      notifications := MarkAllRead(notifications);
    }

    /** `clearAllNotifications`: the list is emptied, the footer disappears
        and nothing is unread. */
    method ClearAllNotifications()
      modifies this
      ensures notifications == []
      ensures UnreadCount(notifications) == 0 && !FooterShown(notifications)
    {
      notifications := [];
    }
  }
}
