/** The dashboard's top bar: the notification list with its unread badge and
    mark-as-read actions, and the two dropdowns (notifications and user menu)
    that never stand open together. */
module Topbar {

  /** One notification; `id` is the key by which it is marked read. */
  datatype Notification = Notification(id: string, title: string, message: string, time: string, isRead: bool)

  /** The three notifications the bar starts with. */
  const InitialNotifications: seq<Notification> := [
    Notification("1", "New Grant Available", "Small Business Innovation Research grant is now open", "2 hours ago", false),
    Notification("2", "Application Status Update", "Your Tech Startup Grant application is under review", "1 day ago", false),
    Notification("3", "Milestone Reminder", "Quarterly report due in 3 days", "2 days ago", true)
  ]

  /** `notifications.filter(n => !n.isRead).length`. */
  function UnreadCount(ns: seq<Notification>): (k: nat)
    ensures k <= |ns|
  {
    if ns == [] then 0
    else (if !ns[0].isRead then 1 else 0) + UnreadCount(ns[1..])
  }

  /** `markAsRead(id)`: the notifications with that id become read. */
  function MarkAsRead(ns: seq<Notification>, id: string): (r: seq<Notification>)
    ensures |r| == |ns|
    ensures forall i :: 0 <= i < |ns| ==>
      r[i].id == ns[i].id && r[i].title == ns[i].title && r[i].message == ns[i].message && r[i].time == ns[i].time
    ensures forall i :: 0 <= i < |ns| ==> r[i].isRead == (ns[i].isRead || ns[i].id == id)
  {
    seq(|ns|, i requires 0 <= i < |ns| => if ns[i].id == id then ns[i].(isRead := true) else ns[i])
  }

  /** `markAllAsRead()`: every notification becomes read. */
  function MarkAllAsRead(ns: seq<Notification>): (r: seq<Notification>)
    ensures |r| == |ns|
    ensures forall i :: 0 <= i < |ns| ==> r[i] == ns[i].(isRead := true)
  {
    seq(|ns|, i requires 0 <= i < |ns| => ns[i].(isRead := true))
  }

  /** Both the badge and the "Mark all read" button appear only while something is unread. */
  predicate ShowUnreadControls(ns: seq<Notification>)
  {
    UnreadCount(ns) > 0
  }

  /** The count is zero exactly when every notification is read. */
  lemma {:induction false} UnreadZeroIff(ns: seq<Notification>)
    ensures UnreadCount(ns) == 0 <==> forall i :: 0 <= i < |ns| ==> ns[i].isRead
  {
    if ns != [] {
      UnreadZeroIff(ns[1..]);
      assert forall i :: 1 <= i < |ns| ==> ns[i] == ns[1..][i - 1];
    }
  }

  /** The badge and "Mark all read" show exactly when some notification is unread. */
  lemma ShowUnreadControlsIff(ns: seq<Notification>)
    ensures ShowUnreadControls(ns) <==> exists i :: 0 <= i < |ns| && !ns[i].isRead
  {
    UnreadZeroIff(ns);
  }

  /** Marking one id read leaves every notification with another id exactly as
      it was, and sets the notifications with that id to read and nothing else. */
  lemma MarkAsReadOnlyTouchesId(ns: seq<Notification>, id: string)
    ensures forall i :: 0 <= i < |ns| && ns[i].id != id ==> MarkAsRead(ns, id)[i] == ns[i]
    ensures forall i :: 0 <= i < |ns| && ns[i].id == id ==> MarkAsRead(ns, id)[i] == ns[i].(isRead := true)
  {
  }

  /** Marking the same id read twice is the same as once. */
  lemma MarkAsReadIdempotent(ns: seq<Notification>, id: string)
    ensures MarkAsRead(MarkAsRead(ns, id), id) == MarkAsRead(ns, id)
  {
  }

  /** Marking one id read never raises the count, and lowers it when some
      notification with that id was unread. */
  lemma {:induction false} MarkAsReadLowersCount(ns: seq<Notification>, id: string)
    ensures UnreadCount(MarkAsRead(ns, id)) <= UnreadCount(ns)
    ensures (exists i :: 0 <= i < |ns| && ns[i].id == id && !ns[i].isRead) ==>
      UnreadCount(MarkAsRead(ns, id)) < UnreadCount(ns)
  {
    if ns != [] {
      var r := MarkAsRead(ns, id);
      assert r[1..] == MarkAsRead(ns[1..], id);
      MarkAsReadLowersCount(ns[1..], id);
      if exists i :: 0 <= i < |ns| && ns[i].id == id && !ns[i].isRead {
        var i :| 0 <= i < |ns| && ns[i].id == id && !ns[i].isRead;
        if i > 0 {
          assert ns[1..][i - 1] == ns[i];
        }
      }
    }
  }

  /** After marking everything read nothing is unread and the controls hide. */
  lemma MarkAllAsReadClears(ns: seq<Notification>)
    ensures UnreadCount(MarkAllAsRead(ns)) == 0
    ensures !ShowUnreadControls(MarkAllAsRead(ns))
  {
    UnreadZeroIff(MarkAllAsRead(ns));
  }

  /** Two of the three initial notifications are unread. */
  lemma InitialUnreadCount()
    ensures UnreadCount(InitialNotifications) == 2
    ensures ShowUnreadControls(InitialNotifications)
  {
    assert InitialNotifications[1..][1..][1..] == [];
  }

  /** The bar's state slots that its handlers change. */
  class TopBar {
    var notifications: seq<Notification>
    var isNotificationDropdownOpen: bool
    var isUserDropdownOpen: bool

    /** At most one dropdown is open. */
    predicate Valid()
      reads this
    {
      !(isNotificationDropdownOpen && isUserDropdownOpen)
    }

    /** The initial notifications, both dropdowns closed. */
    constructor ()
      ensures Valid()
      ensures notifications == InitialNotifications
      ensures !isNotificationDropdownOpen && !isUserDropdownOpen
    {
      notifications := InitialNotifications;
      isNotificationDropdownOpen := false;
      isUserDropdownOpen := false;
    }

    /** The bell button: flips the notification dropdown and closes the user menu. */
    method ToggleNotificationDropdown()
      modifies this
      ensures Valid()
      ensures isNotificationDropdownOpen == !old(isNotificationDropdownOpen)
      ensures !isUserDropdownOpen
      ensures notifications == old(notifications)
    {
      isNotificationDropdownOpen := !isNotificationDropdownOpen;
      isUserDropdownOpen := false;
    }

    /** The avatar button: flips the user menu and closes the notification dropdown. */
    method ToggleUserDropdown()
      modifies this
      ensures Valid()
      ensures isUserDropdownOpen == !old(isUserDropdownOpen)
      ensures !isNotificationDropdownOpen
      ensures notifications == old(notifications)
    {
      isUserDropdownOpen := !isUserDropdownOpen;
      isNotificationDropdownOpen := false;
    }

    /** A navigation link in the user menu closes both dropdowns. */
    method CloseAllDropdowns()
      modifies this
      ensures Valid()
      ensures !isNotificationDropdownOpen && !isUserDropdownOpen
      ensures notifications == old(notifications)
    {
      isNotificationDropdownOpen := false;
      isUserDropdownOpen := false;
    }

    /** Clicking a notification marks it read. */
    method MarkNotificationRead(id: string)
      requires Valid()
      modifies this
      ensures Valid()
      ensures notifications == MarkAsRead(old(notifications), id)
      ensures UnreadCount(notifications) <= UnreadCount(old(notifications))
      ensures isNotificationDropdownOpen == old(isNotificationDropdownOpen)
      ensures isUserDropdownOpen == old(isUserDropdownOpen)
    {
      MarkAsReadLowersCount(notifications, id);
      notifications := MarkAsRead(notifications, id);
    }

    /** "Mark all read": every notification becomes read. */
    method MarkAllNotificationsRead()
      requires Valid()
      modifies this
      ensures Valid()
      ensures notifications == MarkAllAsRead(old(notifications))
      ensures UnreadCount(notifications) == 0
      ensures isNotificationDropdownOpen == old(isNotificationDropdownOpen)
      ensures isUserDropdownOpen == old(isUserDropdownOpen)
    {
      MarkAllAsReadClears(notifications);
      notifications := MarkAllAsRead(notifications);
    }
  }
}
