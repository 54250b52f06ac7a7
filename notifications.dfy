/**
 * The notifications page: the list operations behind "mark as read",
 * "mark all as read", the filter tabs and the unread badge, and the page
 * state that holds the list.
 */
module Notifications {
  import opened Wrappers

  datatype Notification = Notification(
    id: string,
    kind: string,        // 'interview', 'system' or 'success' in the mock data
    title: string,
    message: string,
    timestamp: string,
    isRead: bool)

  /** The list the mock fetch resolves with. */
  const MOCK_NOTIFICATIONS: seq<Notification> := [
    Notification("n_1", "interview", "Interview Reminder: React Developer",
      "Your mock interview for the Mid-Level React Developer role starts in 2 hours. Click here to review your preparation materials.",
      "2 hours ago", false),
    Notification("n_2", "success", "Feedback Analysis Complete",
      "The AI feedback for your recent System Design mock interview is now available. You scored an 82%!",
      "1 day ago", false),
    Notification("n_3", "system", "Platform Maintenance",
      "IntervAI will undergo scheduled maintenance on Sunday from 2 AM to 4 AM UTC. Mock interview sessions will be unavailable.",
      "3 days ago", true),
    Notification("n_4", "interview", "New Role Roadmap Available",
      "Based on your recent performance, a new personalized roadmap for Senior Frontend Engineer has been generated.",
      "1 week ago", true)
  ]

  // ---------------------------------------------------------------------
  // Lookup and updates
  // ---------------------------------------------------------------------

  /** `notifications.find(n => n.id === id)`: the first notification with that id. */
  function Find(ns: seq<Notification>, id: string): (r: Option<Notification>)
    ensures r.None? <==> forall i :: 0 <= i < |ns| ==> ns[i].id != id
    ensures r.Some? ==> r.value in ns && r.value.id == id
    decreases |ns|
  {
    if ns == [] then None
    else if ns[0].id == id then Some(ns[0])
    else Find(ns[1..], id)
  }

  /** What `find` returns is the notification at the first position holding the id. */
  lemma {:induction false} FindIsFirst(ns: seq<Notification>, id: string, k: int)
    requires FirstWithId(ns, id, k)
    ensures Find(ns, id) == Some(ns[k])
    decreases |ns|
  {
    if k > 0 {
      FindIsFirst(ns[1..], id, k - 1);
    }
  }

  /** `k` is the first position of `ns` holding `id`. */
  predicate FirstWithId(ns: seq<Notification>, id: string, k: int) {
    0 <= k < |ns| && ns[k].id == id && forall j :: 0 <= j < k ==> ns[j].id != id
  }

  /** The map in `handleMarkAsRead`: every notification with `id` becomes read. */
  function ReadWithId(ns: seq<Notification>, id: string): (r: seq<Notification>)
    ensures |r| == |ns|
    ensures forall i :: 0 <= i < |ns| ==>
              r[i] == if ns[i].id == id then ns[i].(isRead := true) else ns[i]
    decreases |ns|
  {
    if ns == [] then []
    else [if ns[0].id == id then ns[0].(isRead := true) else ns[0]] + ReadWithId(ns[1..], id)
  }

  /** `handleMarkAsRead(id)`: acts only when the first match exists and is unread. */
  function MarkAsRead(ns: seq<Notification>, id: string): (r: seq<Notification>)
    ensures |r| == |ns|
    ensures forall i :: 0 <= i < |ns| ==> r[i] == ns[i] || r[i] == ns[i].(isRead := true)
    ensures forall i :: 0 <= i < |ns| && ns[i].id != id ==> r[i] == ns[i]
  {
    match Find(ns, id)
    case Some(n) => if !n.isRead then ReadWithId(ns, id) else ns
    case None => ns
  }

  predicate HasUnread(ns: seq<Notification>) {
    exists i :: 0 <= i < |ns| && !ns[i].isRead
  }

  /** Every notification becomes read. */
  function ReadAll(ns: seq<Notification>): (r: seq<Notification>)
    ensures |r| == |ns|
    ensures forall i :: 0 <= i < |ns| ==> r[i] == ns[i].(isRead := true)
    decreases |ns|
  {
    if ns == [] then [] else [ns[0].(isRead := true)] + ReadAll(ns[1..])
  }

  /** `handleMarkAllAsRead`: returns early when nothing is unread. */
  function MarkAllAsRead(ns: seq<Notification>): (r: seq<Notification>)
    ensures |r| == |ns|
    ensures forall i :: 0 <= i < |ns| ==> r[i] == ns[i].(isRead := true)
  {
    if !HasUnread(ns) then ns else ReadAll(ns)
  }

  // ---------------------------------------------------------------------
  // Filters and the badge
  // ---------------------------------------------------------------------

  /** Whether a notification is shown under a filter tab. */
  predicate Shown(n: Notification, filter: string) {
    if filter == "unread" then !n.isRead
    else if filter == "system" then n.kind == "system"
    else if filter == "interview" then n.kind == "interview"
    else true
  }

  /** `Array.prototype.filter` with `Shown`. */
  function Select(ns: seq<Notification>, filter: string): (r: seq<Notification>)
    ensures |r| <= |ns|
    ensures forall i :: 0 <= i < |r| ==> Shown(r[i], filter)
    decreases |ns|
  {
    if ns == [] then []
    else (if Shown(ns[0], filter) then [ns[0]] else []) + Select(ns[1..], filter)
  }

  /** `getFilteredNotifications`: a named filter selects, any other value shows the whole list. */
  function Filtered(ns: seq<Notification>, filter: string): (r: seq<Notification>)
    ensures |r| <= |ns|
    ensures forall i :: 0 <= i < |r| ==> Shown(r[i], filter)
  {
    if filter == "unread" || filter == "system" || filter == "interview" then Select(ns, filter)
    else ns
  }

  /** `notifications.filter(n => !n.isRead).length`. */
  function UnreadCount(ns: seq<Notification>): (r: nat)
    ensures r <= |ns|
  {
    |Select(ns, "unread")|
  }

  /** `a` is `b` with some elements left out, the rest kept in order. */
  predicate IsSubsequence<T(==)>(a: seq<T>, b: seq<T>)
    decreases |b|
  {
    if a == [] then true
    else if b == [] then false
    else (a[0] == b[0] && IsSubsequence(a[1..], b[1..])) || IsSubsequence(a, b[1..])
  }

  // ---------------------------------------------------------------------
  // Properties of Select and Filtered
  // ---------------------------------------------------------------------

  /** A selection holds exactly the shown notifications. */
  lemma {:induction false} SelectMembers(ns: seq<Notification>, filter: string)
    ensures forall n :: n in Select(ns, filter) <==> n in ns && Shown(n, filter)
    decreases |ns|
  {
    if ns != [] {
      SelectMembers(ns[1..], filter);
      assert ns == [ns[0]] + ns[1..];
    }
  }

  /** A selection keeps the original order. */
  lemma {:induction false} SelectIsSubsequence(ns: seq<Notification>, filter: string)
    ensures IsSubsequence(Select(ns, filter), ns)
    decreases |ns|
  {
    if ns != [] {
      SelectIsSubsequence(ns[1..], filter);
      var rest := Select(ns[1..], filter);
      if Shown(ns[0], filter) {
        assert Select(ns, filter) == [ns[0]] + rest;
        assert ([ns[0]] + rest)[1..] == rest;
      } else {
        assert Select(ns, filter) == rest;
        if rest != [] {
          assert IsSubsequence(rest, ns[1..]);
        }
      }
    }
  }

  /** Every displayed list is a subsequence of the full list. */
  lemma FilteredIsSubsequence(ns: seq<Notification>, filter: string)
    ensures IsSubsequence(Filtered(ns, filter), ns)
  {
    SelectIsSubsequence(ns, filter);
    if !(filter == "unread" || filter == "system" || filter == "interview") {
      SelectIsSubsequence(ns, "all");
      SelectAllIsIdentity(ns);
    }
  }

  /** Selecting under a tab that hides nothing is the identity. */
  lemma {:induction false} SelectAllIsIdentity(ns: seq<Notification>)
    ensures Select(ns, "all") == ns
    decreases |ns|
  {
    if ns != [] {
      SelectAllIsIdentity(ns[1..]);
      assert ns == [ns[0]] + ns[1..];
    }
  }

  /** What each tab shows: exactly the unread, system or interview notifications, or all of them. */
  lemma FilteredMembers(ns: seq<Notification>, filter: string)
    ensures filter == "unread" ==> forall n :: n in Filtered(ns, filter) <==> n in ns && !n.isRead
    ensures filter == "system" ==> forall n :: n in Filtered(ns, filter) <==> n in ns && n.kind == "system"
    ensures filter == "interview" ==> forall n :: n in Filtered(ns, filter) <==> n in ns && n.kind == "interview"
    ensures !(filter == "unread" || filter == "system" || filter == "interview") ==> Filtered(ns, filter) == ns
  {
    SelectMembers(ns, filter);
  }

  /**
   * The unread tab shows as many notifications as the badge counts. Both are
   * the same unread filter, so this holds by definition, as it does on the page.
   */
  lemma UnreadTabMatchesBadge(ns: seq<Notification>)
    ensures |Filtered(ns, "unread")| == UnreadCount(ns)
  {
  }

  /** The badge is zero exactly when nothing is unread. */
  lemma {:induction false} UnreadCountZero(ns: seq<Notification>)
    ensures UnreadCount(ns) == 0 <==> !HasUnread(ns)
    decreases |ns|
  {
    if ns != [] {
      UnreadCountZero(ns[1..]);
      if !ns[0].isRead {
        assert HasUnread(ns) by { assert !ns[0].isRead; }
      } else {
        if HasUnread(ns) {
          var i :| 0 <= i < |ns| && !ns[i].isRead;
          assert !ns[1..][i - 1].isRead;
        }
        if HasUnread(ns[1..]) {
          var i :| 0 <= i < |ns[1..]| && !ns[1..][i].isRead;
          assert !ns[i + 1].isRead;
        }
      }
    }
  }

  // ---------------------------------------------------------------------
  // Properties of the updates
  // ---------------------------------------------------------------------

  /** Ids are unique, as in the mock data. */
  predicate UniqueIds(ns: seq<Notification>) {
    forall i, j :: 0 <= i < j < |ns| ==> ns[i].id != ns[j].id
  }

  /** With unique ids, marking an unread notification changes only its `isRead` flag. */
  lemma MarkAsReadOnlyTarget(ns: seq<Notification>, k: nat)
    requires UniqueIds(ns) && k < |ns| && !ns[k].isRead
    ensures MarkAsRead(ns, ns[k].id) == ns[k := ns[k].(isRead := true)]
  {
    assert FirstWithId(ns, ns[k].id, k);
    FindIsFirst(ns, ns[k].id, k);
  }

  /** A missing id or an already-read first match leaves the list unchanged. */
  lemma MarkAsReadNoop(ns: seq<Notification>, id: string)
    requires (forall i :: 0 <= i < |ns| ==> ns[i].id != id)
             || (exists k :: FirstWithId(ns, id, k) && ns[k].isRead)
    ensures MarkAsRead(ns, id) == ns
  {
    if Find(ns, id).Some? {
      var k :| FirstWithId(ns, id, k) && ns[k].isRead;
      FindIsFirst(ns, id, k);
    }
  }

  /** Marking one unread notification read lowers the badge by exactly one. */
  lemma {:induction false} UnreadCountAfterSetRead(ns: seq<Notification>, k: nat)
    requires k < |ns| && !ns[k].isRead
    ensures UnreadCount(ns[k := ns[k].(isRead := true)]) + 1 == UnreadCount(ns)
    decreases |ns|
  {
    var ms := ns[k := ns[k].(isRead := true)];
    assert ms[1..] == if k == 0 then ns[1..] else ns[1..][k - 1 := ns[k].(isRead := true)];
    if k > 0 {
      UnreadCountAfterSetRead(ns[1..], k - 1);
    }
  }

  /** With unique ids, `handleMarkAsRead` on an unread notification lowers the badge by one. */
  lemma MarkAsReadDecrementsBadge(ns: seq<Notification>, k: nat)
    requires UniqueIds(ns) && k < |ns| && !ns[k].isRead
    ensures UnreadCount(MarkAsRead(ns, ns[k].id)) + 1 == UnreadCount(ns)
  {
    MarkAsReadOnlyTarget(ns, k);
    UnreadCountAfterSetRead(ns, k);
  }

  /** After `handleMarkAllAsRead` everything is read, nothing else changed, and the badge is zero. */
  lemma MarkAllAsReadAllRead(ns: seq<Notification>)
    ensures |MarkAllAsRead(ns)| == |ns|
    ensures forall i :: 0 <= i < |ns| ==> MarkAllAsRead(ns)[i] == ns[i].(isRead := true)
    ensures !HasUnread(MarkAllAsRead(ns)) && UnreadCount(MarkAllAsRead(ns)) == 0
  {
    UnreadCountZero(MarkAllAsRead(ns));
  }

  /** Marking all read is a no-op when nothing is unread, hence idempotent. */
  lemma MarkAllAsReadIdempotent(ns: seq<Notification>)
    ensures !HasUnread(ns) ==> MarkAllAsRead(ns) == ns
    ensures MarkAllAsRead(MarkAllAsRead(ns)) == MarkAllAsRead(ns)
  {
    MarkAllAsReadAllRead(ns);
  }

  /** In the mock data two notifications are unread. */
  lemma MockUnreadCount()
    ensures UnreadCount(MOCK_NOTIFICATIONS) == 2
  {
  }

  // ---------------------------------------------------------------------
  // The page state
  // ---------------------------------------------------------------------

  class NotificationsPage {
    var isLoading: bool
    var notifications: seq<Notification>
    var activeFilter: string

    constructor ()
      ensures isLoading && notifications == [] && activeFilter == "all"
    {
      isLoading, notifications, activeFilter := true, [], "all";
    }

    /** The mock fetch resolved with `data`. */
    method Loaded(data: seq<Notification>)
      modifies this`isLoading, this`notifications
      ensures !isLoading && notifications == data
    {
      isLoading, notifications := false, data;
    }

    /** The list under the active tab. */
    function Displayed(): seq<Notification>
      reads this
    {
      Filtered(notifications, activeFilter)
    }

    /** The number on the unread badge. */
    function Badge(): nat
      reads this
    {
      UnreadCount(notifications)
    }

    method SelectTab(filter: string)
      modifies this`activeFilter
      ensures activeFilter == filter
    {
      activeFilter := filter;
    }

    /** The optimistic update of `handleMarkAsRead`; the PUT that follows is not modelled. */
    method HandleMarkAsRead(id: string)
      modifies this`notifications
      ensures notifications == MarkAsRead(old(notifications), id)
      ensures |notifications| == |old(notifications)|
    {
      var found := Find(notifications, id);
      if found.Some? && !found.value.isRead {
        notifications := ReadWithId(notifications, id);
      }
    }

    /** The optimistic update of `handleMarkAllAsRead`; the PUT that follows is not modelled. */
    method HandleMarkAllAsRead()
      modifies this`notifications
      ensures notifications == MarkAllAsRead(old(notifications))
      ensures Badge() == 0
    {
      if HasUnread(notifications) {
        notifications := ReadAll(notifications);
      }
      MarkAllAsReadAllRead(old(notifications));
    }
  }
}
