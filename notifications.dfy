/**
 * The notification list of the alerts page: marking entries as read, the
 * three filters, the unread counter, the relative-time label and the
 * background classes of an entry.
 */
module Notifications {
  import opened Wrappers

  datatype Kind = Alert | Info | Success

  /** One entry; `timestamp` is in milliseconds since the epoch. */
  datatype Notification = Notification(
    id: string, kind: Kind, title: string, message: string,
    location: Option<string>, timestamp: int, read: bool)

  datatype Filter = All | Unread | Alerts

  /** The test `getFilteredNotifications` applies to each entry. */
  predicate Shown(n: Notification, filter: Filter) {
    if filter == Unread then !n.read
    else if filter == Alerts then n.kind == Alert
    else true
  }

  /** `notifications.filter(...)` for the selected filter. */
  function FilterNotifications(s: seq<Notification>, filter: Filter): (r: seq<Notification>)
    ensures |r| <= |s|
    ensures forall k :: 0 <= k < |r| ==> Shown(r[k], filter)
    decreases |s|
  {
    if s == [] then []
    else (if Shown(s[0], filter) then [s[0]] else []) + FilterNotifications(s[1..], filter)
  }

  /**
   * The filtered list is `s` restricted to the shown positions, in their
   * original order: `idx` lists exactly the positions of `s` whose entry is
   * shown, strictly increasing, and the k-th result is the entry at `idx[k]`.
   */
  lemma {:induction false} FilterSelectsShownInOrder(s: seq<Notification>, filter: Filter) returns (idx: seq<int>)
    ensures |idx| == |FilterNotifications(s, filter)|
    ensures forall k :: 0 <= k < |idx| ==> 0 <= idx[k] < |s| && FilterNotifications(s, filter)[k] == s[idx[k]]
    ensures forall k, l :: 0 <= k < l < |idx| ==> idx[k] < idx[l]
    ensures forall i :: 0 <= i < |s| ==> (i in idx <==> Shown(s[i], filter))
    decreases |s|
  {
    if s == [] {
      return [];
    }
    var rest := FilterSelectsShownInOrder(s[1..], filter);
    var shifted := ShiftPositions(s, filter, rest);
    if Shown(s[0], filter) {
      idx := HeadShown(s, filter, shifted);
    } else {
      assert FilterNotifications(s, filter) == FilterNotifications(s[1..], filter);
      idx := shifted;
    }
  }

  /** When the head is shown, its position goes in front of the shifted positions of the rest. */
  lemma HeadShown(s: seq<Notification>, filter: Filter, shifted: seq<int>) returns (idx: seq<int>)
    requires |s| > 0 && Shown(s[0], filter)
    requires |shifted| == |FilterNotifications(s[1..], filter)|
    requires forall k :: 0 <= k < |shifted| ==> 0 < shifted[k] < |s| && FilterNotifications(s[1..], filter)[k] == s[shifted[k]]
    requires forall k, l :: 0 <= k < l < |shifted| ==> shifted[k] < shifted[l]
    requires forall i :: 1 <= i < |s| ==> (i in shifted <==> Shown(s[i], filter))
    ensures |idx| == |FilterNotifications(s, filter)|
    ensures forall k :: 0 <= k < |idx| ==> 0 <= idx[k] < |s| && FilterNotifications(s, filter)[k] == s[idx[k]]
    ensures forall k, l :: 0 <= k < l < |idx| ==> idx[k] < idx[l]
    ensures forall i :: 0 <= i < |s| ==> (i in idx <==> Shown(s[i], filter))
  {
    var tail := FilterNotifications(s[1..], filter);
    assert FilterNotifications(s, filter) == [s[0]] + tail;
    idx := PrependPosition(s, tail, shifted);
    forall i | 0 <= i < |s| ensures i in idx <==> Shown(s[i], filter) {
      if i > 0 {
        assert i in idx <==> i in shifted;
      }
    }
  }

  /** Positions into `s[1..]` moved one place right are the same entries' positions in `s`. */
  lemma ShiftPositions(s: seq<Notification>, filter: Filter, rest: seq<int>) returns (shifted: seq<int>)
    requires |s| > 0
    requires |rest| == |FilterNotifications(s[1..], filter)|
    requires forall k :: 0 <= k < |rest| ==> 0 <= rest[k] < |s| - 1 && FilterNotifications(s[1..], filter)[k] == s[1..][rest[k]]
    requires forall k, l :: 0 <= k < l < |rest| ==> rest[k] < rest[l]
    requires forall i :: 0 <= i < |s| - 1 ==> (i in rest <==> Shown(s[1..][i], filter))
    ensures |shifted| == |rest|
    ensures forall k :: 0 <= k < |shifted| ==> 0 < shifted[k] < |s| && FilterNotifications(s[1..], filter)[k] == s[shifted[k]]
    ensures forall k, l :: 0 <= k < l < |shifted| ==> shifted[k] < shifted[l]
    ensures forall i :: 1 <= i < |s| ==> (i in shifted <==> Shown(s[i], filter))
    ensures 0 !in shifted
  {
    shifted := Shift(rest);
    var tail := FilterNotifications(s[1..], filter);
    forall k | 0 <= k < |shifted| ensures 0 < shifted[k] < |s| && tail[k] == s[shifted[k]] {
      assert s[1..][rest[k]] == s[rest[k] + 1];
    }
    forall i | 1 <= i < |s| ensures i in shifted <==> Shown(s[i], filter) {
      assert s[1..][i - 1] == s[i];
      ShiftMembers(rest, i);
    }
  }

  /** Adding the head of `s` in front of an embedding of `tail` into `s[1..]` gives an embedding of `[s[0]] + tail`. */
  lemma PrependPosition<T>(s: seq<T>, tail: seq<T>, shifted: seq<int>) returns (idx: seq<int>)
    requires |s| > 0 && |shifted| == |tail|
    requires forall k :: 0 <= k < |shifted| ==> 0 < shifted[k] < |s| && tail[k] == s[shifted[k]]
    requires forall k, l :: 0 <= k < l < |shifted| ==> shifted[k] < shifted[l]
    ensures idx == [0] + shifted
    ensures forall k :: 0 <= k < |idx| ==> 0 <= idx[k] < |s| && ([s[0]] + tail)[k] == s[idx[k]]
    ensures forall k, l :: 0 <= k < l < |idx| ==> idx[k] < idx[l]
  {
    idx := [0] + shifted;
    forall k | 0 < k < |idx| ensures idx[k] == shifted[k - 1] && ([s[0]] + tail)[k] == tail[k - 1] {
    }
  }

  /** Every position moved one place to the right. */
  function Shift(rest: seq<int>): (r: seq<int>)
    ensures |r| == |rest|
    ensures forall k :: 0 <= k < |r| ==> r[k] == rest[k] + 1
    ensures forall k, l :: 0 <= k < l < |rest| && rest[k] < rest[l] ==> r[k] < r[l]
  {
    seq(|rest|, k requires 0 <= k < |rest| => rest[k] + 1)
  }

  lemma ShiftMembers(rest: seq<int>, i: int)
    requires i >= 1
    ensures i in Shift(rest) <==> i - 1 in rest
  {
    var r := Shift(rest);
    if i - 1 in rest {
      var k :| 0 <= k < |rest| && rest[k] == i - 1;
      assert r[k] == i;
    }
  }

  /** The `'all'` filter keeps the whole list. */
  lemma {:induction false} FilterAllIsIdentity(s: seq<Notification>)
    ensures FilterNotifications(s, All) == s
    decreases |s|
  {
    if s != [] {
      FilterAllIsIdentity(s[1..]);
      assert [s[0]] + s[1..] == s;
    }
  }

  /** `unreadCount`: the length of the unread filter's result. */
  function UnreadCount(s: seq<Notification>): (n: nat)
    ensures n <= |s|
    ensures s != [] && !s[0].read ==> n > 0
  {
    |FilterNotifications(s, Unread)|
  }

  /** The unread positions of `s`. */
  ghost function UnreadPositions(s: seq<Notification>): set<int> {
    set i | 0 <= i < |s| && !s[i].read
  }

  /** A strictly increasing sequence has as many distinct members as entries. */
  lemma {:induction false} IncreasingCard(idx: seq<int>)
    requires forall k, l :: 0 <= k < l < |idx| ==> idx[k] < idx[l]
    ensures |set x | x in idx| == |idx|
    decreases |idx|
  {
    if idx != [] {
      var rest := idx[1..];
      IncreasingCard(rest);
      assert (set x | x in idx) == {idx[0]} + (set x | x in rest);
      assert idx[0] !in (set x | x in rest);
    }
  }

  /** The counter is the number of entries not yet read. */
  lemma UnreadCountCountsUnreadEntries(s: seq<Notification>)
    ensures UnreadCount(s) == |UnreadPositions(s)|
  {
    var idx := FilterSelectsShownInOrder(s, Unread);
    IncreasingCard(idx);
    assert (set x | x in idx) == UnreadPositions(s);
  }

  /** The counter is zero exactly when every entry is read. */
  lemma {:induction false} UnreadCountZeroIffAllRead(s: seq<Notification>)
    ensures UnreadCount(s) == 0 <==> forall i :: 0 <= i < |s| ==> s[i].read
    decreases |s|
  {
    if s != [] {
      UnreadCountZeroIffAllRead(s[1..]);
      assert forall i :: 1 <= i < |s| ==> s[1..][i - 1] == s[i];
    }
  }

  /** Reading more entries never raises the counter. */
  lemma {:induction false} UnreadCountMonotone(a: seq<Notification>, b: seq<Notification>)
    requires |a| == |b|
    requires forall i :: 0 <= i < |b| && !b[i].read ==> !a[i].read
    ensures UnreadCount(b) <= UnreadCount(a)
    decreases |a|
  {
    if a != [] {
      assert forall i :: 1 <= i < |b| ==> a[1..][i - 1] == a[i] && b[1..][i - 1] == b[i];
      UnreadCountMonotone(a[1..], b[1..]);
    }
  }

  /** `markAsRead(id)`: every entry with that id becomes read; nothing else changes. */
  function MarkRead(s: seq<Notification>, id: string): (r: seq<Notification>)
    ensures |r| == |s|
    ensures forall i :: 0 <= i < |s| ==> r[i].read == (s[i].read || s[i].id == id)
    ensures forall i :: 0 <= i < |s| ==> r[i] == s[i].(read := r[i].read)
  {
    seq(|s|, i requires 0 <= i < |s| => if s[i].id == id then s[i].(read := true) else s[i])
  }

  /** `markAllAsRead`: every entry becomes read; nothing else changes. */
  function MarkAllRead(s: seq<Notification>): (r: seq<Notification>)
    ensures |r| == |s|
    ensures forall i :: 0 <= i < |s| ==> r[i] == s[i].(read := true)
  {
    seq(|s|, i requires 0 <= i < |s| => s[i].(read := true))
  }

  lemma MarkReadIdempotent(s: seq<Notification>, id: string)
    ensures MarkRead(MarkRead(s, id), id) == MarkRead(s, id)
  {
  }

  lemma MarkReadNeverRaisesUnreadCount(s: seq<Notification>, id: string)
    ensures UnreadCount(MarkRead(s, id)) <= UnreadCount(s)
  {
    UnreadCountMonotone(s, MarkRead(s, id));
  }

  lemma MarkAllReadClearsUnreadCount(s: seq<Notification>)
    ensures UnreadCount(MarkAllRead(s)) == 0
  {
    UnreadCountZeroIffAllRead(MarkAllRead(s));
  }

  /** The relative-time label of `formatTime`; the locale date string itself is not modelled. */
  datatype TimeLabel = MinutesAgo(minutes: int) | HoursAgo(hours: int) | LocaleDate

  /**
   * `formatTime` for an entry stamped `timestamp` and a clock reading `now`,
   * both in milliseconds; `Math.floor` of the quotient is Dafny's division
   * by a positive divisor.
   */
  function FormatTime(now: int, timestamp: int): (r: TimeLabel)
    ensures r.MinutesAgo? <==> now - timestamp < 3600000
    ensures r.HoursAgo? <==> 3600000 <= now - timestamp < 86400000
    ensures r.MinutesAgo? ==> r.minutes * 60000 <= now - timestamp < (r.minutes + 1) * 60000
    ensures r.HoursAgo? ==> 1 <= r.hours <= 23
    ensures r.HoursAgo? ==> r.hours * 3600000 <= now - timestamp < (r.hours + 1) * 3600000
  {
    var diff := now - timestamp;
    var minutes := diff / 60000;
    var hours := diff / 3600000;
    if minutes < 60 then MinutesAgo(minutes)
    else if hours < 24 then HoursAgo(hours)
    else LocaleDate
  }

  /** The opacity class of `getNotificationBg`: decided by `read` alone. */
  function Opacity(read: bool): string {
    if read then "bg-opacity-30" else "bg-opacity-60"
  }

  /** The colour classes of `getNotificationBg`: decided by the kind alone. */
  function KindClasses(kind: Kind): string {
    match kind
    case Alert => "bg-red-50 border-red-200"
    case Success => "bg-green-50 border-green-200"
    case Info => "bg-blue-50 border-blue-200"
  }

  /** `getNotificationBg`: the kind's colours followed by the opacity; 30 when read, 60 when unread. */
  function NotificationBg(kind: Kind, read: bool): (c: string)
    ensures |c| >= 14
    ensures c[|c| - 13..] == (if read then "bg-opacity-30" else "bg-opacity-60")
    ensures c[..|c| - 14] == KindClasses(kind)
    ensures c[|c| - 14] == ' '
  {
    KindClasses(kind) + " " + Opacity(read)
  }

  /** The five entries the page loads, stamped relative to the clock reading `now`;
      the message texts are left empty here (display text only). */
  function MockNotifications(now: int): (r: seq<Notification>)
    ensures |r| == 5
  {
    [MockEntry(1, now), MockEntry(2, now), MockEntry(3, now), MockEntry(4, now), MockEntry(5, now)]
  }

  /** The k-th mock entry. */
  function MockEntry(k: nat, now: int): Notification
    requires 1 <= k <= 5
  {
    match k
    case 1 => Notification("1", Alert, "High Fire Risk Alert", "",
      Some("Within 5 miles of your location"), now - 1800000, false)
    case 2 => Notification("2", Info, "Fire Incident Reported", "",
      Some("2.3 miles NE"), now - 7200000, false)
    case 3 => Notification("3", Success, "Fire Contained", "",
      Some("3.1 miles SW"), now - 14400000, true)
    case 4 => Notification("4", Info, "Weather Update", "",
      None, now - 28800000, true)
    case _ => Notification("5", Alert, "Evacuation Advisory", "",
      Some("7.2 miles N"), now - 43200000, true)
  }

  lemma {:induction false} UnreadCountCons(n: Notification, s: seq<Notification>)
    ensures UnreadCount([n] + s) == (if n.read then 0 else 1) + UnreadCount(s)
  {
    assert ([n] + s)[1..] == s;
  }

  lemma {:induction false} AlertCountCons(n: Notification, s: seq<Notification>)
    ensures |FilterNotifications([n] + s, Alerts)| == (if n.kind == Alert then 1 else 0) + |FilterNotifications(s, Alerts)|
  {
    assert ([n] + s)[1..] == s;
  }

  /** On load: two unread entries and two alerts. */
  lemma {:induction false} MockNotificationsCounts(now: int)
    ensures UnreadCount(MockNotifications(now)) == 2
    ensures |FilterNotifications(MockNotifications(now), Alerts)| == 2
  {
    var s := MockNotifications(now);
    var s1, s2, s3, s4 := s[1..], s[2..], s[3..], s[4..];
    assert s == [s[0]] + s1 && s1 == [s[1]] + s2 && s2 == [s[2]] + s3 && s3 == [s[3]] + s4;
    assert s4 == [s[4]] + [];
    UnreadCountCons(s[4], []);
    UnreadCountCons(s[3], s4);
    UnreadCountCons(s[2], s3);
    UnreadCountCons(s[1], s2);
    UnreadCountCons(s[0], s1);
    AlertCountCons(s[4], []);
    AlertCountCons(s[3], s4);
    AlertCountCons(s[2], s3);
    AlertCountCons(s[1], s2);
    AlertCountCons(s[0], s1);
  }

  /** On load the newest entry reads "30 minutes ago" and the oldest "12 hours ago". */
  lemma MockNotificationsTimes(now: int)
    ensures FormatTime(now, MockNotifications(now)[0].timestamp) == MinutesAgo(30)
    ensures FormatTime(now, MockNotifications(now)[4].timestamp) == HoursAgo(12)
  {
    assert MockNotifications(now)[0].timestamp == now - 1800000;
    assert MockNotifications(now)[4].timestamp == now - 43200000;
    assert FormatTime(now, now - 1800000) == MinutesAgo(30);
    assert FormatTime(now, now - 43200000) == HoursAgo(12);
  }

  /** The page's state: the list and the selected filter. */
  class NotificationCenter {
    var notifications: seq<Notification>
    var filter: Filter

    constructor ()
      ensures notifications == [] && filter == All
    {
      notifications, filter := [], All;
    }

    /** The mount effect: install the mock entries. */
    method Load(now: int)
      modifies this`notifications
      ensures notifications == MockNotifications(now)
    {
      notifications := MockNotifications(now);
    }

    method MarkAsRead(id: string)
      modifies this`notifications
      ensures notifications == MarkRead(old(notifications), id)
      ensures UnreadCount(notifications) <= UnreadCount(old(notifications))
    {
      MarkReadNeverRaisesUnreadCount(notifications, id);
      notifications := MarkRead(notifications, id);
    }

    method MarkAllAsRead()
      modifies this`notifications
      ensures notifications == MarkAllRead(old(notifications))
      ensures UnreadCount(notifications) == 0
    {
      MarkAllReadClearsUnreadCount(notifications);
      notifications := MarkAllRead(notifications);
    }

    method SetFilter(f: Filter)
      modifies this`filter
      ensures filter == f
    {
      filter := f;
    }

    /** The list the page renders: only entries the filter shows, and the whole list under `'all'`. */
    function Filtered(): (r: seq<Notification>)
      reads this
      ensures |r| <= |notifications|
      ensures forall k :: 0 <= k < |r| ==> Shown(r[k], filter)
      ensures filter == All ==> r == notifications
      ensures r == FilterNotifications(notifications, filter)
    {
      FilterAllIsIdentity(notifications);
      FilterNotifications(notifications, filter)
    }
  }
}
