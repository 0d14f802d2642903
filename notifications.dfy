/**
 * The read state of notifications (notifications/views.py): the polling
 * listing of a user's unread notifications, marking one read and marking all
 * of them read.
 *
 * The table is a sequence in creation order; ids are assigned increasingly,
 * so the model's "newest first" (the table's default ordering by descending
 * creation time) is descending position.
 */
module Notifications {
  import opened Wrappers

  type NotificationId = nat
  type UserId = nat

  datatype Kind = RideRequest | RideAccepted | RideArrived | RideStarted | RideCompleted | Payment | System

  datatype Notification = Notification(
    id: NotificationId,
    recipient: UserId,
    ride: Option<nat>,
    title: string,
    message: string,
    kind: Kind,
    isRead: bool)

  /** Ids grow with creation order. */
  ghost predicate IdsIncreasing(rows: seq<Notification>) {
    forall i, j :: 0 <= i < j < |rows| ==> rows[i].id < rows[j].id
  }

  ghost predicate IdsDecreasing(rows: seq<Notification>) {
    forall i, j :: 0 <= i < j < |rows| ==> rows[i].id > rows[j].id
  }

  predicate IsUnreadFor(n: Notification, user: UserId) {
    n.recipient == user && !n.isRead
  }

  /** The user's unread notifications in the table's ordering, newest first. */
  function UnreadNewestFirst(rows: seq<Notification>, user: UserId): (r: seq<Notification>)
    ensures forall n :: n in r <==> n in rows && IsUnreadFor(n, user)
    ensures |r| <= |rows|
    decreases |rows|
  {
    if rows == [] then []
    else
      var last := rows[|rows| - 1];
      var rest := UnreadNewestFirst(rows[..|rows| - 1], user);
      assert rows == rows[..|rows| - 1] + [last];
      if IsUnreadFor(last, user) then [last] + rest else rest
  }

  /** With ids growing in creation order, the unread list has falling ids. */
  lemma {:induction false} UnreadNewestFirstDecreasing(rows: seq<Notification>, user: UserId)
    ensures IdsIncreasing(rows) ==> IdsDecreasing(UnreadNewestFirst(rows, user))
    decreases |rows|
  {
    if rows != [] && IdsIncreasing(rows) {
      var init, last := rows[..|rows| - 1], rows[|rows| - 1];
      UnreadNewestFirstDecreasing(init, user);
      var rest := UnreadNewestFirst(init, user);
      assert IdsIncreasing(init);
      forall n | n in rest ensures n.id < last.id {
        var i :| 0 <= i < |init| && init[i] == n;
      }
    }
  }

  /** The number of the user's unread notifications. */
  function UnreadCount(rows: seq<Notification>, user: UserId): (n: nat)
    ensures n <= |rows|
    ensures n == 0 <==> forall i :: 0 <= i < |rows| ==> !IsUnreadFor(rows[i], user)
  {
    if rows == [] then 0
    else (if IsUnreadFor(rows[0], user) then 1 else 0) + UnreadCount(rows[1..], user)
  }

  lemma {:induction false} UnreadCountAppend(rows: seq<Notification>, n: Notification, user: UserId)
    ensures UnreadCount(rows + [n], user) == UnreadCount(rows, user) + (if IsUnreadFor(n, user) then 1 else 0)
    decreases |rows|
  {
    if rows == [] {
      assert [n][1..] == [];
    } else {
      assert (rows + [n])[1..] == rows[1..] + [n];
      UnreadCountAppend(rows[1..], n, user);
    }
  }

  /** The count the poll reports is the number of notifications the unread query yields. */
  lemma {:induction false} UnreadCountIsQueryLength(rows: seq<Notification>, user: UserId)
    ensures UnreadCount(rows, user) == |UnreadNewestFirst(rows, user)|
    decreases |rows|
  {
    if rows != [] {
      var init := rows[..|rows| - 1];
      assert rows == init + [rows[|rows| - 1]];
      UnreadCountIsQueryLength(init, user);
      UnreadCountAppend(init, rows[|rows| - 1], user);
    }
  }

  /** The JSON of get_notifications_api. */
  datatype Poll = Poll(count: nat, notifications: seq<Notification>)

  /** get_notifications_api: the total unread count and the ten newest unread notifications. */
  function GetNotifications(rows: seq<Notification>, user: UserId): (r: Poll)
    ensures |r.notifications| <= 10
    ensures forall n :: n in r.notifications ==> n in rows && n.recipient == user && !n.isRead
    ensures r.count == UnreadCount(rows, user)
    ensures r.count >= |r.notifications|
    ensures |r.notifications| == if r.count <= 10 then r.count else 10
    ensures IdsIncreasing(rows) ==> IdsDecreasing(r.notifications)
  {
    var unread := UnreadNewestFirst(rows, user);
    UnreadCountIsQueryLength(rows, user);
    UnreadNewestFirstDecreasing(rows, user);
    var shown := if |unread| <= 10 then unread else unread[..10];
    assert forall n :: n in shown ==> n in unread;
    Poll(UnreadCount(rows, user), shown)
  }

  /** When the listing is cut at ten, every unread notification left out is older than all that are shown. */
  lemma ListingHoldsTheNewest(rows: seq<Notification>, user: UserId, n: Notification)
    requires IdsIncreasing(rows)
    requires n in rows && IsUnreadFor(n, user) && n !in GetNotifications(rows, user).notifications
    ensures forall m :: m in GetNotifications(rows, user).notifications ==> n.id < m.id
  {
    var unread := UnreadNewestFirst(rows, user);
    UnreadNewestFirstDecreasing(rows, user);
    var shown := GetNotifications(rows, user).notifications;
    assert shown == unread[..|shown|];
    var k :| 0 <= k < |unread| && unread[k] == n;
    assert k >= |shown|;
    forall m | m in shown
      ensures n.id < m.id
    {
      var j :| 0 <= j < |shown| && shown[j] == m;
      assert unread[j] == m && j < k;
    }
  }

  /** The position of the notification with that id if the user owns it: the lookup mark_read_api makes. */
  function FindOwned(rows: seq<Notification>, user: UserId, id: NotificationId): (r: Option<nat>)
    ensures r.Some? ==> r.value < |rows| && rows[r.value].id == id && rows[r.value].recipient == user
    ensures r.Some? ==> forall i :: 0 <= i < r.value ==> rows[i].id != id || rows[i].recipient != user
    ensures r.None? <==> forall i :: 0 <= i < |rows| ==> rows[i].id != id || rows[i].recipient != user
  {
    if rows == [] then None
    else if rows[0].id == id && rows[0].recipient == user then Some(0)
    else match FindOwned(rows[1..], user, id)
      case None => None
      case Some(i) => Some(i + 1)
  }

  /** mark_read_api: not found unless the caller owns it; otherwise that one row becomes read. */
  function AfterMarkRead(rows: seq<Notification>, user: UserId, id: NotificationId): (r: Option<seq<Notification>>)
    ensures r.None? <==> forall i :: 0 <= i < |rows| ==> rows[i].id != id || rows[i].recipient != user
    ensures r.Some? ==> |r.value| == |rows|
    ensures r.Some? ==> exists k :: (0 <= k < |rows| && rows[k].id == id && rows[k].recipient == user
                                     && r.value == rows[k := rows[k].(isRead := true)])
    ensures r.Some? && IdsIncreasing(rows) ==> forall i :: 0 <= i < |rows| ==>
      r.value[i] == if rows[i].id == id then rows[i].(isRead := true) else rows[i]
  {
    match FindOwned(rows, user, id)
    case None => None
    case Some(k) =>
      assert IdsIncreasing(rows) ==> forall i :: 0 <= i < |rows| && rows[i].id == id ==> i == k;
      Some(rows[k := rows[k].(isRead := true)])
  }

  /** mark_all_read_api: the caller's unread rows become read. */
  function AfterMarkAllRead(rows: seq<Notification>, user: UserId): (r: seq<Notification>)
    ensures |r| == |rows|
    ensures forall i :: 0 <= i < |rows| ==> r[i] == if IsUnreadFor(rows[i], user) then rows[i].(isRead := true) else rows[i]
  {
    seq(|rows|, i requires 0 <= i < |rows| => if IsUnreadFor(rows[i], user) then rows[i].(isRead := true) else rows[i])
  }

  /** Marking all read leaves the caller nothing unread. */
  lemma MarkAllReadClearsUnread(rows: seq<Notification>, user: UserId)
    ensures UnreadCount(AfterMarkAllRead(rows, user), user) == 0
    ensures GetNotifications(AfterMarkAllRead(rows, user), user).notifications == []
  {
  }

  /** Marking all read is idempotent. */
  lemma MarkAllReadIdempotent(rows: seq<Notification>, user: UserId)
    ensures AfterMarkAllRead(AfterMarkAllRead(rows, user), user) == AfterMarkAllRead(rows, user)
  {
  }

  /** Marking all read changes nothing any other user polls. */
  lemma {:induction false} MarkAllReadKeepsOtherUsers(rows: seq<Notification>, user: UserId, other: UserId)
    requires other != user
    ensures UnreadNewestFirst(AfterMarkAllRead(rows, user), other) == UnreadNewestFirst(rows, other)
    decreases |rows|
  {
    if rows != [] {
      var init := rows[..|rows| - 1];
      assert AfterMarkAllRead(rows, user)[..|rows| - 1] == AfterMarkAllRead(init, user);
      MarkAllReadKeepsOtherUsers(init, user, other);
    }
  }

  /** Marking one notification read is idempotent. */
  lemma MarkReadIdempotent(rows: seq<Notification>, user: UserId, id: NotificationId)
    requires AfterMarkRead(rows, user, id).Some?
    ensures AfterMarkRead(AfterMarkRead(rows, user, id).value, user, id) == AfterMarkRead(rows, user, id)
  {
    var once := AfterMarkRead(rows, user, id).value;
    var k := FindOwned(rows, user, id).value;
    assert once[k].id == id && once[k].recipient == user;
    assert FindOwned(once, user, id) == Some(k) by {
      assert forall i :: 0 <= i < k ==> once[i] == rows[i];
    }
    var twice := AfterMarkRead(once, user, id).value;
    assert twice == once;
  }

  /** The notification table, changed in place by the two marking endpoints. */
  class NotificationTable {
    var rows: seq<Notification>

    ghost predicate Valid()
      reads this
    {
      IdsIncreasing(rows)
    }

    constructor (initial: seq<Notification>)
      requires IdsIncreasing(initial)
      ensures Valid() && rows == initial
    {
      rows := initial;
    }

    /** mark_read_api; `false` is the 404 answer. */
    method MarkRead(user: UserId, id: NotificationId) returns (found: bool)
      requires Valid()
      modifies this
      ensures Valid()
      ensures found <==> AfterMarkRead(old(rows), user, id).Some?
      ensures rows == AfterMarkRead(old(rows), user, id).GetOr(old(rows))
    {
      var k := FindOwned(rows, user, id);
      if k.None? {
        return false;
      }
      rows := rows[k.value := rows[k.value].(isRead := true)];
      return true;
    }

    /** mark_all_read_api. */
    method MarkAllRead(user: UserId)
      requires Valid()
      modifies this
      ensures Valid()
      ensures rows == AfterMarkAllRead(old(rows), user)
    {
      var current := rows;
      rows := seq(|current|, i requires 0 <= i < |current| =>
        if IsUnreadFor(current[i], user) then current[i].(isRead := true) else current[i]);
    }
  }
}
