/** A user's notifications (NotificationsViewModel.kt): the list, its loading
    and error state, and marking notifications read. Each call of
    `LoadNotifications` or `MarkAsRead` handles one result that the backend
    emits for it. */
module Notifications {
  import opened Wrappers
  import opened Seqs
  import opened Model
  import opened Results

  /** The local update after the backend confirmed that `id` was marked
      read: the entries with that id become read, nothing else changes. */
  function MarkRead(ns: seq<Notification>, id: string): (r: seq<Notification>)
    ensures |r| == |ns|
    ensures forall k :: 0 <= k < |ns| ==> r[k].isRead == (ns[k].isRead || ns[k].id == id)
    ensures forall k :: 0 <= k < |ns| ==> r[k] == ns[k].(isRead := r[k].isRead)
  {
    if ns == [] then []
    else [if ns[0].id == id then ns[0].(isRead := true) else ns[0]] + MarkRead(ns[1..], id)
  }

  /** Marking the same notification twice is marking it once. */
  lemma {:induction false} MarkReadIdempotent(ns: seq<Notification>, id: string)
    ensures MarkRead(MarkRead(ns, id), id) == MarkRead(ns, id)
  {
    if ns != [] {
      MarkReadIdempotent(ns[1..], id);
    }
  }

  function IsUnread(n: Notification): bool {
    !n.isRead
  }

  /** The ids of a list of notifications, in order. */
  function Ids(ns: seq<Notification>): (r: seq<string>)
    ensures |r| == |ns| && forall k :: 0 <= k < |ns| ==> r[k] == ns[k].id
  {
    seq(|ns|, k requires 0 <= k < |ns| => ns[k].id)
  }

  /** The ids `MarkAllAsRead` asks the backend to mark. */
  function UnreadIds(ns: seq<Notification>): seq<string> {
    Ids(Filter(ns, IsUnread))
  }

  /** The list once every requested mark has succeeded, in request order. */
  function ApplyMarks(ns: seq<Notification>, ids: seq<string>): seq<Notification>
    decreases |ids|
  {
    if ids == [] then ns else ApplyMarks(MarkRead(ns, ids[0]), ids[1..])
  }

  /** After a series of successful marks, an entry is read when it was read
      before or its id was among the marks; nothing else about it changes. */
  lemma {:induction false} ApplyMarksAt(ns: seq<Notification>, ids: seq<string>)
    ensures |ApplyMarks(ns, ids)| == |ns|
    ensures forall k :: 0 <= k < |ns| ==>
      ApplyMarks(ns, ids)[k] == ns[k].(isRead := ns[k].isRead || ns[k].id in ids)
    decreases |ids|
  {
    if ids != [] {
      var m := MarkRead(ns, ids[0]);
      ApplyMarksAt(m, ids[1..]);
      forall k | 0 <= k < |ns|
        ensures ApplyMarks(ns, ids)[k] == ns[k].(isRead := ns[k].isRead || ns[k].id in ids)
      {
        assert ids == [ids[0]] + ids[1..];
        assert (ns[k].id in ids) == (ns[k].id == ids[0] || ns[k].id in ids[1..]);
      }
    }
  }

  /** When every request that `MarkAllAsRead` issues succeeds, every
      notification ends read and is otherwise unchanged. */
  lemma MarkAllReadMarksAll(ns: seq<Notification>)
    ensures |ApplyMarks(ns, UnreadIds(ns))| == |ns|
    ensures forall k :: 0 <= k < |ns| ==> ApplyMarks(ns, UnreadIds(ns))[k] == ns[k].(isRead := true)
  {
    var unread := Filter(ns, IsUnread);
    ApplyMarksAt(ns, UnreadIds(ns));
    forall k | 0 <= k < |ns| && !ns[k].isRead
      ensures ns[k].id in UnreadIds(ns)
    {
      assert ns[k] in ns;
      assert ns[k] in unread;
      var j :| 0 <= j < |unread| && unread[j] == ns[k];
      assert UnreadIds(ns)[j] == ns[k].id;
    }
  }

  class NotificationsViewModel {
    var notifications: seq<Notification>
    var isLoading: bool
    var error: Option<string>

    constructor ()
      ensures notifications == [] && !isLoading && error == None
    {
      notifications, isLoading, error := [], false, None;
    }

    /** Handles one result of the user's notifications listener; without a
        user nothing is loaded and nothing changes. */
    method LoadNotifications(userId: Option<string>, result: DataResult<seq<Notification>>)
      modifies this`notifications, this`isLoading, this`error
      ensures userId.None? ==>
        notifications == old(notifications) && isLoading == old(isLoading) && error == old(error)
      ensures userId.Some? ==>
        && notifications == (if result.Success? then result.data else old(notifications))
        && isLoading == result.Loading?
        && error == (if result.Error? then Some(result.error.PeekContent()) else old(error))
    {
      if userId.None? {
        return;
      }
      match result
      case Loading =>
        isLoading := true;
      case Success(ns) =>
        notifications := ns;
        isLoading := false;
      case Error(e) =>
        isLoading := false;
        error := Some(e.PeekContent());
      case Idle =>
        isLoading := false;
    }

    /** The listener threw: its (nullable) message becomes the error. */
    method LoadNotificationsFailed(message: Option<string>)
      modifies this`isLoading, this`error
      ensures error == message && !isLoading
    {
      error := message;
      isLoading := false;
    }

    /** Handles the backend's answer to marking `notificationId` read; an
        error is only logged. */
    method MarkAsRead(userId: string, notificationId: string, result: DataResult<()>)
      modifies this`notifications
      ensures notifications == (if result.Success? then MarkRead(old(notifications), notificationId)
                                else old(notifications))
    {
      if result.Success? {
        notifications := MarkRead(notifications, notificationId);
      }
    }

    /** Requests a mark for every unread notification, in list order, and
        returns the requested ids. The requests run concurrently and each
        lands through `MarkAsRead`. */
    method MarkAllAsRead(userId: string) returns (requested: seq<string>)
      ensures requested == UnreadIds(notifications)
      ensures forall k :: 0 <= k < |notifications| && !notifications[k].isRead ==>
        notifications[k].id in requested
    {
      var unread := Filter(notifications, IsUnread);
      requested := [];
      for i := 0 to |unread|
        invariant |requested| == i
        invariant forall k :: 0 <= k < i ==> requested[k] == unread[k].id
      {
        requested := requested + [unread[i].id];
      }
      forall k | 0 <= k < |notifications| && !notifications[k].isRead
        ensures notifications[k].id in requested
      {
        assert notifications[k] in notifications;
        var j :| 0 <= j < |unread| && unread[j] == notifications[k];
        assert requested[j] == notifications[k].id;
      }
    }

    method ClearError()
      modifies this`error
      ensures error == None
    {
      error := None;
    }
  }
}
