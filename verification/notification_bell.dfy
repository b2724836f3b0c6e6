/** The notification bell: which notifications count as unread, opening the
    popover, and marking everything read in one batched write. */
module NotificationBell {
  import opened Wrappers

  /** A notification as the bell lists it; a missing `read` field is
      `None`. */
  datatype Notification = Notification(
    id: string,
    message: string,
    createdAt: Option<int>,
    read: Option<bool>)

  /** `!n.read`: false and missing both count as unread. */
  predicate Unread(n: Notification) {
    n.read != Some(true)
  }

  /** `notifications.filter(n => !n.read)`: every unread notification as
      many times as the list holds it, and nothing else. */
  function UnreadOf(ns: seq<Notification>): (r: seq<Notification>)
    ensures |r| <= |ns|
    ensures forall k :: 0 <= k < |r| ==> Unread(r[k]) && r[k] in ns
    ensures forall i :: 0 <= i < |ns| && Unread(ns[i]) ==> ns[i] in r
    ensures forall n :: multiset(r)[n] == (if Unread(n) then multiset(ns)[n] else 0)
  {
    if ns == [] then []
    else
      var rest := UnreadOf(ns[1..]);
      UnreadOfStep(ns, rest);
      if Unread(ns[0]) then [ns[0]] + rest else rest
  }

  /** Filtering the head onto a filtered tail keeps the multiplicities. */
  lemma UnreadOfStep(ns: seq<Notification>, rest: seq<Notification>)
    requires ns != []
    requires forall n :: multiset(rest)[n] == (if Unread(n) then multiset(ns[1..])[n] else 0)
    ensures forall n ::
      multiset(if Unread(ns[0]) then [ns[0]] + rest else rest)[n] == (if Unread(n) then multiset(ns)[n] else 0)
  {
    assert ns == [ns[0]] + ns[1..];
  }

  /** `hasUnread`: the list is loaded and has an unread notification. */
  predicate HasUnread(view: Option<seq<Notification>>) {
    view.Some? && |UnreadOf(view.value)| > 0
  }

  lemma HasUnreadIff(view: Option<seq<Notification>>)
    ensures HasUnread(view) <==>
      view.Some? && exists i :: 0 <= i < |view.value| && Unread(view.value[i])
  {
    if view.Some? && |UnreadOf(view.value)| > 0 {
      var n := UnreadOf(view.value)[0];
      assert n in view.value;
    }
  }

  /** The ids the batch updates: those of the unread notifications of the
      view. */
  function BatchIds(view: seq<Notification>): (ids: seq<string>)
    ensures |ids| == |UnreadOf(view)|
    ensures forall i :: 0 <= i < |view| && Unread(view[i]) ==> view[i].id in ids
  {
    var unread := UnreadOf(view);
    var ids := seq(|unread|, k requires 0 <= k < |unread| => unread[k].id);
    assert forall i :: 0 <= i < |view| && Unread(view[i]) ==> view[i].id in ids by {
      forall i | 0 <= i < |view| && Unread(view[i])
        ensures view[i].id in ids
      {
        var k :| 0 <= k < |unread| && unread[k] == view[i];
        assert ids[k] == view[i].id;
      }
    }
    ids
  }

  /** The stored notifications after the batch `ids` commits: each one
      named by the batch has `read` set, nothing else changes. */
  function ApplyBatch(store: seq<Notification>, ids: seq<string>): (r: seq<Notification>)
    ensures |r| == |store|
    ensures forall i :: 0 <= i < |store| ==>
      r[i] == (if store[i].id in ids then store[i].(read := Some(true)) else store[i])
  {
    seq(|store|, i requires 0 <= i < |store| =>
      if store[i].id in ids then store[i].(read := Some(true)) else store[i])
  }

  datatype Outcome = NothingToDo | Committed | CommitFailed

  /** `markAllAsRead`: without a signed-in user, or with nothing unread in
      the view, nothing is written. Otherwise one batch sets `read` on every
      unread notification; it commits all at once or, on failure (logged),
      not at all. */
  function MarkAllAsRead(user: Option<string>, view: Option<seq<Notification>>,
                         store: seq<Notification>, commitOk: bool): (r: (seq<Notification>, Outcome))
    ensures r.1 == NothingToDo <==> user.None? || !HasUnread(view)
    ensures r.1 != Committed ==> r.0 == store
    ensures r.1 == Committed ==> r.0 == ApplyBatch(store, BatchIds(view.value)) && commitOk
    ensures r.1 == CommitFailed ==> !commitOk
  {
    if user.None? || !HasUnread(view) then (store, NothingToDo)
    else if commitOk then (ApplyBatch(store, BatchIds(view.value)), Committed)
    else (store, CommitFailed)
  }

  /** When the view is the store (the subscription is up to date), a
      committed batch reads every notification, sets `read` on exactly the
      unread ones and changes no other field. */
  lemma MarkAllReadsEverything(user: string, store: seq<Notification>)
    requires HasUnread(Some(store))
    ensures var r := MarkAllAsRead(Some(user), Some(store), store, true);
      && r.1 == Committed
      && |r.0| == |store|
      && (forall i :: 0 <= i < |store| ==> !Unread(r.0[i]))
      && (forall i :: 0 <= i < |store| ==> !Unread(store[i]) ==> r.0[i] == store[i])
      && (forall i :: 0 <= i < |store| ==>
            r.0[i].id == store[i].id && r.0[i].message == store[i].message
            && r.0[i].createdAt == store[i].createdAt)
  {
  }

  /** A second `markAllAsRead` after a successful one finds nothing to do. */
  lemma MarkAllIdempotent(user: string, store: seq<Notification>, commitOk: bool, commitOk': bool)
    ensures var r := MarkAllAsRead(Some(user), Some(store), store, commitOk);
      r.1 == Committed ==>
        MarkAllAsRead(Some(user), Some(r.0), r.0, commitOk') == (r.0, NothingToDo)
  {
    var r := MarkAllAsRead(Some(user), Some(store), store, commitOk);
    if r.1 == Committed {
      HasUnreadIff(Some(r.0));
    }
  }

  /** `handleOpenChange`: the popover takes the new state, and the batch is
      started only when opening with something unread. */
  function OpenChange(open: bool, user: Option<string>, view: Option<seq<Notification>>,
                      store: seq<Notification>, commitOk: bool): (r: (bool, seq<Notification>, Outcome))
    ensures r.0 == open
    ensures !open ==> r.1 == store && r.2 == NothingToDo
    ensures open && HasUnread(view) ==> (r.1, r.2) == MarkAllAsRead(user, view, store, commitOk)
    ensures !HasUnread(view) ==> r.1 == store && r.2 == NothingToDo
  {
    if open && HasUnread(view) then
      var (s, o) := MarkAllAsRead(user, view, store, commitOk);
      (open, s, o)
    else (open, store, NothingToDo)
  }

  /** Opening the bell twice, with the view following the store, writes
      once: the first opening commits the batch and the second finds
      nothing unread. */
  lemma OpenTwiceWritesOnce(user: string, store: seq<Notification>, commitOk': bool)
    requires HasUnread(Some(store))
    ensures var first := OpenChange(true, Some(user), Some(store), store, true);
      && first.2 == Committed
      && OpenChange(true, Some(user), Some(first.1), first.1, commitOk') == (true, first.1, NothingToDo)
  {
    MarkAllIdempotent(user, store, true, commitOk');
    var first := OpenChange(true, Some(user), Some(store), store, true);
    HasUnreadIff(Some(first.1));
  }
}
