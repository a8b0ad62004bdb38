/** `notificationReducer` of frontend/src/redux/reducers/notification.js:
    a pure switch from (state, action) to a fresh state. Server
    notifications are kept with their `_id` and `status`; their other
    fields are carried along untouched as `body`. */
module NotificationReducer {
  import opened Basics
  import Seqs

  datatype Doc = Doc(id: string, status: string, body: string)

  /** `unreadCount` is whatever number the server last sent, so it is an
      `int`; the reducer never assumes it is non-negative. */
  datatype State = State(notifications: seq<Doc>, unreadCount: int, loading: bool, isLoading: bool,
                         error: Option<string>, success: bool)

  const Initial: State := State([], 0, false, false, None, false)

  /** The five request/success/failure families. Only `GetAll` uses the
      `loading` flag; the others share `isLoading`. */
  datatype Flow = GetAll | UnreadCount | Mark | MarkAll | Delete

  datatype Action =
    | Request(flow: Flow)
    | GetAllSuccess(list: seq<Doc>)
    | UnreadCountSuccess(count: int)
    | MarkSuccess(markedId: string)
    | MarkAllSuccess
    | DeleteSuccess(deletedId: string)
    | Failed(flow: Flow, failure: string)
    | Unrecognised(name: string)

  /** The loading flag a family uses. */
  function Flag(s: State, flow: Flow): bool {
    if flow == GetAll then s.loading else s.isLoading
  }

  function WithFlag(s: State, flow: Flow, on: bool): State {
    if flow == GetAll then s.(loading := on) else s.(isLoading := on)
  }

  /** Entries with this `_id` get status "read", the others are untouched. */
  function MarkDoc(list: seq<Doc>, id: string): (r: seq<Doc>)
    ensures |r| == |list|
    ensures forall i :: 0 <= i < |r| ==> r[i] == if list[i].id == id then list[i].(status := "read") else list[i]
  {
    if list == [] then []
    else [if list[0].id == id then list[0].(status := "read") else list[0]] + MarkDoc(list[1..], id)
  }

  function AllDocsRead(list: seq<Doc>): (r: seq<Doc>)
    ensures |r| == |list|
    ensures forall i :: 0 <= i < |r| ==> r[i] == list[i].(status := "read")
  {
    if list == [] then [] else [list[0].(status := "read")] + AllDocsRead(list[1..])
  }

  /** The `filter` dropping every entry with this `_id`. */
  function WithoutDoc(list: seq<Doc>, id: string): (r: seq<Doc>)
    ensures |r| <= |list|
    ensures forall d :: d in r <==> d in list && d.id != id
    ensures Seqs.IsSubsequence(r, list)
    ensures |r| == |list| - Seqs.Count(list, (d: Doc) => d.id == id)
  {
    if list == [] then []
    else if list[0].id != id then [list[0]] + WithoutDoc(list[1..], id)
    else
      var rest := WithoutDoc(list[1..], id);
      Seqs.SubsequenceSkip(rest, list);
      rest
  }

  /** The `find` of an unread entry with this `_id`. */
  predicate HasUnread(list: seq<Doc>, id: string) {
    exists i :: 0 <= i < |list| && list[i].id == id && list[i].status == "unread"
  }

  /** `count > 0 ? count - 1 : 0`. */
  function Decrement(count: int): (r: int)
    ensures r >= 0
    ensures count > 0 ==> r == count - 1
  {
    if count > 0 then count - 1 else 0
  }

  function Reduce(s: State, a: Action): (r: State)
    ensures a.Unrecognised? ==> r == s
    ensures r.success == s.success
  {
    match a
    case Request(flow) => WithFlag(s, flow, true)
    case GetAllSuccess(list) => s.(loading := false, notifications := list)
    case UnreadCountSuccess(count) => s.(isLoading := false, unreadCount := count)
    case MarkSuccess(id) => s.(isLoading := false, notifications := MarkDoc(s.notifications, id),
                               unreadCount := Decrement(s.unreadCount))
    case MarkAllSuccess => s.(isLoading := false, notifications := AllDocsRead(s.notifications), unreadCount := 0)
    case DeleteSuccess(id) => s.(isLoading := false, notifications := WithoutDoc(s.notifications, id),
                                 unreadCount := if HasUnread(s.notifications, id) then Decrement(s.unreadCount) else s.unreadCount)
    case Failed(flow, e) => WithFlag(s, flow, false).(error := Some(e))
    case Unrecognised(_) => s
  }

  /** A request sets its own loading flag and changes nothing else; a
      failure records the error, clears its flag and keeps the list and
      the count. */
  lemma RequestAndFailureFrames(s: State, flow: Flow, e: string)
    ensures var r := Reduce(s, Request(flow));
            Flag(r, flow) && r.notifications == s.notifications && r.unreadCount == s.unreadCount &&
            r.error == s.error && Flag(r, if flow == GetAll then Mark else GetAll) == Flag(s, if flow == GetAll then Mark else GetAll)
    ensures var r := Reduce(s, Failed(flow, e));
            !Flag(r, flow) && r.error == Some(e) && r.notifications == s.notifications && r.unreadCount == s.unreadCount &&
            Flag(r, if flow == GetAll then Mark else GetAll) == Flag(s, if flow == GetAll then Mark else GetAll)
  {
  }

  /** Loading the list replaces it by the payload and leaves the count. */
  lemma GetAllReplacesList(s: State, list: seq<Doc>)
    ensures var r := Reduce(s, GetAllSuccess(list));
            r.notifications == list && !r.loading && r.unreadCount == s.unreadCount &&
            r.isLoading == s.isLoading && r.error == s.error
  {
  }

  /** No mark or delete result has a negative count when the count was
      not negative before; a mark, or a delete of an unread entry, never
      leaves it negative at all. */
  lemma CountNeverNegative(s: State, id: string)
    ensures Reduce(s, MarkSuccess(id)).unreadCount >= 0
    ensures Reduce(s, MarkAllSuccess).unreadCount == 0
    ensures HasUnread(s.notifications, id) ==> Reduce(s, DeleteSuccess(id)).unreadCount >= 0
    ensures s.unreadCount >= 0 ==> Reduce(s, DeleteSuccess(id)).unreadCount >= 0
  {
  }

  /** The number of entries whose status is "unread". */
  function UnreadDocs(list: seq<Doc>): (n: nat)
    ensures n <= |list|
  {
    if list == [] then 0 else (if list[0].status == "unread" then 1 else 0) + UnreadDocs(list[1..])
  }

  /** Marking all is idempotent, leaves no unread entry, and keeps the
      length and order of the list. */
  lemma {:induction false} MarkAllIdempotent(list: seq<Doc>)
    ensures AllDocsRead(AllDocsRead(list)) == AllDocsRead(list)
    ensures UnreadDocs(AllDocsRead(list)) == 0
    ensures forall i :: 0 <= i < |list| ==> AllDocsRead(list)[i].id == list[i].id
  {
    if list != [] {
      MarkAllIdempotent(list[1..]);
      assert AllDocsRead(list)[1..] == AllDocsRead(list[1..]);
    }
  }

  ghost predicate IdsUnique(list: seq<Doc>) {
    forall i, j :: 0 <= i < j < |list| ==> list[i].id != list[j].id
  }

  /** The unread entries with this `_id`. */
  function UnreadWithId(list: seq<Doc>, id: string): (n: nat)
    ensures n <= UnreadDocs(list)
    ensures n > 0 <==> HasUnread(list, id)
  {
    if list == [] then 0
    else
      var rest := UnreadWithId(list[1..], id);
      assert HasUnread(list, id) <==> (list[0].id == id && list[0].status == "unread") || HasUnread(list[1..], id) by {
        if HasUnread(list, id) {
          var i :| 0 <= i < |list| && list[i].id == id && list[i].status == "unread";
          if i > 0 { assert list[1..][i - 1] == list[i]; }
        }
        if HasUnread(list[1..], id) {
          var i :| 0 <= i < |list[1..]| && list[1..][i].id == id && list[1..][i].status == "unread";
          assert list[i + 1] == list[1..][i];
        }
      }
      (if list[0].id == id && list[0].status == "unread" then 1 else 0) + rest
  }

  lemma {:induction false} UnreadAfterMark(list: seq<Doc>, id: string)
    ensures UnreadDocs(MarkDoc(list, id)) == UnreadDocs(list) - UnreadWithId(list, id)
  {
    if list != [] {
      UnreadAfterMark(list[1..], id);
      assert MarkDoc(list, id)[1..] == MarkDoc(list[1..], id);
    }
  }

  lemma {:induction false} UnreadAfterDelete(list: seq<Doc>, id: string)
    ensures UnreadDocs(WithoutDoc(list, id)) == UnreadDocs(list) - UnreadWithId(list, id)
  {
    if list != [] {
      UnreadAfterDelete(list[1..], id);
      var rest := WithoutDoc(list[1..], id);
      if list[0].id != id {
        assert WithoutDoc(list, id) == [list[0]] + rest;
        assert ([list[0]] + rest)[1..] == rest;
      } else {
        assert WithoutDoc(list, id) == rest;
      }
    }
  }

  lemma {:induction false} UnreadWithIdAtMostOne(list: seq<Doc>, id: string)
    requires IdsUnique(list)
    ensures UnreadWithId(list, id) <= 1
  {
    if list != [] {
      UnreadWithIdAtMostOne(list[1..], id);
    }
  }

  /** When the count agrees with the list and ids are unique, deleting an
      entry keeps them in agreement (an unread entry takes one off the
      count, a read one nothing); marking an unread entry keeps them in
      agreement, but marking an id with no unread entry takes one off a
      positive count anyway, after which the count is below the list. */
  lemma CountSyncUnderMarkAndDelete(s: State, id: string)
    requires IdsUnique(s.notifications) && s.unreadCount == UnreadDocs(s.notifications)
    ensures var r := Reduce(s, DeleteSuccess(id)); r.unreadCount == UnreadDocs(r.notifications)
    ensures HasUnread(s.notifications, id) ==>
              var r := Reduce(s, MarkSuccess(id)); r.unreadCount == UnreadDocs(r.notifications)
    ensures !HasUnread(s.notifications, id) && s.unreadCount > 0 ==>
              var r := Reduce(s, MarkSuccess(id)); r.unreadCount < UnreadDocs(r.notifications)
  {
    DeleteKeepsCountSync(s, id);
    MarkKeepsCountSync(s, id);
  }

  lemma DeleteKeepsCountSync(s: State, id: string)
    requires IdsUnique(s.notifications) && s.unreadCount == UnreadDocs(s.notifications)
    ensures var r := Reduce(s, DeleteSuccess(id)); r.unreadCount == UnreadDocs(r.notifications)
  {
    var list := s.notifications;
    var r := Reduce(s, DeleteSuccess(id));
    assert r.notifications == WithoutDoc(list, id);
    UnreadAfterDelete(list, id);
    UnreadWithIdAtMostOne(list, id);
    if HasUnread(list, id) {
      assert UnreadWithId(list, id) == 1;
      assert r.unreadCount == Decrement(s.unreadCount);
    } else {
      assert UnreadWithId(list, id) == 0;
      assert r.unreadCount == s.unreadCount;
    }
  }

  lemma MarkKeepsCountSync(s: State, id: string)
    requires IdsUnique(s.notifications) && s.unreadCount == UnreadDocs(s.notifications)
    ensures HasUnread(s.notifications, id) ==>
              var r := Reduce(s, MarkSuccess(id)); r.unreadCount == UnreadDocs(r.notifications)
    ensures !HasUnread(s.notifications, id) && s.unreadCount > 0 ==>
              var r := Reduce(s, MarkSuccess(id)); r.unreadCount < UnreadDocs(r.notifications)
  {
    var list := s.notifications;
    var r := Reduce(s, MarkSuccess(id));
    assert r.notifications == MarkDoc(list, id) && r.unreadCount == Decrement(s.unreadCount);
    UnreadAfterMark(list, id);
    UnreadWithIdAtMostOne(list, id);
  }
}
