/** The notification provider of frontend/src/context/NotificationContext.jsx:
    it opens a socket for an authenticated user, announces the user to the
    relay, and turns three relay events into unread entries at the head of
    an uncapped list, next to a separately kept `unreadCount`.

    The connection effect runs again whenever the user, the login or the
    side changes; each run first performs the previous run's cleanup,
    which closes the socket that run opened. A run for a logged-out user
    opens nothing, so the `socket` state keeps the closed socket. Sockets
    are numbered in the order they are opened. */
module SocketContext {
  import opened Basics
  import Relay

  /** Entries created locally carry a `Date.now()` number as id; entries
      coming from the server carry a string `_id`. The two never compare
      equal under `===`. */
  datatype NoteId = LocalId(stamp: int) | ServerId(oid: string)

  datatype Note = Note(id: NoteId, kind: string, message: string, time: int, read: bool, link: Option<string>)

  /** The `addUser` payload sent on every `connect`. */
  datatype Announcement = Announcement(userId: string, userType: string)

  /** The fields of a clicked notification that the click handler reads;
      "" stands for a missing field. */
  datatype Clicked = Clicked(id: NoteId, status: string, kind: string, conversationId: string, clickAction: string)

  /** A socket is opened only for a user who is set and authenticated. */
  predicate ShouldConnect(hasUser: bool, isAuthenticated: bool) {
    hasUser && isAuthenticated
  }

  /** The sockets of the connection effect: the one in the `socket`
      state, how many have been opened, and the one the pending cleanup
      will close, which is the only one still open. */
  datatype Conn = Conn(socket: Option<nat>, made: nat, live: Option<nat>)

  /** Only sockets already opened are named, and the open one is the one
      in the state. */
  predicate ConnOk(c: Conn) {
    (c.socket.Some? ==> c.socket.value < c.made) && (c.live.Some? ==> c.live == c.socket)
  }

  /** One run of the connection effect: the previous run's cleanup closes
      its socket, then a new socket is opened and stored for a logged-in
      user; otherwise the state keeps whatever socket it held. */
  function EffectRun(c: Conn, hasUser: bool, isAuthenticated: bool): (r: Conn)
    ensures r.live.Some? <==> ShouldConnect(hasUser, isAuthenticated)
    ensures r.live.Some? ==> r.live == r.socket == Some(c.made) && r.made == c.made + 1
    ensures r.live.None? ==> r.socket == c.socket && r.made == c.made
  {
    var closed := c.(live := None);
    if ShouldConnect(hasUser, isAuthenticated) then Conn(Some(closed.made), closed.made + 1, Some(closed.made))
    else closed
  }

  /** Every run closes the socket the run before opened, so at most one
      socket is ever open, and it is the newest. */
  lemma RunClosesPrevious(c: Conn, hasUser: bool, isAuthenticated: bool)
    requires ConnOk(c)
    ensures var r := EffectRun(c, hasUser, isAuthenticated);
            ConnOk(r) && (c.live.Some? ==> r.live != c.live) &&
            (r.live.Some? ==> forall k :: k < c.made ==> r.live != Some(k))
  {
  }

  /** Logging out after a login closes the socket but keeps it in the
      state: the provider still holds a socket, and none is open. */
  lemma LogoutKeepsClosedSocket(c: Conn, hasUser: bool, isAuthenticated: bool)
    requires ConnOk(c) && c.live.Some?
    requires !ShouldConnect(hasUser, isAuthenticated)
    ensures var r := EffectRun(c, hasUser, isAuthenticated);
            r.socket == c.socket && r.socket.Some? && r.live.None?
  {
  }

  function Announce(userId: string, isSeller: bool): (a: Announcement)
    ensures a.userId == userId
    ensures a.userType in {"seller", "buyer"}
    ensures a.userType == "seller" <==> isSeller
  {
    Announcement(userId, if isSeller then "seller" else "buyer")
  }

  /** The announcement is in the object form the relay destructures, so
      the relay records the user's side as announced: a later lookup of
      the user id finds the announcing socket and `"seller"` exactly for a
      seller. */
  lemma AnnouncementRegistersSide(us: Relay.Users, socketId: string, userId: string, isSeller: bool)
    requires Relay.KeysDistinct(us)
    ensures var a := Announce(userId, isSeller);
            var after := Relay.Set(us, a.userId, Relay.Entry(socketId, a.userType));
            Relay.Get(after, userId).Some? &&
            Relay.Get(after, userId).value.socketId == socketId &&
            (Relay.Get(after, userId).value.userType == "seller" <==> isSeller)
  {
    var a := Announce(userId, isSeller);
    Relay.AddUserOverwrites(us, userId, Relay.Entry(socketId, a.userType), userId + "'");
  }

  /** The entry for a `getNotification` event: type, message and time as sent. */
  function NoteFromNotification(kind: string, message: string, timestamp: int, stamp: int): (n: Note)
    ensures !n.read && n.id == LocalId(stamp) && n.link == None
    ensures n.kind == kind && n.message == message && n.time == timestamp
  {
    Note(LocalId(stamp), kind, message, timestamp, false, None)
  }

  /** The entry for a `newOrder` event. */
  function NoteFromNewOrder(orderId: string, stamp: int, now: int): (n: Note)
    ensures !n.read && n.id == LocalId(stamp) && n.time == now
    ensures n.kind == "new_order" && n.message == "New order received"
    ensures n.link == Some("/dashboard/orders/" + orderId)
  {
    Note(LocalId(stamp), "new_order", "New order received", now, false, Some("/dashboard/orders/" + orderId))
  }

  /** The link of an `orderStatusUpdated` entry depends on the side. */
  function StatusLink(orderId: string, isSeller: bool): (link: string)
    ensures isSeller ==> link == "/dashboard-order/" + orderId
    ensures !isSeller ==> link == "/order/" + orderId
    ensures link[|link| - |orderId|..] == orderId
  {
    if isSeller then "/dashboard-order/" + orderId else "/order/" + orderId
  }

  /** The entry for an `orderStatusUpdated` event. */
  function NoteFromStatusUpdate(orderId: string, status: string, isSeller: bool, stamp: int, now: int): (n: Note)
    ensures !n.read && n.id == LocalId(stamp) && n.time == now
    ensures n.kind == "order_update"
    ensures n.message == "Order #" + orderId + " status updated to " + status
    ensures n.link == Some(StatusLink(orderId, isSeller))
  {
    Note(LocalId(stamp), "order_update", "Order #" + orderId + " status updated to " + status, now, false,
         Some(StatusLink(orderId, isSeller)))
  }

  /** Entries whose id is `id` read, the others untouched. */
  function MarkId(list: seq<Note>, id: NoteId): (r: seq<Note>)
    ensures |r| == |list|
    ensures forall i :: 0 <= i < |r| ==> r[i] == if list[i].id == id then list[i].(read := true) else list[i]
  {
    if list == [] then []
    else [if list[0].id == id then list[0].(read := true) else list[0]] + MarkId(list[1..], id)
  }

  function AllRead(list: seq<Note>): (r: seq<Note>)
    ensures |r| == |list|
    ensures forall i :: 0 <= i < |r| ==> r[i] == list[i].(read := true)
  {
    if list == [] then [] else [list[0].(read := true)] + AllRead(list[1..])
  }

  /** Where a click navigates, if anywhere. */
  function ClickTarget(n: Clicked): (target: Option<string>)
    ensures n.kind == "message" ==> target == Some("/inbox?conversation=" + n.conversationId)
    ensures n.kind != "message" ==> (target.Some? <==> n.clickAction != "")
    ensures n.kind != "message" && target.Some? ==> target.value == n.clickAction
  {
    if n.kind == "message" then Some("/inbox?conversation=" + n.conversationId)
    else if n.clickAction != "" then Some(n.clickAction)
    else None
  }

  class SocketProvider {
    var notifications: seq<Note>
    var unreadCount: nat
    var conn: Conn
    /** The side captured by the open socket's handlers. */
    var isSeller: bool
    ghost var announced: seq<Announcement>
    /** Each `sendNotification` emit, with whether its socket was open. */
    ghost var sent: seq<(string, bool)>

    /** Every count increment comes with a new entry, and every decrement
        or reset keeps the count below the list length. */
    ghost predicate Valid()
      reads this
    {
      unreadCount <= |notifications| && ConnOk(conn)
    }

    constructor ()
      ensures Valid()
      ensures notifications == [] && unreadCount == 0 && conn == Conn(None, 0, None)
      ensures announced == [] && sent == []
    {
      notifications := [];
      unreadCount := 0;
      conn := Conn(None, 0, None);
      isSeller := false;
      announced := [];
      sent := [];
    }

    /** One run of the connection effect followed, when it opened a
        socket, by that socket's `connect` event. */
    method Connect(hasUser: bool, isAuthenticated: bool, userId: string, seller: bool)
      requires Valid()
      modifies this`conn, this`isSeller, this`announced
      ensures Valid()
      ensures conn == EffectRun(old(conn), hasUser, isAuthenticated)
      ensures ShouldConnect(hasUser, isAuthenticated) ==>
                isSeller == seller && announced == old(announced) + [Announce(userId, seller)]
      ensures !ShouldConnect(hasUser, isAuthenticated) ==>
                isSeller == old(isSeller) && announced == old(announced)
    {
      var closed := conn.(live := None);
      if hasUser && isAuthenticated {
        conn := Conn(Some(closed.made), closed.made + 1, Some(closed.made));
        isSeller := seller;
        announced := announced + [Announcement(userId, if seller then "seller" else "buyer")];
      } else {
        conn := closed;
      }
    }

    /** The three relay events reach only the open socket's handlers. */
    method OnGetNotification(kind: string, message: string, timestamp: int, stamp: int)
      requires Valid()
      modifies this`notifications, this`unreadCount
      ensures Valid()
      ensures conn.live.Some? ==> notifications == [NoteFromNotification(kind, message, timestamp, stamp)] + old(notifications) &&
                                  unreadCount == old(unreadCount) + 1
      ensures conn.live.None? ==> notifications == old(notifications) && unreadCount == old(unreadCount)
    {
      if conn.live.None? {
        return;
      }
      notifications := [Note(LocalId(stamp), kind, message, timestamp, false, None)] + notifications;
      unreadCount := unreadCount + 1;
    }

    method OnNewOrder(orderId: string, stamp: int, now: int)
      requires Valid()
      modifies this`notifications, this`unreadCount
      ensures Valid()
      ensures conn.live.Some? ==> notifications == [NoteFromNewOrder(orderId, stamp, now)] + old(notifications) &&
                                  unreadCount == old(unreadCount) + 1
      ensures conn.live.None? ==> notifications == old(notifications) && unreadCount == old(unreadCount)
    {
      if conn.live.None? {
        return;
      }
      notifications := [NoteFromNewOrder(orderId, stamp, now)] + notifications;
      unreadCount := unreadCount + 1;
    }

    method OnOrderStatusUpdated(orderId: string, status: string, stamp: int, now: int)
      requires Valid()
      modifies this`notifications, this`unreadCount
      ensures Valid()
      ensures conn.live.Some? ==> notifications == [NoteFromStatusUpdate(orderId, status, isSeller, stamp, now)] + old(notifications) &&
                                  unreadCount == old(unreadCount) + 1
      ensures conn.live.None? ==> notifications == old(notifications) && unreadCount == old(unreadCount)
    {
      if conn.live.None? {
        return;
      }
      notifications := [NoteFromStatusUpdate(orderId, status, isSeller, stamp, now)] + notifications;
      unreadCount := unreadCount + 1;
    }

    /** Emits whenever a socket is held, even a closed one. */
    method SendNotification(data: string)
      modifies this`sent
      ensures conn.socket.Some? ==> sent == old(sent) + [(data, conn.live.Some?)]
      ensures conn.socket.None? ==> sent == old(sent)
    {
      if conn.socket.Some? {
        sent := sent + [(data, conn.live.Some?)];
      }
    }

    method ClearNotifications()
      requires Valid()
      modifies this`notifications, this`unreadCount
      ensures Valid()
      ensures notifications == [] && unreadCount == 0
    {
      notifications := [];
      unreadCount := 0;
    }

    method AddNotification(n: Note)
      requires Valid()
      modifies this`notifications, this`unreadCount
      ensures Valid()
      ensures notifications == [n] + old(notifications) && unreadCount == old(unreadCount) + 1
    {
      notifications := [n] + notifications;
      unreadCount := unreadCount + 1;
    }

    method MarkAsRead(id: NoteId)
      requires Valid()
      modifies this`notifications, this`unreadCount
      ensures Valid()
      ensures notifications == MarkId(old(notifications), id)
      ensures unreadCount == Max(0, old(unreadCount) - 1)
    {
      notifications := MarkId(notifications, id);
      unreadCount := if unreadCount > 0 then unreadCount - 1 else 0;
    }

    method MarkAllAsRead()
      requires Valid()
      modifies this`notifications, this`unreadCount
      ensures Valid()
      ensures notifications == AllRead(old(notifications)) && unreadCount == 0
    {
      notifications := AllRead(notifications);
      unreadCount := 0;
    }

    /** Marks the clicked entry by its server `_id` when its status is
        "unread", then reports where the page navigates. */
    method HandleNotificationClick(n: Clicked) returns (target: Option<string>)
      requires Valid()
      modifies this`notifications, this`unreadCount
      ensures Valid()
      ensures target == ClickTarget(n)
      ensures n.status == "unread" ==>
                notifications == MarkId(old(notifications), n.id) && unreadCount == Max(0, old(unreadCount) - 1)
      ensures n.status != "unread" ==>
                notifications == old(notifications) && unreadCount == old(unreadCount)
    {
      if n.status == "unread" {
        MarkAsRead(n.id);
      }
      target := ClickTarget(n);
    }
  }

  /** Marking by an id no entry carries changes no entry, although the
      count is still decremented: a click on a server notification, whose
      `_id` is a string, marks nothing among the locally created entries. */
  lemma {:induction false} MarkAbsentIdChangesNothing(list: seq<Note>, id: NoteId)
    requires forall i :: 0 <= i < |list| ==> list[i].id != id
    ensures MarkId(list, id) == list
  {
    if list != [] {
      MarkAbsentIdChangesNothing(list[1..], id);
    }
  }

  /** Marking everything read is idempotent and leaves every entry read. */
  lemma {:induction false} AllReadIdempotent(list: seq<Note>)
    ensures AllRead(AllRead(list)) == AllRead(list)
    ensures forall i :: 0 <= i < |list| ==> AllRead(list)[i].read
  {
    if list != [] {
      AllReadIdempotent(list[1..]);
      assert AllRead(list)[1..] == AllRead(list[1..]);
    }
  }

  /** The status-update entry names the order and its new status, and its
      link ends with the order id on either side. */
  lemma StatusUpdateNamesOrder(orderId: string, status: string, isSeller: bool, stamp: int, now: int)
    ensures var n := NoteFromStatusUpdate(orderId, status, isSeller, stamp, now);
            n.link.Some? && n.link.value[|n.link.value| - |orderId|..] == orderId &&
            n.message[..7] == "Order #" && n.message[7..7 + |orderId|] == orderId
  {
    var n := NoteFromStatusUpdate(orderId, status, isSeller, stamp, now);
    assert n.message == "Order #" + orderId + (" status updated to " + status);
  }
}
