/** The notification provider of
    frontend/src/components/Context/NotificationContext.jsx: a list of at
    most 20 toasts (newest first) and a separately kept `unreadCount`.

    The list transforms handed to the state setters are the pure functions
    below; the provider class applies them to its fields. Clocks are
    inputs: an arrival carries its `Date.now()` id and its time, and the
    five-minute expiry timer is the separate `Expire` call it schedules. */
module CappedContext {
  import opened Basics
  import Seqs

  /** The most entries the list keeps. */
  const Cap: nat := 20

  datatype Audience = Seller | Buyer

  /** One cached notification. A missing link is `None`. */
  datatype Toast = Toast(id: int, message: string, kind: string, time: int, read: bool, link: Option<string>)

  /** The payload of a `getNotification` event; "" stands for a missing
      (falsy) field and `audience` for the optional `data.userType`. */
  datatype Incoming = Incoming(message: string, kind: string, link: string, audience: Option<string>)

  /** Which side the provider serves; a logged-in seller takes precedence. */
  function DeriveUserType(sellerId: string, userId: string): (r: Option<Audience>)
    ensures r == Some(Seller) <==> sellerId != ""
    ensures r == Some(Buyer) <==> sellerId == "" && userId != ""
    ensures r == None <==> sellerId == "" && userId == ""
  {
    if sellerId != "" then Some(Seller)
    else if userId != "" then Some(Buyer)
    else None
  }

  /** Whether an incoming notification is kept by a provider serving `side`. */
  predicate Accepts(side: Option<Audience>, audience: Option<string>) {
    (side == Some(Seller) && audience != Some("buyer")) ||
    (side == Some(Buyer) && audience != Some("seller"))
  }

  /** A notification addressed to buyers never reaches a seller's cache
      and vice versa; an untagged one reaches either side; with no
      logged-in side nothing is accepted. */
  lemma AcceptsByAudience(side: Option<Audience>, audience: Option<string>)
    ensures side == None ==> !Accepts(side, audience)
    ensures audience == Some("buyer") ==> (Accepts(side, audience) <==> side == Some(Buyer))
    ensures audience == Some("seller") ==> (Accepts(side, audience) <==> side == Some(Seller))
    ensures audience == None ==> (Accepts(side, audience) <==> side != None)
  {
    match side
    case None =>
    case Some(a) =>
      assert Accepts(side, audience) <==> (a == Seller && audience != Some("buyer")) || (a == Buyer && audience != Some("seller"));
  }

  /** The entry built from an accepted arrival. */
  function MakeToast(data: Incoming, id: int, now: int): (t: Toast)
    ensures !t.read && t.id == id && t.time == now
    ensures t.message == (if data.message == "" then "New notification" else data.message)
    ensures t.kind == (if data.kind == "" then "info" else data.kind)
    ensures t.link.None? <==> data.link == ""
  {
    Toast(id,
          if data.message == "" then "New notification" else data.message,
          if data.kind == "" then "info" else data.kind,
          now, false,
          if data.link == "" then None else Some(data.link))
  }

  /** The new head followed by the older entries, cut to `Cap`. */
  function Arrive(list: seq<Toast>, t: Toast): (r: seq<Toast>)
    ensures 1 <= |r| <= Cap
    ensures |r| == if |list| < Cap then |list| + 1 else Cap
    ensures r[0] == t
    ensures r[1..] == list[..|r| - 1]
  {
    Seqs.Take([t] + list, Cap)
  }

  /** The TTL filter: drops every entry carrying `id`. */
  function Expire(list: seq<Toast>, id: int): (r: seq<Toast>)
    ensures |r| <= |list|
    ensures forall t :: t in r <==> t in list && t.id != id
    ensures Seqs.IsSubsequence(r, list)
    ensures |r| == |list| - Seqs.Count(list, (t: Toast) => t.id == id)
  {
    if list == [] then []
    else if list[0].id != id then [list[0]] + Expire(list[1..], id)
    else
      var rest := Expire(list[1..], id);
      Seqs.SubsequenceSkip(rest, list);
      rest
  }

  /** Every entry read, nothing else changed. */
  function AllRead(list: seq<Toast>): (r: seq<Toast>)
    ensures |r| == |list|
    ensures forall i :: 0 <= i < |r| ==> r[i] == list[i].(read := true)
  {
    if list == [] then [] else [list[0].(read := true)] + AllRead(list[1..])
  }

  /** Entries carrying `id` read, the others untouched. */
  function MarkId(list: seq<Toast>, id: int): (r: seq<Toast>)
    ensures |r| == |list|
    ensures forall i :: 0 <= i < |r| ==> r[i] == if list[i].id == id then list[i].(read := true) else list[i]
  {
    if list == [] then []
    else [if list[0].id == id then list[0].(read := true) else list[0]] + MarkId(list[1..], id)
  }

  /** `notifications.find(n => n.id === id)`. */
  function FirstWithId(list: seq<Toast>, id: int): (r: Option<Toast>)
    ensures r.Some? ==> r.value in list && r.value.id == id
    ensures r.Some? ==> exists k :: 0 <= k < |list| && list[k] == r.value && forall j :: 0 <= j < k ==> list[j].id != id
    ensures r.None? ==> forall t :: t in list ==> t.id != id
  {
    var k := Seqs.FindIndex(list, (t: Toast) => t.id == id);
    if k < 0 then None else Some(list[k])
  }

  /** The number of unread entries in the list. */
  function UnreadIn(list: seq<Toast>): (n: nat)
    ensures n <= |list|
  {
    if list == [] then 0 else (if list[0].read then 0 else 1) + UnreadIn(list[1..])
  }

  /** The number of unread entries carrying `id`. */
  function UnreadWithId(list: seq<Toast>, id: int): (n: nat)
    ensures n <= UnreadIn(list)
  {
    if list == [] then 0
    else (if list[0].id == id && !list[0].read then 1 else 0) + UnreadWithId(list[1..], id)
  }

  ghost predicate IdsUnique(list: seq<Toast>) {
    forall i, j :: 0 <= i < j < |list| ==> list[i].id != list[j].id
  }

  /** `unreadCount` agrees with the list. */
  ghost predicate Synced(list: seq<Toast>, count: nat) {
    count == UnreadIn(list)
  }

  /** `unreadCount` is at least the number of unread entries shown. */
  ghost predicate Covers(list: seq<Toast>, count: nat) {
    count >= UnreadIn(list)
  }

  /** The sockets of the connect effect: the one held in state, how many
      were opened (a socket is named by its opening number), which are
      still connected, and the socket whose disconnect the effect's last
      run left as its cleanup. */
  datatype Link = Link(socket: Option<nat>, made: nat, live: set<nat>, cleanup: Option<nat>)

  /** One run of the connect effect. React runs the previous run's cleanup
      first, then the body, which opens a socket only when someone is
      logged in and no socket is held, and returns that socket's
      disconnect as the new cleanup. */
  function ConnectRun(k: Link, sellerId: string, userId: string): (r: Link)
    ensures r.made == k.made || r.made == k.made + 1
    ensures r.made == k.made + 1 <==> k.socket.None? && (sellerId != "" || userId != "")
    ensures r.live <= k.live + {k.made}
  {
    var k1 := if k.cleanup.Some? then k.(live := k.live - {k.cleanup.value}, cleanup := None) else k;
    if (sellerId != "" || userId != "") && k1.socket.None? then
      Link(Some(k1.made), k1.made + 1, k1.live + {k1.made}, Some(k1.made))
    else k1
  }

  /** The first run after login opens socket `n` and holds it; holding it
      changes the effect's `socket` dependency, so the effect runs again
      at once, and that run's cleanup disconnects the very socket it
      holds. Its body then opens nothing, because a socket is held. */
  lemma MountThenRerenderDisconnects(n: nat, live: set<nat>, sellerId: string, userId: string)
    requires sellerId != "" || userId != ""
    requires n !in live
    ensures var k1 := ConnectRun(Link(None, n, live, None), sellerId, userId);
            k1.socket == Some(n) && n in k1.live &&
            var k2 := ConnectRun(k1, sellerId, userId);
            k2.socket == Some(n) && n !in k2.live && k2.cleanup == None && k2.made == n + 1
  {
  }

  /** Once the held socket is disconnected and no cleanup is pending, no
      later run (any login, any logout) opens or closes anything. */
  lemma DisconnectedSocketIsKept(k: Link, sellerId: string, userId: string)
    requires k.socket.Some? && k.socket.value !in k.live && k.cleanup.None?
    ensures ConnectRun(k, sellerId, userId) == k
    ensures k.socket.value !in ConnectRun(k, sellerId, userId).live
  {
  }

  /** How many registered listeners keep an event: each listener compares
      the event with the side it captured when it was registered. */
  function Takers(listeners: seq<Option<Audience>>, audience: Option<string>): (n: nat)
    ensures n <= |listeners|
    ensures n == 0 <==> forall i :: 0 <= i < |listeners| ==> !Accepts(listeners[i], audience)
  {
    if listeners == [] then 0
    else Takers(listeners[..|listeners| - 1], audience) + (if Accepts(listeners[|listeners| - 1], audience) then 1 else 0)
  }

  /** `n` arrivals of the same toast. */
  function ArriveTimes(list: seq<Toast>, t: Toast, n: nat): (r: seq<Toast>)
    ensures n == 0 ==> r == list
    ensures n > 0 ==> 1 <= |r| <= Cap
    ensures |list| <= Cap ==> |r| <= Cap
  {
    if n == 0 then list else Arrive(ArriveTimes(list, t, n - 1), t)
  }

  /** With `n` listeners keeping an event, the first `n` entries (up to the
      cap) are all that event's toast, and the count still covers the
      unread toasts after it grows by `n`. */
  lemma {:induction false} ArriveTimesDuplicates(list: seq<Toast>, t: Toast, n: nat, count: nat)
    requires !t.read
    ensures forall i :: 0 <= i < n && i < |ArriveTimes(list, t, n)| ==> ArriveTimes(list, t, n)[i] == t
    ensures Covers(list, count) ==> Covers(ArriveTimes(list, t, n), count + n)
  {
    if n > 0 {
      ArriveTimesDuplicates(list, t, n - 1, count);
      var prev := ArriveTimes(list, t, n - 1);
      var r := Arrive(prev, t);
      ArrivalKeepsCover(prev, t, count + n - 1);
      forall i | 0 <= i < n && i < |r| ensures r[i] == t {
        if i > 0 {
          assert r[i] == r[1..][i - 1] == prev[..|r| - 1][i - 1];
        }
      }
    }
  }

  class NotificationProvider {
    var notifications: seq<Toast>
    var unreadCount: nat
    var userType: Option<Audience>
    var link: Link
    /** The side captured by each `getNotification` listener, in the order
        registered; none is ever removed. */
    var listeners: seq<Option<Audience>>
    /** Each `addUser` emit: the id announced and whether the socket it
        went to was still connected. */
    var announced: seq<(string, bool)>

    ghost predicate Valid()
      reads this
    {
      |notifications| <= Cap
    }

    constructor ()
      ensures Valid()
      ensures notifications == [] && unreadCount == 0 && userType == None
      ensures link == Link(None, 0, {}, None) && listeners == [] && announced == []
    {
      notifications := [];
      unreadCount := 0;
      userType := None;
      link := Link(None, 0, {}, None);
      listeners := [];
      announced := [];
    }

    /** The effect re-run when the seller or user slice changes. */
    method SyncUserType(sellerId: string, userId: string)
      modifies this`userType
      ensures userType == DeriveUserType(sellerId, userId)
    {
      if sellerId != "" {
        userType := Some(Seller);
      } else if userId != "" {
        userType := Some(Buyer);
      } else {
        userType := None;
      }
    }

    /** One run of the connect effect, whose dependencies are the two ids
        and the held socket. */
    method Connect(sellerId: string, userId: string)
      modifies this`link
      ensures link == ConnectRun(old(link), sellerId, userId)
    {
      if link.cleanup.Some? {
        link := link.(live := link.live - {link.cleanup.value}, cleanup := None);
      }
      if (sellerId != "" || userId != "") && link.socket.None? {
        var s := link.made;
        link := Link(Some(s), s + 1, link.live + {s}, Some(s));
      }
    }

    /** One run of the listener effect: with a socket held, the logged-in
        id is announced on it and one more listener capturing the current
        side is registered; the earlier listeners stay. */
    method Listen(sellerId: string, userId: string)
      modifies this`listeners, this`announced
      ensures link.socket.None? ==> listeners == old(listeners) && announced == old(announced)
      ensures link.socket.Some? ==> listeners == old(listeners) + [userType]
      ensures link.socket.Some? && (sellerId != "" || userId != "") ==>
                announced == old(announced) + [(if sellerId != "" then sellerId else userId, link.socket.value in link.live)]
      ensures link.socket.Some? && sellerId == "" && userId == "" ==> announced == old(announced)
    {
      if link.socket.Some? {
        var live := link.socket.value in link.live;
        if sellerId != "" {
          announced := announced + [(sellerId, live)];
        } else if userId != "" {
          announced := announced + [(userId, live)];
        }
        listeners := listeners + [userType];
      }
    }

    /** A `getNotification` event with its arrival id and time. Only a
        connected socket delivers it; then every listener that keeps it
        adds the same toast and one to the count. */
    method Receive(data: Incoming, id: int, now: int)
      requires Valid()
      modifies this`notifications, this`unreadCount
      ensures Valid()
      ensures var n := if link.socket.Some? && link.socket.value in link.live then Takers(listeners, data.audience) else 0;
              notifications == ArriveTimes(old(notifications), MakeToast(data, id, now), n) &&
              unreadCount == old(unreadCount) + n
    {
      if link.socket.Some? && link.socket.value in link.live {
        var n := Takers(listeners, data.audience);
        notifications := ArriveTimes(notifications, MakeToast(data, id, now), n);
        unreadCount := unreadCount + n;
      }
    }

    /** The auto-dismiss timer of the arrival with this id firing. */
    method ExpireId(id: int)
      requires Valid()
      modifies this`notifications
      ensures Valid()
      ensures notifications == Expire(old(notifications), id)
    {
      notifications := Expire(notifications, id);
    }

    method MarkAllAsRead()
      requires Valid()
      modifies this`notifications, this`unreadCount
      ensures Valid()
      ensures notifications == AllRead(old(notifications)) && unreadCount == 0
    {
      notifications := AllRead(notifications);
      unreadCount := 0;
    }

    /** Decrements the count whether or not the entry was unread. */
    method MarkAsRead(id: int)
      requires Valid()
      modifies this`notifications, this`unreadCount
      ensures Valid()
      ensures notifications == MarkId(old(notifications), id)
      ensures unreadCount == Max(0, old(unreadCount) - 1)
    {
      notifications := MarkId(notifications, id);
      unreadCount := if unreadCount > 0 then unreadCount - 1 else 0;
    }

    /** Removes every entry with this id; decrements only when the first
        such entry of the current list was unread. */
    method ClearNotification(id: int)
      requires Valid()
      modifies this`notifications, this`unreadCount
      ensures Valid()
      ensures notifications == Expire(old(notifications), id)
      ensures var first := FirstWithId(old(notifications), id);
              unreadCount == if first.Some? && !first.value.read then Max(0, old(unreadCount) - 1) else old(unreadCount)
    {
      var first := FirstWithId(notifications, id);
      notifications := Expire(notifications, id);
      if first.Some? && !first.value.read {
        unreadCount := if unreadCount > 0 then unreadCount - 1 else 0;
      }
    }

    method ClearAllNotifications()
      modifies this`notifications, this`unreadCount
      ensures Valid()
      ensures notifications == [] && unreadCount == 0
    {
      notifications := [];
      unreadCount := 0;
    }
  }

  // ---------------------------------------------------------------------
  // How the count relates to the list.

  lemma {:induction false} UnreadAfterMark(list: seq<Toast>, id: int)
    ensures UnreadIn(MarkId(list, id)) == UnreadIn(list) - UnreadWithId(list, id)
  {
    if list != [] {
      UnreadAfterMark(list[1..], id);
      assert MarkId(list, id)[1..] == MarkId(list[1..], id);
    }
  }

  lemma {:induction false} UnreadAfterExpire(list: seq<Toast>, id: int)
    ensures UnreadIn(Expire(list, id)) == UnreadIn(list) - UnreadWithId(list, id)
  {
    if list != [] {
      UnreadAfterExpire(list[1..], id);
      var rest := Expire(list[1..], id);
      if list[0].id != id {
        assert Expire(list, id) == [list[0]] + rest;
        assert ([list[0]] + rest)[1..] == rest;
      } else {
        assert Expire(list, id) == rest;
      }
    }
  }

  lemma {:induction false} UnreadWithIdPositive(list: seq<Toast>, id: int, i: int)
    requires 0 <= i < |list| && list[i].id == id && !list[i].read
    ensures UnreadWithId(list, id) >= 1
  {
    if i > 0 {
      UnreadWithIdPositive(list[1..], id, i - 1);
    }
  }

  lemma {:induction false} UnreadWithIdAtMostOne(list: seq<Toast>, id: int)
    requires IdsUnique(list)
    ensures UnreadWithId(list, id) <= 1
  {
    if list != [] {
      UnreadWithIdAtMostOne(list[1..], id);
      if list[0].id == id {
        UnreadWithIdAbsent(list[1..], id);
      }
    }
  }

  lemma {:induction false} UnreadWithIdAbsent(list: seq<Toast>, id: int)
    requires forall i :: 0 <= i < |list| ==> list[i].id != id
    ensures UnreadWithId(list, id) == 0
  {
    if list != [] {
      UnreadWithIdAbsent(list[1..], id);
    }
  }

  lemma {:induction false} UnreadOfPrefix(list: seq<Toast>, n: nat)
    requires n <= |list|
    ensures UnreadIn(list[..n]) <= UnreadIn(list)
    ensures n < |list| && !list[n].read ==> UnreadIn(list[..n]) < UnreadIn(list)
  {
    if n > 0 {
      UnreadOfPrefix(list[1..], n - 1);
      assert list[..n][1..] == list[1..][..n - 1];
    } else if n < |list| && !list[n].read {
      assert UnreadIn(list) >= 1;
    }
  }

  /** Marking everything read twice is the same as once, and leaves no
      unread entry. */
  lemma {:induction false} MarkAllIdempotent(list: seq<Toast>)
    ensures AllRead(AllRead(list)) == AllRead(list)
    ensures UnreadIn(AllRead(list)) == 0
    ensures Synced(AllRead(list), 0)
  {
    if list != [] {
      MarkAllIdempotent(list[1..]);
      assert AllRead(list)[1..] == AllRead(list[1..]);
    }
  }

  /** An arrival adds at most one unread entry to the list, so a count
      that covered the list still covers it after `count + 1`. From a
      full list of at most `Cap` entries, the count stays exact exactly
      when the entry pushed out by the cap was already read. */
  lemma ArrivalKeepsCover(list: seq<Toast>, t: Toast, count: nat)
    requires !t.read
    ensures Covers(list, count) ==> Covers(Arrive(list, t), count + 1)
    ensures Synced(list, count) && |list| <= Cap ==>
              (Synced(Arrive(list, t), count + 1) <==> |list| < Cap || list[Cap - 1].read)
  {
    var r := Arrive(list, t);
    assert r == [t] + list[..|r| - 1];
    assert ([t] + list[..|r| - 1])[1..] == list[..|r| - 1];
    UnreadOfPrefix(list, |r| - 1);
    if |list| < Cap {
      assert list[..|r| - 1] == list;
    } else if |list| == Cap {
      UnreadSnoc(list, Cap - 1);
      assert list[..Cap] == list;
    }
  }

  /** Extending a prefix by one entry adds one exactly when it is unread. */
  lemma {:induction false} UnreadSnoc(list: seq<Toast>, n: nat)
    requires n < |list|
    ensures UnreadIn(list[..n + 1]) == UnreadIn(list[..n]) + (if list[n].read then 0 else 1)
  {
    if n > 0 {
      UnreadSnoc(list[1..], n - 1);
      assert list[..n][1..] == list[1..][..n - 1];
      assert list[..n + 1][1..] == list[1..][..n];
    }
  }

  /** The TTL removal keeps the count: it still covers the list, but an
      expired unread entry leaves the count above the list for good. */
  lemma ExpireKeepsCover(list: seq<Toast>, id: int, count: nat)
    ensures Covers(list, count) ==> Covers(Expire(list, id), count)
    ensures Synced(list, count) && (exists i :: 0 <= i < |list| && list[i].id == id && !list[i].read) ==>
              !Synced(Expire(list, id), count)
  {
    UnreadAfterExpire(list, id);
    if exists i :: 0 <= i < |list| && list[i].id == id && !list[i].read {
      var i :| 0 <= i < |list| && list[i].id == id && !list[i].read;
      UnreadWithIdPositive(list, id, i);
    }
  }

  /** `markAsRead` of an unread entry keeps the count covering the list,
      and exact when ids are unique; `markAsRead` of an id with no unread
      entry still decrements, so a positive exact count falls below the
      list. */
  lemma MarkAsReadDrift(list: seq<Toast>, id: int, count: nat)
    ensures (exists i :: 0 <= i < |list| && list[i].id == id && !list[i].read) && Covers(list, count) ==>
              Covers(MarkId(list, id), Max(0, count - 1))
    ensures (exists i :: 0 <= i < |list| && list[i].id == id && !list[i].read) && IdsUnique(list) && Synced(list, count) ==>
              Synced(MarkId(list, id), Max(0, count - 1))
    ensures (forall i :: 0 <= i < |list| && list[i].id == id ==> list[i].read) && Synced(list, count) && count > 0 ==>
              !Covers(MarkId(list, id), Max(0, count - 1))
  {
    UnreadAfterMark(list, id);
    if exists i :: 0 <= i < |list| && list[i].id == id && !list[i].read {
      var i :| 0 <= i < |list| && list[i].id == id && !list[i].read;
      UnreadWithIdPositive(list, id, i);
      if IdsUnique(list) {
        UnreadWithIdAtMostOne(list, id);
      }
    } else {
      NoUnreadWithId(list, id);
    }
  }

  lemma {:induction false} NoUnreadWithId(list: seq<Toast>, id: int)
    requires forall i :: 0 <= i < |list| && list[i].id == id ==> list[i].read
    ensures UnreadWithId(list, id) == 0
  {
    if list != [] {
      NoUnreadWithId(list[1..], id);
    }
  }

  /** `clearNotification` keeps the count covering the list, and exact
      when ids are unique. */
  lemma ClearKeepsCover(list: seq<Toast>, id: int, count: nat)
    ensures var first := FirstWithId(list, id);
            var after := if first.Some? && !first.value.read then Max(0, count - 1) else count;
            (Covers(list, count) ==> Covers(Expire(list, id), after)) &&
            (IdsUnique(list) && Synced(list, count) ==> Synced(Expire(list, id), after))
  {
    UnreadAfterExpire(list, id);
    var k := Seqs.FindIndex(list, (t: Toast) => t.id == id);
    if k >= 0 {
      if !list[k].read {
        UnreadWithIdPositive(list, id, k);
      }
      if IdsUnique(list) {
        UnreadWithIdAtMostOne(list, id);
        if list[k].read {
          forall i | 0 <= i < |list| && list[i].id == id ensures list[i].read {
            assert i == k;
          }
          NoUnreadWithId(list, id);
        }
      }
    } else {
      UnreadWithIdAbsent(list, id);
    }
  }
}
