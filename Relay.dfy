/** The real-time relay of socket/index.js: a registry from user id to the
    socket that last announced it, three forwarding handlers, and the
    disconnect handler that forgets the first user registered on the
    closing socket.

    The module-level `users` Map becomes the field `users` of class
    `SocketServer`, a sequence of (userId, entry) pairs in insertion order:
    `Map.set` on a key that is present keeps that key's position, and the
    disconnect loop takes the FIRST match in that order. Emissions are
    recorded in the ghost log `emitted`. */
module Relay {
  import opened Basics
  import Seqs

  /** The value `users` keeps for a user id. */
  datatype Entry = Entry(socketId: string, userType: string)

  /** What reaches a client: a generic notification, or an order object
      forwarded verbatim (its JSON text is opaque to the relay). */
  datatype Payload =
    | NotificationPayload(message: string, kind: string, timestamp: int)
    | OrderPayload(order: string)

  /** One `io.to(socketId).emit(event, payload)`. */
  datatype Emission = Emission(socketId: string, event: string, payload: Payload)

  type Users = seq<(string, Entry)>

  /** A Map has each key at most once. */
  ghost predicate KeysDistinct(us: Users) {
    forall i, j :: 0 <= i < j < |us| ==> us[i].0 != us[j].0
  }

  /** Position of key `k`, or -1. */
  function IndexOfKey(us: Users, k: string): (i: int)
    ensures -1 <= i < |us|
    ensures i >= 0 ==> us[i].0 == k && forall j :: 0 <= j < i ==> us[j].0 != k
    ensures i == -1 ==> forall j :: 0 <= j < |us| ==> us[j].0 != k
  {
    Seqs.FindIndex(us, (p: (string, Entry)) => p.0 == k)
  }

  /** `users.get(k)`. */
  function Get(us: Users, k: string): Option<Entry> {
    var i := IndexOfKey(us, k);
    if i < 0 then None else Some(us[i].1)
  }

  /** `users.set(k, e)`: overwrite in place, or append a new key. */
  function Set(us: Users, k: string, e: Entry): Users {
    var i := IndexOfKey(us, k);
    if i < 0 then us + [(k, e)] else us[i := (k, e)]
  }

  /** `users.delete(k)`. */
  function Delete(us: Users, k: string): Users {
    var i := IndexOfKey(us, k);
    if i < 0 then us else us[..i] + us[i + 1..]
  }

  /** Position of the first entry whose socket is `s`, or -1: the
      `for ... of users.entries()` loop with its `break`. */
  function FirstIndexOfSocket(us: Users, s: string): (i: int)
    ensures -1 <= i < |us|
    ensures i >= 0 ==> us[i].1.socketId == s && forall j :: 0 <= j < i ==> us[j].1.socketId != s
    ensures i == -1 ==> forall j :: 0 <= j < |us| ==> us[j].1.socketId != s
  {
    Seqs.FindIndex(us, (p: (string, Entry)) => p.1.socketId == s)
  }

  /** The registry after socket `s` disconnects. The user id found by the
      loop is deleted only when it is truthy, so an entry under the empty
      id is never removed. */
  function AfterDisconnect(us: Users, s: string): Users {
    var i := FirstIndexOfSocket(us, s);
    if i >= 0 && us[i].0 != "" then Delete(us, us[i].0) else us
  }

  /** The emissions a forwarding handler makes: one to the target's socket
      when the target is registered, none otherwise. */
  function Route(us: Users, target: string, event: string, payload: Payload): seq<Emission> {
    match Get(us, target)
    case Some(e) => [Emission(e.socketId, event, payload)]
    case None => []
  }

  class SocketServer {
    var users: Users
    ghost var emitted: seq<Emission>

    ghost predicate Valid()
      reads this
    {
      KeysDistinct(users)
    }

    constructor ()
      ensures Valid() && users == [] && emitted == []
    {
      users := [];
      emitted := [];
    }

    /** `addUser` from socket `socketId` with payload `{userId, userType}`. */
    method AddUser(socketId: string, userId: string, userType: string)
      requires Valid()
      modifies this
      ensures Valid()
      ensures users == Set(old(users), userId, Entry(socketId, userType))
      ensures emitted == old(emitted)
    {
      SetKeepsKeysDistinct(users, userId, Entry(socketId, userType));
      users := Set(users, userId, Entry(socketId, userType));
    }

    /** `sendNotification {recipientId, message, type}`, stamped with `now`. */
    method SendNotification(recipientId: string, message: string, kind: string, now: int)
      requires Valid()
      modifies this`emitted
      ensures Valid() && users == old(users)
      ensures emitted == old(emitted) + Route(users, recipientId, "getNotification", NotificationPayload(message, kind, now))
    {
      var recipient := Get(users, recipientId);
      if recipient.Some? {
        emitted := emitted + [Emission(recipient.value.socketId, "getNotification", NotificationPayload(message, kind, now))];
      }
    }

    /** `newOrder {sellerId, order}`: the order goes to the seller verbatim. */
    method NewOrder(sellerId: string, order: string)
      requires Valid()
      modifies this`emitted
      ensures Valid() && users == old(users)
      ensures emitted == old(emitted) + Route(users, sellerId, "newOrder", OrderPayload(order))
    {
      var seller := Get(users, sellerId);
      if seller.Some? {
        emitted := emitted + [Emission(seller.value.socketId, "newOrder", OrderPayload(order))];
      }
    }

    /** `orderStatusUpdate {buyerId, order}`, re-emitted as `orderStatusUpdated`. */
    method OrderStatusUpdate(buyerId: string, order: string)
      requires Valid()
      modifies this`emitted
      ensures Valid() && users == old(users)
      ensures emitted == old(emitted) + Route(users, buyerId, "orderStatusUpdated", OrderPayload(order))
    {
      var buyer := Get(users, buyerId);
      if buyer.Some? {
        emitted := emitted + [Emission(buyer.value.socketId, "orderStatusUpdated", OrderPayload(order))];
      }
    }

    /** `disconnect` of socket `socketId`. */
    method Disconnect(socketId: string)
      requires Valid()
      modifies this`users
      ensures Valid()
      ensures users == AfterDisconnect(old(users), socketId)
      ensures emitted == old(emitted)
    {
      var disconnectedUserId := "";
      var found := false;
      var i := 0;
      while i < |users|
        invariant 0 <= i <= |users|
        invariant forall j :: 0 <= j < i ==> users[j].1.socketId != socketId
      {
        if users[i].1.socketId == socketId {
          disconnectedUserId := users[i].0;
          found := true;
          break;
        }
        i := i + 1;
      }
      assert found ==> FirstIndexOfSocket(users, socketId) == i && disconnectedUserId == users[i].0;
      assert !found ==> FirstIndexOfSocket(users, socketId) == -1;
      if disconnectedUserId != "" {
        DeleteKeepsKeysDistinct(users, disconnectedUserId);
        users := Delete(users, disconnectedUserId);
      }
    }
  }

  lemma SetKeepsKeysDistinct(us: Users, k: string, e: Entry)
    requires KeysDistinct(us)
    ensures KeysDistinct(Set(us, k, e))
  {
  }

  lemma DeleteKeepsKeysDistinct(us: Users, k: string)
    requires KeysDistinct(us)
    ensures KeysDistinct(Delete(us, k))
  {
    var i := IndexOfKey(us, k);
    if i >= 0 {
      var r := Delete(us, k);
      forall a, b | 0 <= a < b < |r| ensures r[a].0 != r[b].0 {
        var a' := if a < i then a else a + 1;
        var b' := if b < i then b else b + 1;
        assert r[a] == us[a'] && r[b] == us[b'];
      }
    }
  }

  /** In a registry with distinct keys, `Get` returns the entry at any
      position holding the key. */
  lemma GetAt(us: Users, i: int)
    requires KeysDistinct(us) && 0 <= i < |us|
    ensures Get(us, us[i].0) == Some(us[i].1)
  {
  }

  /** `addUser({userId: u, userType: t})` from socket `s` leaves
      `users[u] = {socketId: s, userType: t}`, keeps u's position when it
      was present, and leaves every other key as it was. */
  lemma AddUserOverwrites(us: Users, u: string, e: Entry, other: string)
    requires KeysDistinct(us)
    requires other != u
    ensures Get(Set(us, u, e), u) == Some(e)
    ensures Get(Set(us, u, e), other) == Get(us, other)
    ensures IndexOfKey(us, u) >= 0 ==> IndexOfKey(Set(us, u, e), u) == IndexOfKey(us, u)
    ensures |Set(us, u, e)| == if IndexOfKey(us, u) >= 0 then |us| else |us| + 1
  {
    var r := Set(us, u, e);
    SetKeepsKeysDistinct(us, u, e);
    var i := IndexOfKey(us, u);
    var j := IndexOfKey(r, u);
    assert r[if i >= 0 then i else |us|] == (u, e);
    var o := IndexOfKey(us, other);
    if o >= 0 {
      assert r[o] == us[o];
      GetAt(r, o);
    } else {
      forall m | 0 <= m < |r| ensures r[m].0 != other {
        if m < |us| && m != i { assert r[m] == us[m]; }
      }
    }
  }

  /** Disconnecting socket `s` deletes exactly the first entry (in insertion
      order) whose socket is `s`, provided its user id is truthy; every
      other user keeps its entry. If no entry matches, nothing changes. */
  lemma DisconnectRemovesFirstMatchOnly(us: Users, s: string, other: string)
    requires KeysDistinct(us)
    ensures FirstIndexOfSocket(us, s) == -1 ==> AfterDisconnect(us, s) == us
    ensures var i := FirstIndexOfSocket(us, s);
            i >= 0 && us[i].0 != "" ==>
              Get(AfterDisconnect(us, s), us[i].0) == None &&
              |AfterDisconnect(us, s)| == |us| - 1 &&
              (other != us[i].0 ==> Get(AfterDisconnect(us, s), other) == Get(us, other))
  {
    var i := FirstIndexOfSocket(us, s);
    if i >= 0 && us[i].0 != "" {
      DeleteRemovesKey(us, i);
      if other != us[i].0 {
        DeleteKeepsOthers(us, i, other);
      }
    }
  }

  /** Deleting the key at position `i` removes that position and leaves
      the key unregistered. */
  lemma DeleteRemovesKey(us: Users, i: int)
    requires KeysDistinct(us) && 0 <= i < |us|
    ensures Delete(us, us[i].0) == us[..i] + us[i + 1..]
    ensures Get(Delete(us, us[i].0), us[i].0) == None
  {
    var k := us[i].0;
    assert IndexOfKey(us, k) == i;
    var r := Delete(us, k);
    forall m | 0 <= m < |r| ensures r[m].0 != k {
      var m' := if m < i then m else m + 1;
      assert r[m] == us[m'];
    }
  }

  /** Deleting the key at position `i` leaves every other key's entry. */
  lemma DeleteKeepsOthers(us: Users, i: int, other: string)
    requires KeysDistinct(us) && 0 <= i < |us| && other != us[i].0
    ensures Get(Delete(us, us[i].0), other) == Get(us, other)
  {
    var k := us[i].0;
    assert IndexOfKey(us, k) == i;
    var r := Delete(us, k);
    assert r == us[..i] + us[i + 1..];
    DeleteKeepsKeysDistinct(us, k);
    var o := IndexOfKey(us, other);
    if o >= 0 {
      var o' := if o < i then o else o - 1;
      assert r[o'] == us[o];
      GetAt(r, o');
    } else {
      forall m | 0 <= m < |r| ensures r[m].0 != other {
        var m' := if m < i then m else m + 1;
        assert r[m] == us[m'];
      }
    }
  }

  /** Stale-disconnect safety: a user whose entry points at another socket
      keeps that entry when socket `s` disconnects, because the handler
      matches on the socket id and not on the user id. */
  lemma StaleDisconnectKeepsNewerEntry(us: Users, u: string, e: Entry, s: string)
    requires KeysDistinct(us)
    requires Get(us, u) == Some(e) && e.socketId != s
    ensures Get(AfterDisconnect(us, s), u) == Some(e)
  {
    DisconnectRemovesFirstMatchOnly(us, s, u);
  }

  /** A socket registered under two user ids: its disconnect removes the
      earlier one only, and the later one stays registered. */
  lemma SharedSocketKeepsLaterUser(us: Users, s: string, u2: string)
    requires KeysDistinct(us)
    requires 0 <= FirstIndexOfSocket(us, s) < IndexOfKey(us, u2)
    ensures Get(AfterDisconnect(us, s), u2) == Get(us, u2)
    ensures Get(us, u2).Some?
  {
    DisconnectRemovesFirstMatchOnly(us, s, u2);
  }

  /** The reconnect race of a buyer: announce from s1, re-announce from s2,
      then the late disconnect of s1. A notification sent afterwards reaches
      s2 exactly once, and never s1. */
  lemma ReconnectThenStaleDisconnect(us: Users, b: string, t: string, s1: string, s2: string,
                                     message: string, kind: string, now: int)
    requires KeysDistinct(us)
    requires s1 != s2
    ensures var after := AfterDisconnect(Set(Set(us, b, Entry(s1, t)), b, Entry(s2, t)), s1);
            Route(after, b, "getNotification", NotificationPayload(message, kind, now))
              == [Emission(s2, "getNotification", NotificationPayload(message, kind, now))]
  {
    var us1 := Set(us, b, Entry(s1, t));
    SetKeepsKeysDistinct(us, b, Entry(s1, t));
    var us2 := Set(us1, b, Entry(s2, t));
    SetKeepsKeysDistinct(us1, b, Entry(s2, t));
    AddUserOverwrites(us1, b, Entry(s2, t), b + "'");
    StaleDisconnectKeepsNewerEntry(us2, b, Entry(s2, t), s1);
  }

  /** A forwarding handler delivers to at most one socket: exactly one
      emission, carrying the payload unchanged, when the target is
      registered, and nothing at all when it is not. */
  lemma RouteDeliversAtMostOnce(us: Users, target: string, event: string, payload: Payload)
    ensures |Route(us, target, event, payload)| <= 1
    ensures Get(us, target).None? <==> Route(us, target, event, payload) == []
    ensures forall m :: m in Route(us, target, event, payload) ==>
              m.payload == payload && m.event == event && Some(m.socketId) == (match Get(us, target) case Some(e) => Some(e.socketId) case None => None)
  {
  }
}
