/** The routes of backend/controller/notification.js over a notification
    store. The database collection becomes the field `docs` of class
    `NotificationStore`, each document under a unique id; a handler's
    result is its HTTP status. The authenticated caller's id is an input.
    A route's `:id` is cast first; the lookup compares the cast text with
    the stored ids, so the case of its digits does not matter. */
module NotificationController {
  import opened Basics
  import Seqs
  import opened NotificationSchema
  import opened ObjectIds

  datatype Stored = Stored(id: nat, doc: Notification)

  /** The most documents `get-all-notifications` returns. */
  const PageLimit: nat := 50

  /** Position of the document whose id has the text `key`, or -1:
      `findById` once the route's text has been cast to `key`. */
  function IndexOfId(docs: seq<Stored>, key: string): (k: int)
    ensures -1 <= k < |docs|
    ensures k >= 0 ==> IdText(docs[k].id) == key
    ensures k == -1 ==> forall j :: 0 <= j < |docs| ==> IdText(docs[j].id) != key
  {
    Seqs.FindIndex(docs, (s: Stored) => IdText(s.id) == key)
  }

  /** With distinct issued ids, any route text that casts to a stored
      document's id, in either case, finds exactly that document. */
  lemma FindsIssuedId(docs: seq<Stored>, i: nat, id: string)
    requires i < |docs|
    requires forall j :: 0 <= j < |docs| ==> docs[j].id < Pow16(24)
    requires forall a, b :: 0 <= a < b < |docs| ==> docs[a].id != docs[b].id
    requires Cast(id) == Some(IdText(docs[i].id))
    ensures IndexOfId(docs, Cast(id).value) == i
  {
    var k := IndexOfId(docs, Cast(id).value);
    assert k != -1;
    IdTextInjective(docs[k].id, docs[i].id);
  }

  function OwnedBy(docs: seq<Stored>, userId: string): seq<Stored> {
    Seqs.Filter(docs, (s: Stored) => s.doc.userId == userId)
  }

  /** Sort key for newest first. */
  function NewestFirst(s: Stored): int {
    -s.doc.createdAt
  }

  /** `find({userId}).sort({createdAt: -1}).limit(50)`. */
  function Newest(docs: seq<Stored>, userId: string): seq<Stored> {
    Seqs.Take(Seqs.SortBy(OwnedBy(docs, userId), NewestFirst), PageLimit)
  }

  /** `countDocuments({userId, status: "unread"})`. */
  function UnreadCount(docs: seq<Stored>, userId: string): (n: nat)
    ensures n <= |docs|
    ensures (forall i :: 0 <= i < |docs| ==> docs[i].doc.userId != userId || docs[i].doc.status != Unread) <==> n == 0
  {
    if docs == [] then 0
    else (if docs[0].doc.userId == userId && docs[0].doc.status == Unread then 1 else 0) + UnreadCount(docs[1..], userId)
  }

  /** The `updateMany` of `mark-all-as-read` on one document. */
  function MarkAllStep(s: Stored, userId: string): Stored {
    if s.doc.userId == userId && s.doc.status == Unread then s.(doc := s.doc.(status := Read)) else s
  }

  function MarkAll(docs: seq<Stored>, userId: string): (r: seq<Stored>)
    ensures |r| == |docs|
    ensures forall i :: 0 <= i < |r| ==> r[i] == MarkAllStep(docs[i], userId)
  {
    if docs == [] then [] else [MarkAllStep(docs[0], userId)] + MarkAll(docs[1..], userId)
  }

  class NotificationStore {
    var docs: seq<Stored>
    var nextId: nat

    ghost predicate Valid()
      reads this
    {
      (forall i :: 0 <= i < |docs| ==> docs[i].id < nextId) &&
      (forall i, j :: 0 <= i < j < |docs| ==> docs[i].id != docs[j].id)
    }

    constructor ()
      ensures Valid() && docs == [] && nextId == 0
    {
      docs := [];
      nextId := 0;
    }

    /** `create-notification`: 400 when a required field is missing, 500
        when the schema rejects the draft, otherwise 201 and the new
        document is stored under a fresh id. The handler never passes a
        `status` on, so a request's status is ignored and every new
        document is unread. */
    method Create(d: Draft, now: int) returns (code: int)
      requires Valid()
      modifies this
      ensures Valid()
      ensures code in {201, 400, 500}
      ensures code == 400 <==> d.title == "" || d.message == "" || d.userId == "" || d.kind == ""
      ensures code == 201 <==> d.title != "" && d.message != "" && d.userId != "" && ParseKind(d.kind).Some?
      ensures code == 201 ==> docs == old(docs) + [Stored(old(nextId), Build(d.(status := None), now).value)] &&
                              docs[|docs| - 1].doc.status == Unread
      ensures code != 201 ==> docs == old(docs)
    {
      if d.title == "" || d.message == "" || d.userId == "" || d.kind == "" {
        return 400;
      }
      var built := Build(d.(status := None), now);
      if built.Err? {
        return 500;
      }
      docs := docs + [Stored(nextId, built.value)];
      nextId := nextId + 1;
      code := 201;
    }

    /** `mark-as-read/:id` by `caller`: 500 for an id that cannot be cast,
        404 for an unknown id, 403 for someone else's notification
        (nothing changes), otherwise 200 and the status becomes read. */
    method MarkAsRead(id: string, caller: string) returns (code: int)
      requires Valid()
      modifies this`docs
      ensures Valid()
      ensures !IsObjectId(id) ==> code == 500 && docs == old(docs)
      ensures IsObjectId(id) ==>
              var k := IndexOfId(old(docs), Cast(id).value);
              (k == -1 ==> code == 404 && docs == old(docs)) &&
              (k >= 0 && old(docs)[k].doc.userId != caller ==> code == 403 && docs == old(docs)) &&
              (k >= 0 && old(docs)[k].doc.userId == caller ==>
                 code == 200 && docs == old(docs)[k := old(docs)[k].(doc := old(docs)[k].doc.(status := Read))])
    {
      var key := Cast(id);
      if key.None? {
        return 500;
      }
      var k := IndexOfId(docs, key.value);
      if k == -1 {
        return 404;
      }
      if docs[k].doc.userId != caller {
        return 403;
      }
      docs := docs[k := docs[k].(doc := docs[k].doc.(status := Read))];
      code := 200;
    }

    /** `mark-all-as-read` by `caller`. */
    method MarkAllAsRead(caller: string)
      requires Valid()
      modifies this`docs
      ensures Valid()
      ensures docs == MarkAll(old(docs), caller)
    {
      docs := MarkAll(docs, caller);
    }

    /** `delete-notification/:id` by `caller`: 500 for an id that cannot
        be cast, 404, 403 (nothing removed) or 200 with the document
        removed. */
    method Delete(id: string, caller: string) returns (code: int)
      requires Valid()
      modifies this`docs
      ensures Valid()
      ensures !IsObjectId(id) ==> code == 500 && docs == old(docs)
      ensures IsObjectId(id) ==>
              var k := IndexOfId(old(docs), Cast(id).value);
              (k == -1 ==> code == 404 && docs == old(docs)) &&
              (k >= 0 && old(docs)[k].doc.userId != caller ==> code == 403 && docs == old(docs)) &&
              (k >= 0 && old(docs)[k].doc.userId == caller ==> code == 200 && docs == old(docs)[..k] + old(docs)[k + 1..])
    {
      var key := Cast(id);
      if key.None? {
        return 500;
      }
      var k := IndexOfId(docs, key.value);
      if k == -1 {
        return 404;
      }
      if docs[k].doc.userId != caller {
        return 403;
      }
      docs := docs[..k] + docs[k + 1..];
      code := 200;
    }
  }

  /** `get-all-notifications` returns only the caller's documents, newest
      first, at most fifty; and when the caller has at most fifty, all of
      them. */
  lemma NewestIsOwnSortedPage(docs: seq<Stored>, userId: string)
    ensures var r := Newest(docs, userId);
            |r| <= PageLimit &&
            (forall i :: 0 <= i < |r| ==> r[i] in docs && r[i].doc.userId == userId) &&
            (forall i, j :: 0 <= i < j < |r| ==> r[i].doc.createdAt >= r[j].doc.createdAt) &&
            (|OwnedBy(docs, userId)| <= PageLimit ==> multiset(r) == multiset(OwnedBy(docs, userId)))
    ensures var r := Newest(docs, userId);
            var owned := OwnedBy(docs, userId);
            |r| == Min(PageLimit, |owned|) && multiset(r) <= multiset(owned) &&
            (|r| > 0 ==> forall x :: x in multiset(owned) - multiset(r) ==> x.doc.createdAt <= r[|r| - 1].doc.createdAt)
  {
    var owned := OwnedBy(docs, userId);
    var sorted := Seqs.SortBy(owned, NewestFirst);
    Seqs.SortByIsSortedPermutation(owned, NewestFirst);
    var r := Newest(docs, userId);
    forall i | 0 <= i < |r| ensures r[i] in docs && r[i].doc.userId == userId {
      assert r[i] == sorted[i];
      assert sorted[i] in multiset(owned);
      Seqs.FilterMembership(docs, (s: Stored) => s.doc.userId == userId, r[i]);
    }
    if |owned| <= PageLimit {
      assert r == sorted;
    }
    NewestLeavesOnlyOlder(owned, r);
  }

  /** What the page leaves out of the caller's documents is no newer than
      its last entry. */
  lemma NewestLeavesOnlyOlder(owned: seq<Stored>, r: seq<Stored>)
    requires r == Seqs.Take(Seqs.SortBy(owned, NewestFirst), PageLimit)
    ensures |r| == Min(PageLimit, |owned|) && multiset(r) <= multiset(owned)
    ensures |r| > 0 ==> forall x :: x in multiset(owned) - multiset(r) ==> x.doc.createdAt <= r[|r| - 1].doc.createdAt
  {
    var sorted := Seqs.SortBy(owned, NewestFirst);
    Seqs.SortByIsSortedPermutation(owned, NewestFirst);
    var m := |r|;
    assert r == sorted[..m];
    PageSplit(sorted, m);
    if m > 0 {
      SortedTailNoNewer(sorted, m);
    }
  }

  /** A page and the rest make up the whole sequence. */
  lemma PageSplit(sorted: seq<Stored>, m: nat)
    requires m <= |sorted|
    ensures multiset(sorted) == multiset(sorted[..m]) + multiset(sorted[m..])
  {
    assert sorted == sorted[..m] + sorted[m..];
  }

  /** In newest-first order, everything after position `m - 1` is no
      newer than the entry there. */
  lemma SortedTailNoNewer(sorted: seq<Stored>, m: nat)
    requires 0 < m <= |sorted| && Seqs.SortedBy(sorted, NewestFirst)
    ensures forall x :: x in multiset(sorted[m..]) ==> x.doc.createdAt <= sorted[m - 1].doc.createdAt
  {
    forall x | x in multiset(sorted[m..])
      ensures x.doc.createdAt <= sorted[m - 1].doc.createdAt
    {
      var k :| 0 <= k < |sorted[m..]| && sorted[m..][k] == x;
      assert NewestFirst(sorted[m - 1]) <= NewestFirst(sorted[m + k]);
    }
  }


  /** The unread count is the number of the caller's unread documents:
      it adds up over a split store. */
  lemma {:induction false} UnreadCountSplits(a: seq<Stored>, b: seq<Stored>, userId: string)
    ensures UnreadCount(a + b, userId) == UnreadCount(a, userId) + UnreadCount(b, userId)
  {
    if a == [] {
      assert a + b == b;
    } else {
      UnreadCountSplits(a[1..], b, userId);
      assert (a + b)[1..] == a[1..] + b;
    }
  }

  /** After `mark-all-as-read` the caller has no unread document, every
      other user's documents are untouched, and archived documents stay
      archived. */
  lemma {:induction false} MarkAllClearsOnlyCaller(docs: seq<Stored>, caller: string)
    ensures UnreadCount(MarkAll(docs, caller), caller) == 0
    ensures forall i :: 0 <= i < |docs| && docs[i].doc.userId != caller ==> MarkAll(docs, caller)[i] == docs[i]
    ensures forall i :: 0 <= i < |docs| && docs[i].doc.status == Archived ==> MarkAll(docs, caller)[i] == docs[i]
    ensures forall u :: u != caller ==> UnreadCount(MarkAll(docs, caller), u) == UnreadCount(docs, u)
  {
    if docs != [] {
      MarkAllClearsOnlyCaller(docs[1..], caller);
      assert MarkAll(docs, caller) == [MarkAllStep(docs[0], caller)] + MarkAll(docs[1..], caller);
      assert MarkAll(docs, caller)[1..] == MarkAll(docs[1..], caller);
    }
  }

  /** A successful `mark-as-read` of an unread document lowers the
      owner's unread count by one and nobody else's. */
  lemma MarkOneLowersCount(docs: seq<Stored>, k: nat, u: string)
    requires k < |docs| && docs[k].doc.status == Unread
    ensures var after := docs[k := docs[k].(doc := docs[k].doc.(status := Read))];
            UnreadCount(after, u) == if u == docs[k].doc.userId then UnreadCount(docs, u) - 1 else UnreadCount(docs, u)
  {
    var after := docs[k := docs[k].(doc := docs[k].doc.(status := Read))];
    assert docs == docs[..k] + [docs[k]] + docs[k + 1..];
    assert after == docs[..k] + [after[k]] + docs[k + 1..];
    UnreadCountSplits(docs[..k] + [docs[k]], docs[k + 1..], u);
    UnreadCountSplits(docs[..k], [docs[k]], u);
    UnreadCountSplits(docs[..k] + [after[k]], docs[k + 1..], u);
    UnreadCountSplits(docs[..k], [after[k]], u);
  }
}
