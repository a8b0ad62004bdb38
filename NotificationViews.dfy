/** The notification views: the time-ago text and links of
    frontend/src/components/Notifications/NotificationsDropdown.jsx, the
    tabs and links of frontend/src/pages/NotificationsPage.jsx, the two
    bells (frontend/src/components/Layout/UserNotificationBell.jsx and
    frontend/src/components/Shop/NotificationToast.jsx) and the buyer toast
    of frontend/src/components/UserNotificationToast.jsx. Elapsed times are
    inputs in milliseconds; the bells and the toast act on the capped
    provider of `CappedContext`. */
module NotificationViews {
  import opened Basics
  import Seqs
  import Text
  import CappedContext
  import NotificationReducer

  // ---------------------------------------------------------------------
  // Dropdown: `formatTimeAgo`.

  datatype Unit = Seconds | Minutes | Hours | Days | Months

  datatype Ago = Ago(amount: int, unit: Unit)

  /** The dropdown's nested floor divisions of milliseconds are floor
      divisions by the product of the divisors. */
  lemma DivSteps(ms: int)
    ensures (ms / 1000) / 60 == ms / 60000
    ensures (ms / 60000) / 60 == ms / 3600000
    ensures (ms / 3600000) / 24 == ms / 86400000
    ensures (ms / 86400000) / 30 == ms / 2592000000
  {
  }

  /** The bucket `formatTimeAgo` picks for `elapsedMs` milliseconds: the
      whole seconds under a minute, then whole minutes, hours, days and
      30-day months, each bucket taken while its amount is under the next
      unit. */
  function FormatTimeAgo(elapsedMs: int): (r: Ago)
    ensures var s := elapsedMs / 1000;
            (r.unit == Seconds <==> s < 60) &&
            (r.unit == Minutes <==> 60 <= s < 3600) &&
            (r.unit == Hours <==> 3600 <= s < 86400) &&
            (r.unit == Days <==> 86400 <= s < 2592000) &&
            (r.unit == Months <==> 2592000 <= s)
    ensures r.unit == Seconds ==> r.amount == elapsedMs / 1000
    ensures r.unit == Minutes ==> r.amount == elapsedMs / 60000
    ensures r.unit == Hours ==> r.amount == elapsedMs / 3600000
    ensures r.unit == Days ==> r.amount == elapsedMs / 86400000
    ensures r.unit == Months ==> r.amount == elapsedMs / 2592000000
    ensures r.unit != Seconds ==> r.amount >= 1
  {
    DivSteps(elapsedMs);
    var s := elapsedMs / 1000;
    var m := s / 60;
    var h := m / 60;
    var d := h / 24;
    if s < 60 then Ago(s, Seconds)
    else if m < 60 then Ago(m, Minutes)
    else if h < 24 then Ago(h, Hours)
    else if d < 30 then Ago(d, Days)
    else Ago(d / 30, Months)
  }

  function UnitWord(u: Unit): string {
    match u
    case Seconds => "second"
    case Minutes => "minute"
    case Hours => "hour"
    case Days => "day"
    case Months => "month"
  }

  /** The text shown: seconds are always plural, the other units take an
      "s" only for amounts above 1. */
  function AgoText(a: Ago): string {
    if a.unit == Seconds then Text.IntToString(a.amount) + " seconds ago"
    else Text.IntToString(a.amount) + " " + UnitWord(a.unit) + (if a.amount > 1 then "s" else "") + " ago"
  }

  /** Outside the seconds bucket the text ends in "s ago" exactly when the
      amount is above 1; seconds always do. */
  lemma PluralRule(a: Ago)
    ensures var t := AgoText(a);
            |t| >= 5 && (t[|t| - 5..] == "s ago" <==> a.unit == Seconds || a.amount > 1)
  {
    var t := AgoText(a);
    var n := Text.IntToString(a.amount);
    if a.unit == Seconds {
      assert t == n + " second" + "s ago";
    } else {
      var w := UnitWord(a.unit);
      if a.amount > 1 {
        assert t == n + " " + w + "s ago";
      } else {
        assert t == (n + " " + w[..|w| - 1]) + ([w[|w| - 1]] + " ago");
        assert t[|t| - 5] == w[|w| - 1];
      }
    }
  }

  /** The dropdown's `getNotificationLink`; a missing `clickAction`
      renders as "undefined". */
  function DropdownLink(kind: string, clickAction: Option<string>): (link: string)
    ensures kind == "order" || kind == "payment" ==> link == "/user/order/" + Render(clickAction)
    ensures kind == "product" ==> link == "/product/" + Render(clickAction)
    ensures kind !in {"order", "payment", "product"} ==> link == "#"
  {
    if kind == "order" || kind == "payment" then "/user/order/" + Render(clickAction)
    else if kind == "product" then "/product/" + Render(clickAction)
    else "#"
  }

  function Render(field: Option<string>): string {
    if field.Some? then field.value else "undefined"
  }

  /** The dropdown's count badge: the count itself, only when positive. */
  function DropdownBadge(unreadCount: int): (badge: Option<int>)
    ensures badge.Some? <==> unreadCount > 0
    ensures badge.Some? ==> badge.value == unreadCount
  {
    if unreadCount > 0 then Some(unreadCount) else None
  }

  /** The dropdown shows "Mark all as read" exactly when it shows a badge. */
  predicate DropdownShowsMarkAll(unreadCount: int) {
    unreadCount > 0
  }

  // ---------------------------------------------------------------------
  // Notifications page.

  /** The tab's view: the whole list under "all", the unread entries
      under "unread", and the read entries under any other tab. */
  function TabView(list: seq<NotificationReducer.Doc>, tab: string): (r: seq<NotificationReducer.Doc>)
    ensures tab == "all" ==> r == list
    ensures Seqs.IsSubsequence(r, list)
    ensures tab == "unread" ==> forall i :: 0 <= i < |r| ==> r[i].status == "unread"
    ensures tab != "all" && tab != "unread" ==> forall i :: 0 <= i < |r| ==> r[i].status == "read"
  {
    if tab == "all" then
      SubsequenceRefl(list);
      list
    else if tab == "unread" then
      var p := (d: NotificationReducer.Doc) => d.status == "unread";
      Seqs.FilterIsSubsequence(list, p);
      Seqs.Filter(list, p)
    else
      var p := (d: NotificationReducer.Doc) => d.status == "read";
      Seqs.FilterIsSubsequence(list, p);
      Seqs.Filter(list, p)
  }

  lemma {:induction false} SubsequenceRefl<T>(s: seq<T>)
    ensures Seqs.IsSubsequence(s, s)
  {
    if s != [] {
      SubsequenceRefl(s[1..]);
    }
  }

  /** The unread and read tabs split the list by status: an entry is in
      the unread view exactly when it is unread, in the read view exactly
      when it is read, so no entry is in both and an archived entry shows
      only under "all". */
  lemma TabsSplitByStatus(list: seq<NotificationReducer.Doc>, d: NotificationReducer.Doc, other: string)
    requires other != "all" && other != "unread"
    ensures d in TabView(list, "unread") <==> d in list && d.status == "unread"
    ensures d in TabView(list, other) <==> d in list && d.status == "read"
    ensures !(d in TabView(list, "unread") && d in TabView(list, other))
  {
    Seqs.FilterMembership(list, (x: NotificationReducer.Doc) => x.status == "unread", d);
    Seqs.FilterMembership(list, (x: NotificationReducer.Doc) => x.status == "read", d);
  }

  /** The page's `getNotificationLink`, which reads `orderId` and
      `productId` rather than `clickAction`. */
  function PageLink(kind: string, orderId: Option<string>, productId: Option<string>): (link: string)
    ensures kind == "order" ==> link == "/user/order/" + Render(orderId)
    ensures kind == "product" ==> link == "/product/" + Render(productId)
    ensures kind != "order" && kind != "product" ==> link == "#"
  {
    if kind == "order" then "/user/order/" + Render(orderId)
    else if kind == "product" then "/product/" + Render(productId)
    else "#"
  }

  /** The two link rules differ: a payment notification links to its order
      from the dropdown but nowhere from the page, and the two agree on an
      order notification only when its `orderId` equals its `clickAction`. */
  lemma LinkRulesDiffer(clickAction: Option<string>, orderId: Option<string>, productId: Option<string>)
    ensures DropdownLink("payment", clickAction) != "#" && PageLink("payment", orderId, productId) == "#"
    ensures DropdownLink("order", clickAction) == PageLink("order", orderId, productId) <==>
            Render(clickAction) == Render(orderId)
  {
    var a := "/user/order/";
    if DropdownLink("order", clickAction) == PageLink("order", orderId, productId) {
      assert Render(clickAction) == (a + Render(clickAction))[|a|..];
      assert Render(orderId) == (a + Render(orderId))[|a|..];
    }
    assert DropdownLink("payment", clickAction)[0] == '/';
  }

  // ---------------------------------------------------------------------
  // Bells: `formatTime` and the badge.

  datatype Relative = JustNow | MinutesAgo(minutes: int) | HoursAgo(hours: int) | Dated

  /** The bells' `formatTime` on whole elapsed minutes; a day or more is
      left to date formatting. */
  function FormatTime(elapsedMs: int): (r: Relative)
    ensures r == JustNow <==> elapsedMs / 60000 < 1
    ensures r.MinutesAgo? <==> 1 <= elapsedMs / 60000 < 60
    ensures r.HoursAgo? <==> 60 <= elapsedMs / 60000 < 1440
    ensures r == Dated <==> 1440 <= elapsedMs / 60000
    ensures r.MinutesAgo? ==> r.minutes == elapsedMs / 60000
    ensures r.HoursAgo? ==> 1 <= r.hours < 24 && r.hours == elapsedMs / 3600000
  {
    DivSteps(elapsedMs);
    var m := elapsedMs / 60000;
    if m < 1 then JustNow
    else if m < 60 then MinutesAgo(m)
    else if m < 24 * 60 then HoursAgo(m / 60)
    else Dated
  }

  /** The text, when it is not a date. */
  function RelativeText(r: Relative): Option<string> {
    match r
    case JustNow => Some("Just now")
    case MinutesAgo(n) => Some(Text.IntToString(n) + " min ago")
    case HoursAgo(h) => Some(Text.IntToString(h) + " hours ago")
    case Dated => None
  }

  /** Within the hour and the day the bells and the dropdown pick the same
      amount: the bells' minutes are the dropdown's minute bucket and the
      bells' hours its hour bucket. */
  lemma BellAgreesWithDropdown(elapsedMs: int)
    ensures FormatTime(elapsedMs).MinutesAgo? <==> FormatTimeAgo(elapsedMs).unit == Minutes
    ensures FormatTime(elapsedMs).HoursAgo? <==> FormatTimeAgo(elapsedMs).unit == Hours
    ensures FormatTime(elapsedMs).MinutesAgo? ==> FormatTime(elapsedMs).minutes == FormatTimeAgo(elapsedMs).amount
    ensures FormatTime(elapsedMs).HoursAgo? ==> FormatTime(elapsedMs).hours == FormatTimeAgo(elapsedMs).amount
  {
    DivSteps(elapsedMs);
  }

  /** The bells' badge: hidden at zero, "9+" above nine, else the count. */
  function BadgeLabel(unreadCount: int): (shown: Option<string>)
    ensures shown.None? <==> unreadCount <= 0
    ensures unreadCount > 9 ==> shown == Some("9+")
    ensures 0 < unreadCount <= 9 ==> shown == Some(Text.NatToString(unreadCount)) && |shown.value| == 1
  {
    if unreadCount <= 0 then None
    else if unreadCount > 9 then Some("9+")
    else
      Text.OneDigitIffSmall(unreadCount);
      Some(Text.NatToString(unreadCount))
  }

  /** A bell: the open flag, and whether it renders at all. The user bell
      takes its `isBuyer` flag from the user type at first render and never
      updates it; the shop bell always renders. */
  class Bell {
    var isOpen: bool
    const shown: bool

    constructor ForShop()
      ensures shown && !isOpen
    {
      isOpen := false;
      shown := true;
    }

    constructor ForUser(userType: Option<CappedContext.Audience>)
      ensures shown == (userType == Some(CappedContext.Buyer)) && !isOpen
    {
      isOpen := false;
      shown := userType == Some(CappedContext.Buyer);
    }

    /** A click on the bell flips `isOpen`; opening with unread entries
        marks them all read, closing never does. */
    method Toggle(p: CappedContext.NotificationProvider)
      requires p.Valid()
      modifies this`isOpen, p`notifications, p`unreadCount
      ensures p.Valid()
      ensures isOpen == !old(isOpen)
      ensures !old(isOpen) && old(p.unreadCount) > 0 ==>
                p.notifications == CappedContext.AllRead(old(p.notifications)) && p.unreadCount == 0
      ensures !(!old(isOpen) && old(p.unreadCount) > 0) ==>
                p.notifications == old(p.notifications) && p.unreadCount == old(p.unreadCount)
    {
      var wasOpen := isOpen;
      isOpen := !isOpen;
      if !wasOpen && p.unreadCount > 0 {
        p.MarkAllAsRead();
      }
    }

    /** A `mousedown` anywhere on the page. One outside a rendered bell
        closes the panel and marks nothing; one inside, or any while the
        bell renders nothing (its ref is empty), changes nothing. */
    method MouseDown(inside: bool)
      modifies this`isOpen
      ensures shown && !inside ==> !isOpen
      ensures !shown || inside ==> isOpen == old(isOpen)
    {
      if shown && !inside {
        isOpen := false;
      }
    }

    /** A click on an entry: only a linked entry has a click handler, and it
        marks that entry's id read. */
    method OpenEntry(p: CappedContext.NotificationProvider, t: CappedContext.Toast)
      requires p.Valid()
      modifies p`notifications, p`unreadCount
      ensures p.Valid()
      ensures t.link.Some? ==> p.notifications == CappedContext.MarkId(old(p.notifications), t.id) &&
                               p.unreadCount == Max(0, old(p.unreadCount) - 1)
      ensures t.link.None? ==> p.notifications == old(p.notifications) && p.unreadCount == old(p.unreadCount)
    {
      if t.link.Some? {
        p.MarkAsRead(t.id);
      }
    }
  }

  // ---------------------------------------------------------------------
  // Buyer toast.

  /** `notifications.filter(n => !n.read)[0]`. */
  function FirstUnread(list: seq<CappedContext.Toast>): (r: Option<CappedContext.Toast>)
    ensures r.None? <==> forall i :: 0 <= i < |list| ==> list[i].read
    ensures r.Some? ==> exists k :: 0 <= k < |list| && list[k] == r.value && !r.value.read &&
                                    forall j :: 0 <= j < k ==> list[j].read
  {
    var k := Seqs.FindIndex(list, (t: CappedContext.Toast) => !t.read);
    if k < 0 then None else Some(list[k])
  }

  /** Once an entry's id is marked read, the toast cannot pick any entry
      with that id again. */
  lemma MarkedIdNotPickedAgain(list: seq<CappedContext.Toast>, id: int)
    ensures var r := FirstUnread(CappedContext.MarkId(list, id)); r.None? || r.value.id != id
  {
  }

  /** Marking an unread toast twice: the first mark keeps an exact count
      exact, the second finds nothing unread with that id but still
      decrements, so the count no longer covers the unread toasts. */
  lemma SecondMarkBreaksCount(list: seq<CappedContext.Toast>, i: nat, count: nat)
    requires i < |list| && !list[i].read
    requires CappedContext.IdsUnique(list) && CappedContext.Synced(list, count) && count >= 2
    ensures var once := CappedContext.MarkId(list, list[i].id);
            CappedContext.Synced(once, count - 1) &&
            !CappedContext.Covers(CappedContext.MarkId(once, list[i].id), count - 2)
  {
    var id := list[i].id;
    CappedContext.MarkAsReadDrift(list, id, count);
    var once := CappedContext.MarkId(list, id);
    assert forall j :: 0 <= j < |once| && once[j].id == id ==> once[j].read;
    CappedContext.MarkAsReadDrift(once, id, count - 1);
  }

  class UserToast {
    var visible: Option<CappedContext.Toast>
    var isExiting: bool
    var shouldRender: bool
    /** The exit timers started and not yet fired, oldest first, each with
        the toast its callback captured when the close button was
        pressed. */
    var timers: seq<Option<CappedContext.Toast>>

    constructor ()
      ensures visible.None? && !isExiting && !shouldRender && timers == []
    {
      visible := None;
      isExiting := false;
      shouldRender := false;
      timers := [];
    }

    /** Renders only for a buyer with a visible entry. */
    predicate Renders()
      reads this
    {
      shouldRender && visible.Some?
    }

    method SyncUserType(userType: Option<CappedContext.Audience>)
      modifies this`shouldRender
      ensures shouldRender == (userType == Some(CappedContext.Buyer))
    {
      shouldRender := userType == Some(CappedContext.Buyer);
    }

    /** The selection effect: with nothing visible, the first unread entry
        becomes visible; a visible entry is never replaced. */
    method Refresh(p: CappedContext.NotificationProvider)
      modifies this`visible
      ensures old(visible).Some? || !shouldRender ==> visible == old(visible)
      ensures old(visible).None? && shouldRender ==> visible == FirstUnread(p.notifications)
    {
      if shouldRender && |p.notifications| > 0 {
        var first := FirstUnread(p.notifications);
        if first.Some? && visible.None? {
          visible := first;
        }
      }
    }

    /** The close button: the exit animation starts and a 300 ms timer
        is set whose callback captured the toast shown now. */
    method BeginDismiss()
      modifies this`isExiting, this`timers
      ensures isExiting && timers == old(timers) + [visible]
    {
      isExiting := true;
      timers := timers + [visible];
    }

    /** The oldest exit timer fires: it marks the toast it captured, even
        when that toast was already marked by a click or is no longer
        shown, then clears whatever toast is shown now and ends the exit.
        With no timer pending nothing happens. */
    method FinishDismiss(p: CappedContext.NotificationProvider)
      requires p.Valid()
      modifies this`visible, this`isExiting, this`timers, p`notifications, p`unreadCount
      ensures p.Valid()
      ensures old(timers) == [] ==>
                visible == old(visible) && isExiting == old(isExiting) && timers == old(timers) &&
                p.notifications == old(p.notifications) && p.unreadCount == old(p.unreadCount)
      ensures old(timers) != [] ==> visible.None? && !isExiting && timers == old(timers)[1..]
      ensures old(timers) != [] && old(timers)[0].Some? ==>
                p.notifications == CappedContext.MarkId(old(p.notifications), old(timers)[0].value.id) &&
                p.unreadCount == Max(0, old(p.unreadCount) - 1)
      ensures old(timers) != [] && old(timers)[0].None? ==>
                p.notifications == old(p.notifications) && p.unreadCount == old(p.unreadCount)
    {
      if timers != [] {
        var captured := timers[0];
        timers := timers[1..];
        if captured.Some? {
          p.MarkAsRead(captured.value.id);
        }
        visible := None;
        isExiting := false;
      }
    }

    /** A click on the linked toast marks it read and clears the slot at
        once. */
    method Click(p: CappedContext.NotificationProvider)
      requires p.Valid()
      modifies this`visible, p`notifications, p`unreadCount
      ensures p.Valid()
      ensures visible.None?
      ensures old(visible).Some? ==>
                p.notifications == CappedContext.MarkId(old(p.notifications), old(visible).value.id) &&
                p.unreadCount == Max(0, old(p.unreadCount) - 1)
      ensures old(visible).None? ==> p.notifications == old(p.notifications) && p.unreadCount == old(p.unreadCount)
    {
      if visible.Some? {
        p.MarkAsRead(visible.value.id);
        visible := None;
      }
    }
  }
}
