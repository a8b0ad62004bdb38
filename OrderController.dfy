/** The order routes of backend/controller/order.js over an order store:
    `/create-order` (validation, product check, one order per shop and
    two notifications per order), `/update-order-status/:id`,
    `/order-refund/:id` and `/order-refund-success/:id` with its restock.
    The Order, Product and Notification collections become fields of class
    `OrderStore`; a handler's result is its HTTP status. Notifications are
    kept as the drafts that the notification schema accepted. Every
    `findById` casts its text first and looks up the cast text, so the
    case of an id's digits does not matter. */
module OrderController {
  import opened Basics
  import Seqs
  import opened ObjectIds
  import opened OrderGrouping
  import opened NotificationSchema

  datatype Buyer = Buyer(id: string, name: string)

  /** `req.body.cart`: absent, present but not an array, or an array. */
  datatype CartField = CartMissing | CartNotArray | CartItems(items: seq<CartItem>)

  /** The request body; `None` stands for a missing field. Addresses
      and payment information are carried as opaque text, and the empty
      text is the one falsy value they can take. */
  datatype OrderRequest = OrderRequest(cart: CartField, shippingAddress: Option<string>, user: Option<Buyer>,
                                       totalPrice: Option<int>, subTotalPrice: Option<int>, shipping: Option<int>,
                                       paymentInfo: Option<string>)

  datatype Order = Order(id: nat, cart: seq<CartItem>, shippingAddress: string, user: Buyer,
                         totalPrice: Option<int>, subTotalPrice: int, shipping: int, paymentInfo: string,
                         status: string)

  datatype Product = Product(stock: int, soldOut: int)

  /** The status every new order starts with. */
  const InitialStatus: string := "Processing"

  /** The required-field check. `shippingAddress` and `paymentInfo` must
      be truthy, `subTotalPrice` and `shipping` only defined. The
      `totalPrice` clause of the source compares a boolean with
      `undefined` and never rejects, so it does not appear here. */
  predicate RequestComplete(r: OrderRequest) {
    r.cart.CartItems? && |r.cart.items| > 0 && Truthy(r.shippingAddress) && r.user.Some? &&
    r.subTotalPrice.Some? && r.shipping.Some? && Truthy(r.paymentInfo)
  }

  /** A text field that JavaScript's `!` does not reject. */
  predicate Truthy(t: Option<string>) {
    t.Some? && t.value != ""
  }

  /** A request is judged the same whatever its `totalPrice`. */
  lemma TotalPriceNeverChecked(r: OrderRequest, t: Option<int>)
    ensures RequestComplete(r) <==> RequestComplete(r.(totalPrice := t))
    ensures r.cart.CartItems? && r.cart.items == [] ==> !RequestComplete(r)
    ensures r.shippingAddress == Some("") || r.paymentInfo == Some("") ==> !RequestComplete(r)
  {
  }

  /** The product check: the first item whose id cannot be cast decides
      500, the first whose product does not exist decides 400. */
  function ProductCheck(items: seq<CartItem>, products: map<string, Product>): (r: Option<int>)
    ensures r.None? <==> forall i :: 0 <= i < |items| ==> IsObjectId(items[i].productId) && Cast(items[i].productId).value in products
    ensures r.Some? ==> r.value in {400, 500}
    ensures r == Some(500) ==> exists i :: 0 <= i < |items| && !IsObjectId(items[i].productId)
    ensures r == Some(400) ==> exists i :: 0 <= i < |items| && IsObjectId(items[i].productId) && Cast(items[i].productId).value !in products
  {
    if items == [] then None
    else if !IsObjectId(items[0].productId) then Some(500)
    else if Cast(items[0].productId).value !in products then Some(400)
    else
      var rest := ProductCheck(items[1..], products);
      assert forall i :: 1 <= i < |items| ==> items[i] == items[1..][i - 1];
      rest
  }

  /** The product-check loop, one lookup per item. */
  method CheckProducts(items: seq<CartItem>, products: map<string, Product>) returns (failure: Option<int>)
    ensures failure == ProductCheck(items, products)
  {
    var i := 0;
    while i < |items|
      invariant 0 <= i <= |items|
      invariant ProductCheck(items, products) == ProductCheck(items[i..], products)
    {
      if !IsObjectId(items[i].productId) {
        return Some(500);
      }
      if Cast(items[i].productId).value !in products {
        return Some(400);
      }
      assert items[i..][1..] == items[i + 1..];
      i := i + 1;
    }
    return None;
  }

  /** The order created for one shop: that shop's items and the request's
      other fields, copied unchanged. */
  function MakeOrder(id: nat, items: seq<CartItem>, r: OrderRequest): (o: Order)
    requires RequestComplete(r)
    ensures o.id == id && o.cart == items && o.status == InitialStatus
    ensures o.totalPrice == r.totalPrice && Some(o.subTotalPrice) == r.subTotalPrice && Some(o.shipping) == r.shipping
    ensures Some(o.shippingAddress) == r.shippingAddress && Some(o.user) == r.user && Some(o.paymentInfo) == r.paymentInfo
  {
    Order.Order(id, items, r.shippingAddress.value, r.user.value, r.totalPrice, r.subTotalPrice.value, r.shipping.value,
          r.paymentInfo.value, InitialStatus)
  }

  /** The notification for the shop. */
  function SellerDraft(orderId: nat, shopId: string, buyer: Buyer): (d: Draft)
    ensures d.userId == shopId && d.shopId == Some(shopId) && d.kind == "order"
    ensures d.clickAction == Some("/dashboard-orders/" + IdText(orderId))
  {
    Draft("New Order Received", "You have a new order from " + buyer.name, shopId, "order", None, None,
          Some(shopId), Some("/dashboard-orders/" + IdText(orderId)))
  }

  /** The notification for the buyer. */
  function BuyerDraft(orderId: nat, shopId: string, buyer: Buyer): (d: Draft)
    ensures d.userId == buyer.id && d.shopId == Some(shopId) && d.kind == "order"
    ensures d.clickAction == Some("/order/" + IdText(orderId))
  {
    Draft("Order Placed", "Your order has been placed successfully", buyer.id, "order", None, None,
          Some(shopId), Some("/order/" + IdText(orderId)))
  }

  /** The schema accepts the two drafts exactly when their user ids are
      present. */
  lemma DraftsAcceptedIffIdsPresent(orderId: nat, shopId: string, buyer: Buyer, now: int)
    ensures Build(SellerDraft(orderId, shopId, buyer), now).Ok? <==> shopId != ""
    ensures Build(BuyerDraft(orderId, shopId, buyer), now).Ok? <==> buyer.id != ""
  {
    var m := "You have a new order from " + buyer.name;
    assert m[0] == 'Y';
  }

  /** The orders created for the groups, numbered from `base`. */
  function OrdersFor(gs: seq<Group>, r: OrderRequest, base: nat): (os: seq<Order>)
    requires RequestComplete(r)
    ensures |os| == |gs|
    decreases |gs|
  {
    if gs == [] then [] else OrdersFor(gs[..|gs| - 1], r, base) + [MakeOrder(base + |gs| - 1, gs[|gs| - 1].1, r)]
  }

  /** The i-th created order is numbered `base + i` and holds the i-th
      shop's items. */
  lemma {:induction false} OrdersForAt(gs: seq<Group>, r: OrderRequest, base: nat)
    requires RequestComplete(r)
    ensures forall i :: 0 <= i < |gs| ==> OrdersFor(gs, r, base)[i] == MakeOrder(base + i, gs[i].1, r)
    decreases |gs|
  {
    if gs != [] {
      var n := |gs| - 1;
      OrdersForAt(gs[..n], r, base);
      assert forall i :: 0 <= i < n ==> gs[..n][i] == gs[i];
    }
  }

  /** The notifications created for the groups: for each order, the
      shop's and then the buyer's. */
  function NotesFor(gs: seq<Group>, buyer: Buyer, base: nat): (ns: seq<Draft>)
    ensures |ns| == 2 * |gs|
    decreases |gs|
  {
    if gs == [] then []
    else
      var n := |gs| - 1;
      NotesFor(gs[..n], buyer, base) + [SellerDraft(base + n, gs[n].0, buyer), BuyerDraft(base + n, gs[n].0, buyer)]
  }

  /** One loop step of the creation loop, on the orders: appending the
      next shop's order extends the prefix of created orders. */
  lemma OrdersStep(prev: seq<Order>, next: seq<Order>, start: seq<Order>, gs: seq<Group>, g: nat,
                   r: OrderRequest, base: nat)
    requires RequestComplete(r) && g < |gs| && |prev| == base + g
    requires prev == start + OrdersFor(gs[..g], r, base)
    requires next == prev + [MakeOrder(|prev|, gs[g].1, r)]
    ensures next == start + OrdersFor(gs[..g + 1], r, base)
    ensures next[..|start|] == start
  {
    OrdersForSnoc(gs, g, r, base);
  }

  /** The same step on the notifications. */
  lemma NotesStep(prev: seq<Draft>, next: seq<Draft>, start: seq<Draft>, gs: seq<Group>, g: nat,
                  buyer: Buyer, base: nat, id: nat)
    requires g < |gs| && id == base + g
    requires prev == start + NotesFor(gs[..g], buyer, base)
    requires next == prev + [SellerDraft(id, gs[g].0, buyer), BuyerDraft(id, gs[g].0, buyer)]
    ensures next == start + NotesFor(gs[..g + 1], buyer, base)
  {
    NotesForSnoc(gs, g, buyer, base);
  }

  /** Acceptance of the first `g + 1` groups, from the first `g`. */
  lemma AcceptedSnoc(gs: seq<Group>, g: nat, buyer: Buyer)
    requires g < |gs| && gs[g].0 != "" && buyer.id != ""
    requires g > 0 ==> NotesAccepted(gs[..g], buyer)
    ensures NotesAccepted(gs[..g + 1], buyer)
  {
    var h := gs[..g + 1];
    forall i | 0 <= i < |h|
      ensures h[i].0 != ""
    {
      if i < g {
        assert gs[..g][i] == gs[i];
      }
    }
  }

  /** One group without a shop, or a buyer without an id, rejects the
      whole request. */
  lemma RejectedAt(gs: seq<Group>, g: nat, buyer: Buyer)
    requires g < |gs| && (gs[g].0 == "" || buyer.id == "")
    ensures !NotesAccepted(gs, buyer)
  {
  }

  /** The notifications come in pairs, one pair per order: first the
      shop's, then the buyer's. */
  lemma {:induction false} NotesForAt(gs: seq<Group>, buyer: Buyer, base: nat, i: nat)
    requires i < |gs|
    ensures NotesFor(gs, buyer, base)[2 * i] == SellerDraft(base + i, gs[i].0, buyer)
    ensures NotesFor(gs, buyer, base)[2 * i + 1] == BuyerDraft(base + i, gs[i].0, buyer)
    decreases |gs|
  {
    var n := |gs| - 1;
    var prefix := NotesFor(gs[..n], buyer, base);
    var seller, buyerNote := SellerDraft(base + n, gs[n].0, buyer), BuyerDraft(base + n, gs[n].0, buyer);
    assert NotesFor(gs, buyer, base) == prefix + [seller, buyerNote];
    PairAt(NotesFor(gs, buyer, base), prefix, seller, buyerNote, 2 * i);
    PairAt(NotesFor(gs, buyer, base), prefix, seller, buyerNote, 2 * i + 1);
    if i < n {
      NotesForAt(gs[..n], buyer, base, i);
      assert gs[..n][i] == gs[i];
    }
  }

  /** Indexing a sequence extended by a pair. */
  lemma PairAt<T>(ns: seq<T>, prefix: seq<T>, a: T, b: T, k: int)
    requires ns == prefix + [a, b] && 0 <= k < |ns|
    ensures ns[k] == if k < |prefix| then prefix[k] else if k == |prefix| then a else b
  {
  }

  /** One more group adds its order at the end. */
  lemma OrdersForSnoc(gs: seq<Group>, g: nat, r: OrderRequest, base: nat)
    requires RequestComplete(r) && g < |gs|
    ensures OrdersFor(gs[..g + 1], r, base) == OrdersFor(gs[..g], r, base) + [MakeOrder(base + g, gs[g].1, r)]
  {
    assert gs[..g + 1][..g] == gs[..g];
  }

  /** One more group adds its two notifications at the end. */
  lemma NotesForSnoc(gs: seq<Group>, g: nat, buyer: Buyer, base: nat)
    requires g < |gs|
    ensures NotesFor(gs[..g + 1], buyer, base) ==
            NotesFor(gs[..g], buyer, base) + [SellerDraft(base + g, gs[g].0, buyer), BuyerDraft(base + g, gs[g].0, buyer)]
  {
    assert gs[..g + 1][..g] == gs[..g];
  }

  /** Every shop group holds at least one item. */
  lemma GroupsNonEmpty(cart: seq<CartItem>)
    ensures forall i :: 0 <= i < |Groups(cart)| ==> |Groups(cart)[i].1| > 0
  {
    GroupsPartitionCart(cart);
  }

  /** A non-empty cart has at least one shop group. */
  lemma GroupsNonEmptyCart(cart: seq<CartItem>)
    requires |cart| > 0
    ensures |Groups(cart)| > 0
  {
    GroupsPartitionCart(cart);
    assert ShopIndex(Groups(cart), cart[0].shopId) >= 0;
  }

  /** Every notification of the request passes the schema. */
  predicate NotesAccepted(gs: seq<Group>, buyer: Buyer) {
    buyer.id != "" && forall i :: 0 <= i < |gs| ==> gs[i].0 != ""
  }

  /** The first group whose shop's or buyer's notification the schema
      rejects, or `|gs|` when none is. */
  function FirstRejected(gs: seq<Group>, buyer: Buyer): (j: nat)
    ensures j <= |gs|
    ensures forall i :: 0 <= i < j ==> gs[i].0 != "" && buyer.id != ""
    ensures j < |gs| ==> gs[j].0 == "" || buyer.id == ""
    ensures |gs| > 0 ==> (j < |gs| <==> !NotesAccepted(gs, buyer))
    decreases |gs|
  {
    if gs == [] || gs[0].0 == "" || buyer.id == "" then 0
    else
      var j := 1 + FirstRejected(gs[1..], buyer);
      assert forall i :: 1 <= i < |gs| ==> gs[i] == gs[1..][i - 1];
      j
  }

  /** What a request stopped by group `j`'s notifications leaves in the
      notification collection: the pairs of the groups before it, then
      group `j`'s shop notification when only the buyer's failed. */
  function PartialNotes(gs: seq<Group>, buyer: Buyer, base: nat, j: nat): (ns: seq<Draft>)
    requires j < |gs|
    ensures |ns| == 2 * j + (if gs[j].0 != "" then 1 else 0)
    ensures ns[..2 * j] == NotesFor(gs[..j], buyer, base)
  {
    NotesFor(gs[..j], buyer, base) + (if gs[j].0 != "" then [SellerDraft(base + j, gs[j].0, buyer)] else [])
  }

  /** A successful request creates one order per shop of the cart, in the
      order the shops first appear: each holds exactly that shop's items
      and ids count up from `base`. */
  lemma OrdersHoldShopItems(r: OrderRequest, base: nat)
    requires RequestComplete(r)
    ensures var gs := Groups(r.cart.items);
            var os := OrdersFor(gs, r, base);
            |os| == |gs| &&
            forall i :: 0 <= i < |os| ==>
              os[i].id == base + i && os[i].cart == ItemsOf(r.cart.items, gs[i].0) && |os[i].cart| > 0 &&
              os[i].cart[0].shopId == gs[i].0 && os[i].status == InitialStatus
  {
    var gs := Groups(r.cart.items);
    var os := OrdersFor(gs, r, base);
    GroupsPartitionCart(r.cart.items);
    OrdersForAt(gs, r, base);
    forall i | 0 <= i < |os|
      ensures os[i].cart[0].shopId == gs[i].0
    {
      assert os[i].cart[0] in ItemsOf(r.cart.items, gs[i].0);
    }
  }

  /** No two created orders belong to the same shop, and every cart item
      lands in one of them. */
  lemma OrdersSplitCart(r: OrderRequest, base: nat)
    requires RequestComplete(r)
    ensures var gs := Groups(r.cart.items);
            (forall i, j :: 0 <= i < j < |gs| ==> gs[i].0 != gs[j].0) &&
            (forall j :: 0 <= j < |r.cart.items| ==>
               exists i :: 0 <= i < |gs| && r.cart.items[j] in OrdersFor(gs, r, base)[i].cart)
  {
    var cart := r.cart.items;
    var gs := Groups(cart);
    var os := OrdersFor(gs, r, base);
    assert ShopsDistinct(gs) by {
      GroupsPartitionCart(cart);
    }
    assert forall i, j :: 0 <= i < j < |gs| ==> gs[i].0 != gs[j].0;
    forall j | 0 <= j < |cart|
      ensures exists i :: 0 <= i < |gs| && cart[j] in os[i].cart
    {
      ItemInItsShopOrder(r, base, j);
      var i := ShopIndex(gs, cart[j].shopId);
      assert 0 <= i < |gs| && cart[j] in os[i].cart;
    }
    assert os == OrdersFor(Groups(r.cart.items), r, base);
    assert forall j :: 0 <= j < |r.cart.items| ==>
             exists i :: 0 <= i < |gs| && r.cart.items[j] in os[i].cart;
  }

  /** A cart item lands in the order of its own shop. */
  lemma ItemInItsShopOrder(r: OrderRequest, base: nat, j: int)
    requires RequestComplete(r) && 0 <= j < |r.cart.items|
    ensures var gs := Groups(r.cart.items);
            var i := ShopIndex(gs, r.cart.items[j].shopId);
            0 <= i < |gs| && r.cart.items[j] in OrdersFor(gs, r, base)[i].cart
  {
    var cart := r.cart.items;
    var gs := Groups(cart);
    GroupsPartitionCart(cart);
    var i := ShopIndex(gs, cart[j].shopId);
    assert 0 <= i < |gs| by {
      assert CoversCart(gs, cart);
    }
    assert gs[i].1 == ItemsOf(cart, cart[j].shopId) by {
      assert GroupsExact(gs, cart);
    }
    OrdersForAt(gs, r, base);
    assert OrdersFor(gs, r, base)[i] == MakeOrder(base + i, gs[i].1, r);
  }

  /** The schema accepts every notification of a request exactly when
      `NotesAccepted` holds (for a request with at least one shop). */
  lemma NotesAcceptedMeansAllBuild(gs: seq<Group>, buyer: Buyer, base: nat, now: int)
    requires |gs| > 0
    ensures NotesAccepted(gs, buyer) <==>
            forall k :: 0 <= k < |NotesFor(gs, buyer, base)| ==> Build(NotesFor(gs, buyer, base)[k], now).Ok?
  {
    if NotesAccepted(gs, buyer) {
      AcceptedNotesAllBuild(gs, buyer, base, now);
    } else {
      RejectedNoteFailsBuild(gs, buyer, base, now);
    }
  }

  lemma AcceptedNotesAllBuild(gs: seq<Group>, buyer: Buyer, base: nat, now: int)
    requires |gs| > 0 && NotesAccepted(gs, buyer)
    ensures forall k :: 0 <= k < |NotesFor(gs, buyer, base)| ==> Build(NotesFor(gs, buyer, base)[k], now).Ok?
  {
    var ns := NotesFor(gs, buyer, base);
    forall k | 0 <= k < |ns|
      ensures Build(ns[k], now).Ok?
    {
      var i := k / 2;
      NotesForAt(gs, buyer, base, i);
      DraftsAcceptedIffIdsPresent(base + i, gs[i].0, buyer, now);
    }
  }

  lemma RejectedNoteFailsBuild(gs: seq<Group>, buyer: Buyer, base: nat, now: int)
    requires |gs| > 0 && !NotesAccepted(gs, buyer)
    ensures exists k :: 0 <= k < |NotesFor(gs, buyer, base)| && !Build(NotesFor(gs, buyer, base)[k], now).Ok?
  {
    var ns := NotesFor(gs, buyer, base);
    if buyer.id != "" {
      var i :| 0 <= i < |gs| && gs[i].0 == "";
      ShopNoteFails(gs, buyer, base, now, i);
      assert 0 <= 2 * i < |ns| && !Build(ns[2 * i], now).Ok?;
    } else {
      BuyerNoteFails(gs, buyer, base, now);
      assert 0 <= 1 < |ns| && !Build(ns[1], now).Ok?;
    }
  }

  /** A shop without an id fails its own notification. */
  lemma ShopNoteFails(gs: seq<Group>, buyer: Buyer, base: nat, now: int, i: nat)
    requires i < |gs| && gs[i].0 == ""
    ensures !Build(NotesFor(gs, buyer, base)[2 * i], now).Ok?
  {
    NotesForAt(gs, buyer, base, i);
    DraftsAcceptedIffIdsPresent(base + i, gs[i].0, buyer, now);
  }

  /** A buyer without an id fails the first buyer notification. */
  lemma BuyerNoteFails(gs: seq<Group>, buyer: Buyer, base: nat, now: int)
    requires |gs| > 0 && buyer.id == ""
    ensures !Build(NotesFor(gs, buyer, base)[1], now).Ok?
  {
    NotesForAt(gs, buyer, base, 0);
    DraftsAcceptedIffIdsPresent(base, gs[0].0, buyer, now);
  }

  /** `Product.findById(id)` then `stock += qty; sold_out -= qty`, for each
      cart item in turn; a missing product is skipped. */
  ghost function Restocked(ps: map<string, Product>, items: seq<CartItem>): (r: map<string, Product>)
    ensures r.Keys == ps.Keys
    decreases |items|
  {
    if items == [] then ps
    else
      var before := Restocked(ps, items[..|items| - 1]);
      var it := items[|items| - 1];
      var key := Cast(it.itemId);
      if key.Some? && key.value in before then
        before[key.value := Product.Product(before[key.value].stock + it.qty, before[key.value].soldOut - it.qty)]
      else before
  }

  /** The quantity the items return to one product. */
  function QtyFor(items: seq<CartItem>, productId: string): (q: int)
    ensures (forall i :: 0 <= i < |items| ==> Cast(items[i].itemId) != Some(productId)) ==> q == 0
    ensures (forall i :: 0 <= i < |items| ==> items[i].qty >= 0) ==> q >= 0
    decreases |items|
  {
    if items == [] then 0
    else QtyFor(items[..|items| - 1], productId) + (if Cast(items[|items| - 1].itemId) == Some(productId) then items[|items| - 1].qty else 0)
  }

  /** Restocking creates no product, and for every product it adds the
      returned quantity to the stock and takes it off `sold_out`, so
      `stock + sold_out` is unchanged. */
  lemma {:induction false} RestockKeepsTotals(ps: map<string, Product>, items: seq<CartItem>)
    ensures Restocked(ps, items).Keys == ps.Keys
    ensures forall p :: p in ps ==>
              Restocked(ps, items)[p].stock == ps[p].stock + QtyFor(items, p) &&
              Restocked(ps, items)[p].soldOut == ps[p].soldOut - QtyFor(items, p) &&
              Restocked(ps, items)[p].stock + Restocked(ps, items)[p].soldOut == ps[p].stock + ps[p].soldOut
    decreases |items|
  {
    if items != [] {
      RestockKeepsTotals(ps, items[..|items| - 1]);
    }
  }

  /** Position of the order whose id has the text `key`, or -1:
      `findById` once the route's text has been cast to `key`. */
  function IndexOfOrder(orders: seq<Order>, key: string): (k: int)
    ensures -1 <= k < |orders|
    ensures k >= 0 ==> IdText(orders[k].id) == key
    ensures k == -1 ==> forall j :: 0 <= j < |orders| ==> IdText(orders[j].id) != key
  {
    Seqs.FindIndex(orders, (o: Order) => IdText(o.id) == key)
  }

  /** In a store whose ids are the positions, any route text that casts
      to the `i`-th order's id, in either case, finds that order. */
  lemma FindsOrderById(orders: seq<Order>, i: nat, id: string)
    requires i < |orders| <= Pow16(24)
    requires forall j :: 0 <= j < |orders| ==> orders[j].id == j
    requires Cast(id) == Some(IdText(i))
    ensures IndexOfOrder(orders, Cast(id).value) == i
  {
    var key := Cast(id).value;
    var k := IndexOfOrder(orders, key);
    assert k != -1 by { assert IdText(orders[i].id) == key; }
    assert IdText(k) == key;
    IdTextInjective(k, i);
  }

  /** The buyer's notification after a status change. */
  function StatusDraft(o: Order, status: string): (d: Draft)
    requires |o.cart| > 0
    ensures d.userId == o.user.id && d.kind == "order_update" && d.shopId == Some(o.cart[0].shopId)
    ensures d.clickAction == Some("/order/" + IdText(o.id))
  {
    Draft("Order Status Updated", "Your order status has been updated to " + status, o.user.id, "order_update",
          None, None, Some(o.cart[0].shopId), Some("/order/" + IdText(o.id)))
  }

  class OrderStore {
    var orders: seq<Order>
    var products: map<string, Product>
    var notes: seq<Draft>

    /** Orders are never removed, so an order's id is its position in
        the store (which makes ids unique); every stored order has at
        least one cart item, whose shop the status notification names. */
    ghost predicate Valid()
      reads this
    {
      forall i :: 0 <= i < |orders| ==> orders[i].id == i && |orders[i].cart| > 0
    }

    constructor (catalogue: map<string, Product>)
      ensures Valid() && orders == [] && products == catalogue && notes == []
    {
      orders := [];
      products := catalogue;
      notes := [];
    }

    /** One round of the creation loop: the order for one shop's items,
        then the shop's and the buyer's notifications, stopping at the
        first one the schema rejects. */
    method PlaceOrder(group: Group, r: OrderRequest, now: int) returns (ok: bool)
      requires Valid() && RequestComplete(r) && |group.1| > 0
      modifies this`orders, this`notes
      ensures Valid()
      ensures orders == old(orders) + [MakeOrder(|old(orders)|, group.1, r)]
      ensures ok <==> group.0 != "" && r.user.value.id != ""
      ensures ok ==> notes == old(notes) + [SellerDraft(|old(orders)|, group.0, r.user.value),
                                            BuyerDraft(|old(orders)|, group.0, r.user.value)]
      ensures !ok ==> notes == old(notes) + if group.0 != "" then [SellerDraft(|old(orders)|, group.0, r.user.value)] else []
    {
      var order := MakeOrder(|orders|, group.1, r);
      orders := orders + [order];
      var buyer := r.user.value;
      var sellerNote := SellerDraft(order.id, group.0, buyer);
      var buyerNote := BuyerDraft(order.id, group.0, buyer);
      DraftsAcceptedIffIdsPresent(order.id, group.0, buyer, now);
      if Build(sellerNote, now).Err? {
        return false;
      }
      notes := notes + [sellerNote];
      if Build(buyerNote, now).Err? {
        return false;
      }
      notes := notes + [buyerNote];
      ok := true;
    }

    /** The loop body for the `g`-th group, stated against the orders and
        notifications the first `g` groups produced. */
    method PlaceGroup(groups: seq<Group>, g: nat, r: OrderRequest, now: int,
                      ghost base: nat, ghost startOrders: seq<Order>, ghost startNotes: seq<Draft>)
      returns (placed: bool)
      requires Valid() && RequestComplete(r) && g < |groups| && |groups[g].1| > 0
      requires orders == startOrders + OrdersFor(groups[..g], r, base) && |orders| == base + g
      requires notes == startNotes + NotesFor(groups[..g], r.user.value, base)
      requires g > 0 ==> NotesAccepted(groups[..g], r.user.value)
      modifies this`orders, this`notes
      ensures Valid()
      ensures orders == startOrders + OrdersFor(groups[..g + 1], r, base) && orders[..|startOrders|] == startOrders
      ensures placed ==> notes == startNotes + NotesFor(groups[..g + 1], r.user.value, base) &&
                         NotesAccepted(groups[..g + 1], r.user.value)
      ensures !placed ==> !NotesAccepted(groups, r.user.value) && g == FirstRejected(groups, r.user.value) &&
                          notes == startNotes + PartialNotes(groups, r.user.value, base, g)
    {
      var buyer := r.user.value;
      ghost var prevOrders, prevNotes := orders, notes;
      placed := PlaceOrder(groups[g], r, now);
      OrdersStep(prevOrders, orders, startOrders, groups, g, r, base);
      if placed {
        NotesStep(prevNotes, notes, startNotes, groups, g, buyer, base, |prevOrders|);
        AcceptedSnoc(groups, g, buyer);
      } else {
        RejectedAt(groups, g, buyer);
        forall i | 0 <= i < g ensures groups[i].0 != "" && buyer.id != "" {
          assert groups[..g][i] == groups[i];
        }
      }
    }

    /** The creation loop over the shop groups, stopping with a 500 at the
        first notification the schema rejects (the orders created so far
        stay). */
    method PlaceOrders(groups: seq<Group>, r: OrderRequest, now: int) returns (ok: bool)
      requires Valid() && RequestComplete(r) && |groups| > 0
      requires forall i :: 0 <= i < |groups| ==> |groups[i].1| > 0
      modifies this`orders, this`notes
      ensures Valid()
      ensures ok <==> NotesAccepted(groups, r.user.value)
      ensures ok ==> orders == old(orders) + OrdersFor(groups, r, |old(orders)|) &&
                     notes == old(notes) + NotesFor(groups, r.user.value, |old(orders)|)
      ensures !ok ==> var j := FirstRejected(groups, r.user.value);
                      j < |groups| && orders == old(orders) + OrdersFor(groups[..j + 1], r, |old(orders)|) &&
                      notes == old(notes) + PartialNotes(groups, r.user.value, |old(orders)|, j)
      ensures |old(orders)| <= |orders| && orders[..|old(orders)|] == old(orders)
    {
      ghost var base := |orders|;
      var g := 0;
      while g < |groups|
        invariant 0 <= g <= |groups|
        invariant orders == old(orders) + OrdersFor(groups[..g], r, base) && |orders| == base + g
        invariant notes == old(notes) + NotesFor(groups[..g], r.user.value, base)
        invariant g > 0 ==> NotesAccepted(groups[..g], r.user.value)
        invariant Valid()
      {
        var placed := PlaceGroup(groups, g, r, now, base, old(orders), old(notes));
        if !placed {
          return false;
        }
        g := g + 1;
      }
      assert groups[..|groups|] == groups;
      ok := true;
    }

    /** `/create-order` at time `now`. */
    method CreateOrder(r: OrderRequest, now: int) returns (code: int)
      requires Valid()
      modifies this`orders, this`notes
      ensures Valid()
      ensures !RequestComplete(r) ==> code == 400 && orders == old(orders) && notes == old(notes)
      ensures RequestComplete(r) && ProductCheck(r.cart.items, products).Some? ==>
                code == ProductCheck(r.cart.items, products).value && orders == old(orders) && notes == old(notes)
      ensures code == 201 <==> RequestComplete(r) && ProductCheck(r.cart.items, products).None? &&
                               NotesAccepted(Groups(r.cart.items), r.user.value)
      ensures code == 201 ==> orders == old(orders) + OrdersFor(Groups(r.cart.items), r, |old(orders)|) &&
                              notes == old(notes) + NotesFor(Groups(r.cart.items), r.user.value, |old(orders)|)
      ensures RequestComplete(r) && ProductCheck(r.cart.items, products).None? &&
              !NotesAccepted(Groups(r.cart.items), r.user.value) ==>
                var gs := Groups(r.cart.items);
                var j := FirstRejected(gs, r.user.value);
                code == 500 && j < |gs| && orders == old(orders) + OrdersFor(gs[..j + 1], r, |old(orders)|) &&
                notes == old(notes) + PartialNotes(gs, r.user.value, |old(orders)|, j)
      ensures code in {201, 400, 500}
      ensures |old(orders)| <= |orders| && orders[..|old(orders)|] == old(orders)
    {
      if !(r.cart.CartItems? && |r.cart.items| > 0 && Truthy(r.shippingAddress) && r.user.Some? &&
           r.subTotalPrice.Some? && r.shipping.Some? && Truthy(r.paymentInfo)) {
        return 400;
      }
      var items := r.cart.items;
      var failure := CheckProducts(items, products);
      if failure.Some? {
        return failure.value;
      }
      var groups := GroupByShop(items);
      GroupsNonEmpty(items);
      GroupsNonEmptyCart(items);
      var ok := PlaceOrders(groups, r, now);
      code := if ok then 201 else 500;
    }

    /** `/update-order-status/:id` at time `now`: 500 for an id that
        cannot be cast, 404 for an unknown order; otherwise the status is
        saved, and the buyer's notification follows (500 if the schema
        rejects it, the status staying saved). */
    method UpdateOrderStatus(id: string, status: string, now: int) returns (code: int)
      requires Valid()
      modifies this`orders, this`notes
      ensures Valid()
      ensures !IsObjectId(id) ==> code == 500 && orders == old(orders) && notes == old(notes)
      ensures IsObjectId(id) ==>
              var k := IndexOfOrder(old(orders), Cast(id).value);
              (k == -1 ==> code == 404 && orders == old(orders) && notes == old(notes)) &&
              (k >= 0 ==> orders == old(orders)[k := old(orders)[k].(status := status)] &&
                          var d := StatusDraft(old(orders)[k], status);
                          (Build(d, now).Ok? ==> code == 200 && notes == old(notes) + [d]) &&
                          (Build(d, now).Err? ==> code == 500 && notes == old(notes)))
    {
      var key := Cast(id);
      if key.None? {
        return 500;
      }
      var k := IndexOfOrder(orders, key.value);
      if k == -1 {
        return 404;
      }
      orders := orders[k := orders[k].(status := status)];
      var d := StatusDraft(orders[k], status);
      if Build(d, now).Err? {
        return 500;
      }
      notes := notes + [d];
      code := 200;
    }

    /** `/order-refund/:id`: 500 for an id that cannot be cast, 400 for
        an unknown order, otherwise the new status is saved as sent, with
        no transition check. */
    method RequestRefund(id: string, status: string) returns (code: int)
      requires Valid()
      modifies this`orders
      ensures Valid()
      ensures !IsObjectId(id) ==> code == 500 && orders == old(orders)
      ensures IsObjectId(id) ==>
              var k := IndexOfOrder(old(orders), Cast(id).value);
              (k == -1 ==> code == 400 && orders == old(orders)) &&
              (k >= 0 ==> code == 200 && orders == old(orders)[k := old(orders)[k].(status := status)])
    {
      var key := Cast(id);
      if key.None? {
        return 500;
      }
      var k := IndexOfOrder(orders, key.value);
      if k == -1 {
        return 400;
      }
      orders := orders[k := orders[k].(status := status)];
      code := 200;
    }

    /** `/order-refund-success/:id`: 500 for an id that cannot be cast,
        400 for an unknown order; otherwise the status is saved and, for
        "Refund Success", every cart item's quantity goes back to its
        product. */
    method RefundSuccess(id: string, status: string) returns (code: int)
      requires Valid()
      modifies this`orders, this`products
      ensures Valid()
      ensures !IsObjectId(id) ==> code == 500 && orders == old(orders) && products == old(products)
      ensures IsObjectId(id) ==>
              var k := IndexOfOrder(old(orders), Cast(id).value);
              (k == -1 ==> code == 400 && orders == old(orders) && products == old(products)) &&
              (k >= 0 ==> code == 200 && orders == old(orders)[k := old(orders)[k].(status := status)] &&
                          products == if status == "Refund Success" then Restocked(old(products), old(orders)[k].cart)
                                      else old(products))
    {
      var key := Cast(id);
      if key.None? {
        return 500;
      }
      var k := IndexOfOrder(orders, key.value);
      if k == -1 {
        return 400;
      }
      orders := orders[k := orders[k].(status := status)];
      code := 200;
      if status == "Refund Success" {
        Restock(orders[k].cart);
      }
    }

    /** `updateOrder(o._id, o.qty)` for each cart item in turn. */
    method Restock(items: seq<CartItem>)
      modifies this`products
      ensures products == Restocked(old(products), items)
    {
      var i := 0;
      while i < |items|
        invariant 0 <= i <= |items|
        invariant products == Restocked(old(products), items[..i])
      {
        var it := items[i];
        var key := Cast(it.itemId);
        if key.Some? && key.value in products {
          products := products[key.value := Product.Product(products[key.value].stock + it.qty, products[key.value].soldOut - it.qty)];
        }
        assert items[..i + 1][..i] == items[..i];
        i := i + 1;
      }
      assert items[..|items|] == items;
    }
  }
}
