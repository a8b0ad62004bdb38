/** The grouping step of `/create-order` in backend/controller/order.js:
    cart items are pushed into a `Map` from `shopId` to an item list, so
    there is one group per distinct shop, in order of the shop's first
    appearance, and each group holds that shop's items in cart order. */
module OrderGrouping {
  import Seqs

  /** A cart line: the id checked at creation (`productId`), the id used
      when restocking (`_id`), the shop and the quantity. */
  datatype CartItem = CartItem(productId: string, itemId: string, shopId: string, qty: int)

  /** A shop and the items pushed under it. */
  type Group = (string, seq<CartItem>)

  /** `shopItemsMap.has(shopId)`, as the position of the shop's group. */
  function ShopIndex(gs: seq<Group>, shopId: string): (k: int)
    ensures -1 <= k < |gs|
    ensures k >= 0 ==> gs[k].0 == shopId
    ensures k == -1 ==> forall j :: 0 <= j < |gs| ==> gs[j].0 != shopId
  {
    Seqs.FindIndex(gs, (g: Group) => g.0 == shopId)
  }

  /** One iteration of the grouping loop. */
  function AddItem(gs: seq<Group>, item: CartItem): seq<Group> {
    var k := ShopIndex(gs, item.shopId);
    if k < 0 then gs + [(item.shopId, [item])] else gs[k := (gs[k].0, gs[k].1 + [item])]
  }

  /** The map after the loop has seen the whole cart. */
  function Groups(cart: seq<CartItem>): seq<Group>
    decreases |cart|
  {
    if cart == [] then [] else AddItem(Groups(cart[..|cart| - 1]), cart[|cart| - 1])
  }

  /** The items of one shop, in cart order. */
  function ItemsOf(cart: seq<CartItem>, shopId: string): (r: seq<CartItem>)
    ensures forall x :: x in r <==> x in cart && x.shopId == shopId
    decreases |cart|
  {
    if cart == [] then []
    else ItemsOf(cart[..|cart| - 1], shopId) + (if cart[|cart| - 1].shopId == shopId then [cart[|cart| - 1]] else [])
  }

  /** The position of a shop's first item in the cart, or -1. */
  function FirstOfShop(cart: seq<CartItem>, shopId: string): (k: int)
    ensures -1 <= k < |cart|
    ensures k >= 0 ==> cart[k].shopId == shopId && forall j :: 0 <= j < k ==> cart[j].shopId != shopId
    ensures k == -1 ==> forall j :: 0 <= j < |cart| ==> cart[j].shopId != shopId
  {
    Seqs.FindIndex(cart, (it: CartItem) => it.shopId == shopId)
  }

  /** The grouping loop, pushing into a shop's list in place. */
  method GroupByShop(cart: seq<CartItem>) returns (groups: seq<Group>)
    ensures groups == Groups(cart)
  {
    groups := [];
    var i := 0;
    while i < |cart|
      invariant 0 <= i <= |cart|
      invariant groups == Groups(cart[..i])
    {
      var item := cart[i];
      var k := ShopIndex(groups, item.shopId);
      ghost var before := groups;
      if k < 0 {
        groups := groups + [(item.shopId, [])];
        k := |groups| - 1;
        assert [] + [item] == [item];
        assert groups[k := (groups[k].0, groups[k].1 + [item])] == before + [(item.shopId, [item])];
      }
      groups := groups[k := (groups[k].0, groups[k].1 + [item])];
      assert groups == AddItem(before, item);
      assert cart[..i + 1][..i] == cart[..i];
      i := i + 1;
    }
    assert cart[..|cart|] == cart;
  }

  /** `ItemsOf` is the cart filtered by shop, so a group keeps cart order. */
  lemma {:induction false} ItemsOfIsFilter(cart: seq<CartItem>, shopId: string, p: CartItem -> bool)
    requires forall it :: p(it) == (it.shopId == shopId)
    ensures ItemsOf(cart, shopId) == Seqs.Filter(cart, p)
    ensures Seqs.IsSubsequence(ItemsOf(cart, shopId), cart)
    decreases |cart|
  {
    if cart != [] {
      var n := |cart| - 1;
      var x := cart[n];
      ItemsOfIsFilter(cart[..n], shopId, p);
      assert cart == cart[..n] + [x];
      Seqs.FilterConcat(cart[..n], [x], p);
      assert [x][1..] == [];
      if p(x) {
        assert Seqs.Filter([x], p) == [x];
      } else {
        assert Seqs.Filter([x], p) == [];
      }
    }
    Seqs.FilterIsSubsequence(cart, p);
  }

  /** A shop's first appearance does not move when an item is appended. */
  lemma FirstOfShopSnoc(cart: seq<CartItem>, x: CartItem, shopId: string)
    ensures FirstOfShop(cart, shopId) >= 0 ==> FirstOfShop(cart + [x], shopId) == FirstOfShop(cart, shopId)
    ensures FirstOfShop(cart, shopId) == -1 && x.shopId == shopId ==> FirstOfShop(cart + [x], shopId) == |cart|
  {
    var c := cart + [x];
    assert forall j :: 0 <= j < |cart| ==> c[j] == cart[j];
    var k := FirstOfShop(cart, shopId);
    var k' := FirstOfShop(c, shopId);
    if k >= 0 {
      assert k' <= k;
    } else if x.shopId == shopId {
      assert c[|cart|] == x;
    }
  }

  ghost predicate ShopsDistinct(gs: seq<Group>) {
    forall i, j :: 0 <= i < j < |gs| ==> gs[i].0 != gs[j].0
  }

  ghost predicate GroupsExact(gs: seq<Group>, cart: seq<CartItem>) {
    forall i :: 0 <= i < |gs| ==> gs[i].1 == ItemsOf(cart, gs[i].0) && |gs[i].1| > 0
  }

  ghost predicate CoversCart(gs: seq<Group>, cart: seq<CartItem>) {
    forall j :: 0 <= j < |cart| ==> ShopIndex(gs, cart[j].shopId) >= 0
  }

  ghost predicate OrderedByFirst(gs: seq<Group>, cart: seq<CartItem>) {
    forall i, j :: 0 <= i < j < |gs| ==> 0 <= FirstOfShop(cart, gs[i].0) < FirstOfShop(cart, gs[j].0)
  }

  lemma ItemsOfSnoc(c: seq<CartItem>, x: CartItem, s: string)
    ensures ItemsOf(c + [x], s) == ItemsOf(c, s) + (if x.shopId == s then [x] else [])
  {
    assert (c + [x])[..|c|] == c;
  }

  /** A shop with no group has no item in the cart seen so far. */
  lemma AbsentShopHasNoItems(prev: seq<Group>, c: seq<CartItem>, s: string)
    requires CoversCart(prev, c) && ShopIndex(prev, s) < 0
    ensures forall j :: 0 <= j < |c| ==> c[j].shopId != s
    ensures ItemsOf(c, s) == []
  {
    forall j | 0 <= j < |c| ensures c[j].shopId != s {
      assert ShopIndex(prev, c[j].shopId) >= 0;
    }
  }

  lemma StepDistinct(prev: seq<Group>, x: CartItem)
    requires ShopsDistinct(prev)
    ensures ShopsDistinct(AddItem(prev, x))
  {
  }

  lemma StepExact(prev: seq<Group>, c: seq<CartItem>, x: CartItem)
    requires ShopsDistinct(prev) && GroupsExact(prev, c) && CoversCart(prev, c)
    ensures GroupsExact(AddItem(prev, x), c + [x])
  {
    var gs := AddItem(prev, x);
    var k := ShopIndex(prev, x.shopId);
    if k < 0 {
      AbsentShopHasNoItems(prev, c, x.shopId);
      assert gs == prev + [(x.shopId, [x])];
      forall i | 0 <= i < |gs| ensures gs[i].1 == ItemsOf(c + [x], gs[i].0) && |gs[i].1| > 0 {
        ItemsOfSnoc(c, x, gs[i].0);
        if i == |prev| {
          assert [] + [x] == [x];
        } else {
          assert gs[i] == prev[i];
        }
      }
    } else {
      assert gs == prev[k := (prev[k].0, prev[k].1 + [x])];
      forall i | 0 <= i < |gs| ensures gs[i].1 == ItemsOf(c + [x], gs[i].0) && |gs[i].1| > 0 {
        ItemsOfSnoc(c, x, gs[i].0);
        if i != k {
          assert gs[i] == prev[i];
          assert prev[i].0 != x.shopId;
        }
      }
    }
  }

  lemma StepCovers(prev: seq<Group>, c: seq<CartItem>, x: CartItem)
    requires CoversCart(prev, c)
    ensures CoversCart(AddItem(prev, x), c + [x])
  {
    var gs := AddItem(prev, x);
    var cart := c + [x];
    var k := ShopIndex(prev, x.shopId);
    var at := if k < 0 then |prev| else k;
    assert at < |gs| && gs[at].0 == x.shopId;
    forall j | 0 <= j < |cart| ensures ShopIndex(gs, cart[j].shopId) >= 0 {
      if j < |c| {
        assert cart[j] == c[j];
        var m := ShopIndex(prev, c[j].shopId);
        assert gs[m].0 == prev[m].0;
      } else {
        assert cart[j] == x;
      }
    }
  }

  /** Every group's shop already appears in the cart. */
  lemma GroupShopsAppear(prev: seq<Group>, c: seq<CartItem>, x: CartItem)
    requires GroupsExact(prev, c)
    ensures forall i :: 0 <= i < |prev| ==>
              0 <= FirstOfShop(c, prev[i].0) && FirstOfShop(c + [x], prev[i].0) == FirstOfShop(c, prev[i].0)
  {
    forall i | 0 <= i < |prev|
      ensures 0 <= FirstOfShop(c, prev[i].0) && FirstOfShop(c + [x], prev[i].0) == FirstOfShop(c, prev[i].0)
    {
      assert prev[i].1[0] in ItemsOf(c, prev[i].0);
      FirstOfShopSnoc(c, x, prev[i].0);
    }
  }

  lemma StepOrdered(prev: seq<Group>, c: seq<CartItem>, x: CartItem)
    requires GroupsExact(prev, c) && CoversCart(prev, c) && OrderedByFirst(prev, c)
    ensures OrderedByFirst(AddItem(prev, x), c + [x])
  {
    GroupShopsAppear(prev, c, x);
    if ShopIndex(prev, x.shopId) < 0 {
      AbsentShopHasNoItems(prev, c, x.shopId);
      FirstOfShopSnoc(c, x, x.shopId);
      StepOrderedNewShop(prev, c, x);
    } else {
      StepOrderedKnownShop(prev, c, x);
    }
  }

  lemma StepOrderedNewShop(prev: seq<Group>, c: seq<CartItem>, x: CartItem)
    requires ShopIndex(prev, x.shopId) < 0 && OrderedByFirst(prev, c)
    requires forall i :: 0 <= i < |prev| ==>
               0 <= FirstOfShop(c, prev[i].0) && FirstOfShop(c + [x], prev[i].0) == FirstOfShop(c, prev[i].0)
    requires FirstOfShop(c + [x], x.shopId) == |c|
    ensures OrderedByFirst(AddItem(prev, x), c + [x])
  {
    var gs := AddItem(prev, x);
    assert gs == prev + [(x.shopId, [x])];
    forall i, j | 0 <= i < j < |gs| ensures 0 <= FirstOfShop(c + [x], gs[i].0) < FirstOfShop(c + [x], gs[j].0) {
      assert gs[i] == prev[i];
      assert FirstOfShop(c, prev[i].0) < |c|;
      if j < |prev| {
        assert gs[j] == prev[j];
      }
    }
  }

  lemma StepOrderedKnownShop(prev: seq<Group>, c: seq<CartItem>, x: CartItem)
    requires ShopIndex(prev, x.shopId) >= 0 && OrderedByFirst(prev, c)
    requires forall i :: 0 <= i < |prev| ==>
               0 <= FirstOfShop(c, prev[i].0) && FirstOfShop(c + [x], prev[i].0) == FirstOfShop(c, prev[i].0)
    ensures OrderedByFirst(AddItem(prev, x), c + [x])
  {
    var k := ShopIndex(prev, x.shopId);
    var gs := AddItem(prev, x);
    assert gs == prev[k := (prev[k].0, prev[k].1 + [x])];
    forall i, j | 0 <= i < j < |gs| ensures 0 <= FirstOfShop(c + [x], gs[i].0) < FirstOfShop(c + [x], gs[j].0) {
      assert gs[i].0 == prev[i].0 && gs[j].0 == prev[j].0;
    }
  }

  /** The groups partition the cart: one group per distinct shop, ordered
      by the shop's first appearance; every group is exactly that shop's
      items, in cart order, and is not empty; and every cart item has its
      shop's group. */
  lemma {:induction false} GroupsPartitionCart(cart: seq<CartItem>)
    ensures var gs := Groups(cart);
            ShopsDistinct(gs) && GroupsExact(gs, cart) && CoversCart(gs, cart) && OrderedByFirst(gs, cart)
    decreases |cart|
  {
    if cart != [] {
      var n := |cart| - 1;
      var c := cart[..n];
      var x := cart[n];
      assert cart == c + [x];
      GroupsPartitionCart(c);
      var prev := Groups(c);
      StepDistinct(prev, x);
      StepExact(prev, c, x);
      StepCovers(prev, c, x);
      StepOrdered(prev, c, x);
    }
  }
}
