/** The product listing of frontend/src/pages/ProductsPage.jsx: the
    category subset, the filter panel and the sort menu. */
module ProductsPage {
  import opened Basics
  import Seqs

  /** A listed product; `createdAt` is the creation time in milliseconds. */
  datatype Product = Product(id: string, category: string, price: int, ratings: Option<int>, createdAt: int)

  /** `item.ratings || 0`. */
  function RatingOf(p: Product): int {
    if p.ratings.Some? then p.ratings.value else 0
  }

  /** The data shown for a category parameter: everything without one,
      else the products of that category, in list order. */
  function ForCategory(all: seq<Product>, categoryData: Option<string>): (r: seq<Product>)
    ensures categoryData.None? ==> r == all
    ensures categoryData.Some? ==> forall i :: 0 <= i < |r| ==> r[i].category == categoryData.value
  {
    if categoryData.None? then all
    else Seqs.Filter(all, (p: Product) => p.category == categoryData.value)
  }

  lemma CategoryMembership(all: seq<Product>, category: string, p: Product)
    ensures p in ForCategory(all, Some(category)) <==> p in all && p.category == category
    ensures Seqs.IsSubsequence(ForCategory(all, Some(category)), all)
  {
    Seqs.FilterMembership(all, (q: Product) => q.category == category, p);
    Seqs.FilterIsSubsequence(all, (q: Product) => q.category == category);
  }

  /** What the filter panel keeps: a price within both bounds, the chosen
      category unless it is "All", and at least the minimum rating when
      that is positive. */
  predicate Keeps(p: Product, lo: int, hi: int, category: string, minRating: int) {
    lo <= p.price <= hi && (category == "All" || p.category == category) && (minRating <= 0 || RatingOf(p) >= minRating)
  }

  /** `handleFilter`'s chain of filters, always applied to all products. */
  function Filtered(all: seq<Product>, lo: int, hi: int, category: string, minRating: int): seq<Product> {
    var byPrice := Seqs.Filter(all, (p: Product) => lo <= p.price <= hi);
    var byCategory := if category != "All" then Seqs.Filter(byPrice, (p: Product) => p.category == category) else byPrice;
    if minRating > 0 then Seqs.Filter(byCategory, (p: Product) => RatingOf(p) >= minRating) else byCategory
  }

  /** Filtering twice is filtering once by both conditions. */
  lemma {:induction false} FilterTwice<T>(s: seq<T>, p: T -> bool, q: T -> bool, pq: T -> bool)
    requires forall x :: pq(x) == (p(x) && q(x))
    ensures Seqs.Filter(Seqs.Filter(s, p), q) == Seqs.Filter(s, pq)
  {
    if s != [] {
      FilterTwice(s[1..], p, q, pq);
      assert s == [s[0]] + s[1..];
      Seqs.FilterConcat([s[0]], s[1..], p);
      Seqs.FilterConcat([s[0]], s[1..], pq);
      Seqs.FilterConcat(Seqs.Filter([s[0]], p), Seqs.Filter(s[1..], p), q);
    }
  }

  /** The chain is a single filter by `Keeps`: the result is exactly the
      products that pass every active condition, in list order. */
  lemma FilteredKeepsExactly(all: seq<Product>, lo: int, hi: int, category: string, minRating: int)
    ensures Filtered(all, lo, hi, category, minRating) == Seqs.Filter(all, (p: Product) => Keeps(p, lo, hi, category, minRating))
    ensures Seqs.IsSubsequence(Filtered(all, lo, hi, category, minRating), all)
  {
    var price := (p: Product) => lo <= p.price <= hi;
    var cat := (p: Product) => p.category == category;
    var rating := (p: Product) => RatingOf(p) >= minRating;
    var priceCat := (p: Product) => lo <= p.price <= hi && p.category == category;
    var keep := (p: Product) => Keeps(p, lo, hi, category, minRating);
    if category != "All" {
      FilterTwice(all, price, cat, priceCat);
      if minRating > 0 {
        FilterTwice(all, priceCat, rating, keep);
      } else {
        SameFilter(all, priceCat, keep);
      }
    } else if minRating > 0 {
      FilterTwice(all, price, rating, keep);
    } else {
      SameFilter(all, price, keep);
    }
    Seqs.FilterIsSubsequence(all, keep);
  }

  /** Filters by pointwise-equal predicates agree. */
  lemma {:induction false} SameFilter<T>(s: seq<T>, p: T -> bool, q: T -> bool)
    requires forall x :: p(x) == q(x)
    ensures Seqs.Filter(s, p) == Seqs.Filter(s, q)
  {
    if s != [] {
      SameFilter(s[1..], p, q);
      assert s == [s[0]] + s[1..];
      Seqs.FilterConcat([s[0]], s[1..], p);
      Seqs.FilterConcat([s[0]], s[1..], q);
    }
  }

  /** The sort key of a menu option, ascending; none for an option that
      resets the list. */
  function SortKey(option: string): Option<Product -> int> {
    if option == "priceLowToHigh" then Some((p: Product) => p.price)
    else if option == "priceHighToLow" then Some((p: Product) => -p.price)
    else if option == "ratingHighToLow" then Some((p: Product) => -RatingOf(p))
    else if option == "newest" then Some((p: Product) => -p.createdAt)
    else None
  }

  /** `handleSort`: a stable sort of the current data by the option's key,
      or all products again for any other option. */
  function Sorted(data: seq<Product>, all: seq<Product>, option: string): seq<Product> {
    var key := SortKey(option);
    if key.Some? then Seqs.SortBy(data, key.value) else all
  }

  /** Each sort is a permutation of the current data in the option's
      order; the price-low-to-high sort is the only ascending one. */
  lemma SortOrders(data: seq<Product>, all: seq<Product>, option: string)
    ensures SortKey(option).Some? ==> multiset(Sorted(data, all, option)) == multiset(data)
    ensures option == "priceLowToHigh" ==>
              var r := Sorted(data, all, option); forall i, j :: 0 <= i < j < |r| ==> r[i].price <= r[j].price
    ensures option == "priceHighToLow" ==>
              var r := Sorted(data, all, option); forall i, j :: 0 <= i < j < |r| ==> r[i].price >= r[j].price
    ensures option == "ratingHighToLow" ==>
              var r := Sorted(data, all, option); forall i, j :: 0 <= i < j < |r| ==> RatingOf(r[i]) >= RatingOf(r[j])
    ensures option == "newest" ==>
              var r := Sorted(data, all, option); forall i, j :: 0 <= i < j < |r| ==> r[i].createdAt >= r[j].createdAt
    ensures SortKey(option).None? ==> Sorted(data, all, option) == all
  {
    var key := SortKey(option);
    if key.Some? {
      Seqs.SortByIsSortedPermutation(data, key.value);
    }
  }

  /** The listing: all products, the shown data, the sort option and the
      filter panel's controls. */
  class Listing {
    var allProducts: seq<Product>
    var data: seq<Product>
    var sortOption: string
    var priceLo: int
    var priceHi: int
    var selectedCategory: string
    var minRating: int

    constructor ()
      ensures allProducts == [] && data == [] && sortOption == "default"
      ensures priceLo == 0 && priceHi == 100000 && selectedCategory == "All" && minRating == 0
    {
      allProducts := [];
      data := [];
      sortOption := "default";
      priceLo := 0;
      priceHi := 100000;
      selectedCategory := "All";
      minRating := 0;
    }

    /** The loading effect: new products or a new category parameter. */
    method Load(all: seq<Product>, categoryData: Option<string>)
      modifies this`allProducts, this`data
      ensures allProducts == all && data == ForCategory(all, categoryData)
    {
      allProducts := all;
      data := ForCategory(all, categoryData);
    }

    /** The filter panel's controls. */
    method SetFilters(lo: int, hi: int, category: string, rating: int)
      modifies this`priceLo, this`priceHi, this`selectedCategory, this`minRating
      ensures priceLo == lo && priceHi == hi && selectedCategory == category && minRating == rating
    {
      priceLo, priceHi, selectedCategory, minRating := lo, hi, category, rating;
    }

    method HandleFilter()
      modifies this`data
      ensures data == Filtered(allProducts, priceLo, priceHi, selectedCategory, minRating)
      ensures forall p :: p in data <==> p in allProducts && Keeps(p, priceLo, priceHi, selectedCategory, minRating)
      ensures Seqs.IsSubsequence(data, allProducts)
    {
      var lo, hi, category, rating := priceLo, priceHi, selectedCategory, minRating;
      FilteredKeepsExactly(allProducts, lo, hi, category, rating);
      forall p
        ensures p in Filtered(allProducts, lo, hi, category, rating) <==> p in allProducts && Keeps(p, lo, hi, category, rating)
      {
        Seqs.FilterMembership(allProducts, (q: Product) => Keeps(q, lo, hi, category, rating), p);
      }
      data := Filtered(allProducts, lo, hi, category, rating);
    }

    method HandleSort(option: string)
      modifies this`data, this`sortOption
      ensures sortOption == option
      ensures data == Sorted(old(data), allProducts, option)
      ensures SortKey(option).Some? ==> multiset(data) == multiset(old(data))
      ensures SortKey(option).None? ==> data == allProducts
    {
      sortOption := option;
      SortOrders(data, allProducts, option);
      data := Sorted(data, allProducts, option);
    }
  }
}

/** The quick-view card of
    frontend/src/components/Route/ProductDetailsCard/ProductDetailsCard.jsx:
    the quantity counter, the add-to-cart decision, the wishlist heart and
    the rating summary. */
module ProductCard {
  import opened Basics
  import Seqs

  datatype CardProduct = CardProduct(id: string, stock: int, reviews: Option<seq<int>>)

  /** What the cart receives: the product with the chosen quantity. */
  datatype CartLine = CartLine(productId: string, qty: int)

  predicate InList(ids: Option<seq<string>>, id: string) {
    ids.Some? && id in ids.value
  }

  /** `addToCartHandler`: nothing when the product is already in the cart
      or out of stock, else the product with `count`. */
  function AddToCart(cart: Option<seq<string>>, product: CardProduct, count: int): (r: Option<CartLine>)
    ensures r.None? <==> InList(cart, product.id) || product.stock < 1
    ensures r.Some? ==> r.value == CartLine(product.id, count)
  {
    if InList(cart, product.id) then None
    else if product.stock < 1 then None
    else Some(CartLine(product.id, count))
  }

  /** The summed ratings and their number; no reviews shows as 0. */
  function RatingParts(reviews: Option<seq<int>>): (r: Option<(int, nat)>)
    ensures r.None? <==> reviews.None? || reviews.value == []
    ensures r.Some? ==> r.value.1 == |reviews.value| > 0 && r.value.0 == Sum(reviews.value)
  {
    if reviews.None? || reviews.value == [] then None else Some((Sum(reviews.value), |reviews.value|))
  }

  function Sum(s: seq<int>): int {
    if s == [] then 0 else s[0] + Sum(s[1..])
  }

  datatype WishAction = AddToWishlist | RemoveFromWishlist

  class Card {
    const product: CardProduct
    var count: int
    var click: bool

    ghost predicate Valid()
      reads this
    {
      count >= 1
    }

    constructor (p: CardProduct)
      ensures Valid() && product == p && count == 1 && !click
    {
      product := p;
      count := 1;
      click := false;
    }

    /** "-": takes one off, never below 1. */
    method Decrement()
      requires Valid()
      modifies this`count
      ensures Valid()
      ensures count == if old(count) > 1 then old(count) - 1 else old(count)
    {
      if count > 1 {
        count := count - 1;
      }
    }

    /** "+": adds one. */
    method Increment()
      requires Valid()
      modifies this`count
      ensures Valid() && count == old(count) + 1
    {
      count := count + 1;
    }

    /** The wishlist effect: the heart is filled exactly when the product
        is in the wishlist. */
    method SyncWishlist(wishlist: Option<seq<string>>)
      modifies this`click
      ensures click == InList(wishlist, product.id)
    {
      click := InList(wishlist, product.id);
    }

    /** A click on the heart flips it, removing from the wishlist when it
        was filled and adding otherwise. */
    method ClickHeart() returns (action: WishAction)
      modifies this`click
      ensures click == !old(click)
      ensures action == (if old(click) then RemoveFromWishlist else AddToWishlist)
    {
      action := if click then RemoveFromWishlist else AddToWishlist;
      click := !click;
    }

    /** The add-to-cart button with the current count. */
    method AddToCartClicked(cart: Option<seq<string>>) returns (line: Option<CartLine>)
      requires Valid()
      ensures line == AddToCart(cart, product, count)
      ensures line.Some? ==> line.value.qty >= 1
    {
      line := AddToCart(cart, product, count);
    }
  }
}

/** The image payload of frontend/src/components/Shop/EditProduct.jsx. */
module ProductImages {
  /** The part after the last "/", or the whole string without one. */
  function LastSegment(s: string): (r: string)
    ensures |r| <= |s| && r == s[|s| - |r|..]
    ensures forall i :: 0 <= i < |r| ==> r[i] != '/'
    ensures |r| < |s| ==> s[|s| - |r| - 1] == '/'
  {
    if s == [] then []
    else if s[|s| - 1] == '/' then []
    else LastSegment(s[..|s| - 1]) + [s[|s| - 1]]
  }

  /** The part before the first ".", or the whole string without one. */
  function BeforeDot(s: string): (r: string)
    ensures |r| <= |s| && r == s[..|r|]
    ensures forall i :: 0 <= i < |r| ==> r[i] != '.'
    ensures |r| < |s| ==> s[|r|] == '.'
  {
    if s == [] || s[0] == '.' then [] else [s[0]] + BeforeDot(s[1..])
  }

  /** `img.split('/').pop().split('.')[0]`. */
  function PublicId(img: string): (id: string)
    ensures forall i :: 0 <= i < |id| ==> id[i] != '/' && id[i] != '.'
  {
    BeforeDot(LastSegment(img))
  }

  /** For a path ending in a file name with an extension, the public id
      is the file name's stem. */
  lemma PublicIdOfPath(dir: string, stem: string, ext: string)
    requires forall i :: 0 <= i < |stem| ==> stem[i] != '/' && stem[i] != '.'
    requires forall i :: 0 <= i < |ext| ==> ext[i] != '/'
    ensures PublicId(dir + "/" + stem + "." + ext) == stem
  {
    var file := stem + "." + ext;
    LastSegmentOfSuffix(dir, file);
    assert dir + "/" + stem + "." + ext == dir + "/" + file;
    BeforeDotOfStem(stem, ext);
  }

  lemma {:induction false} LastSegmentOfSuffix(dir: string, file: string)
    requires forall i :: 0 <= i < |file| ==> file[i] != '/'
    ensures LastSegment(dir + "/" + file) == file
    decreases |file|
  {
    var s := dir + "/" + file;
    if file == [] {
      assert s[|s| - 1] == '/';
    } else {
      var shorter := file[..|file| - 1];
      LastSegmentOfSuffix(dir, shorter);
      assert s[..|s| - 1] == dir + "/" + shorter;
      assert shorter + [file[|file| - 1]] == file;
    }
  }

  lemma {:induction false} BeforeDotOfStem(stem: string, ext: string)
    requires forall i :: 0 <= i < |stem| ==> stem[i] != '.'
    ensures BeforeDot(stem + "." + ext) == stem
  {
    if stem != [] {
      BeforeDotOfStem(stem[1..], ext);
      assert (stem + "." + ext)[1..] == stem[1..] + "." + ext;
    }
  }

  datatype ImagePayload = Inline(dataUrl: string) | Hosted(url: string, publicId: string)

  predicate IsDataImage(img: string) {
    |img| >= 10 && img[..10] == "data:image"
  }

  /** The images sent: new uploads as they are, stored URLs with their
      public id. */
  function Payload(images: seq<string>): (r: seq<ImagePayload>)
    ensures |r| == |images|
    ensures forall i :: 0 <= i < |r| ==>
              r[i] == if IsDataImage(images[i]) then Inline(images[i]) else Hosted(images[i], PublicId(images[i]))
  {
    seq(|images|, i requires 0 <= i < |images| =>
      if IsDataImage(images[i]) then Inline(images[i]) else Hosted(images[i], PublicId(images[i])))
  }

  /** The payload's URLs, read back, are the images. */
  lemma PayloadKeepsImages(images: seq<string>)
    ensures forall i :: 0 <= i < |images| ==>
              images[i] == match Payload(images)[i] case Inline(d) => d case Hosted(u, _) => u
  {
  }

  /** The editor's image list. */
  class Editor {
    var images: seq<string>

    constructor ()
      ensures images == []
    {
      images := [];
    }

    /** The loaded product's image URLs. */
    method Load(urls: seq<string>)
      modifies this`images
      ensures images == urls
    {
      images := urls;
    }

    /** A new file selection: the list is emptied, then each file's data
        URL is appended as its reader finishes, in `loaded` order. */
    method ChooseFiles(loaded: seq<string>)
      modifies this`images
      ensures images == loaded
    {
      images := [];
      var i := 0;
      while i < |loaded|
        invariant 0 <= i <= |loaded|
        invariant images == loaded[..i]
      {
        images := images + [loaded[i]];
        i := i + 1;
      }
    }
  }
}

/** The checkout page of frontend/src/components/Checkout/Checkout.jsx:
    the subtotal, the shipping step, the payment start and the coupon. */
module Checkout {
  import opened Basics
  import Seqs

  datatype Line = Line(shopId: string, qty: int, price: int)

  /** A line's `qty × discountPrice`. */
  function LineTotal(l: Line): int {
    l.qty * l.price
  }

  /** The sum of the line totals. */
  function Subtotal(cart: seq<Line>): int {
    if cart == [] then 0 else LineTotal(cart[0]) + Subtotal(cart[1..])
  }

  lemma {:induction false} SubtotalConcat(a: seq<Line>, b: seq<Line>)
    ensures Subtotal(a + b) == Subtotal(a) + Subtotal(b)
  {
    if a == [] {
      assert a + b == b;
    } else {
      SubtotalConcat(a[1..], b);
      assert (a + b)[1..] == a[1..] + b;
    }
  }

  /** The coupon's shop's lines. */
  function Eligible(cart: seq<Line>, shopId: string): (r: seq<Line>)
    ensures forall i :: 0 <= i < |r| ==> r[i].shopId == shopId
    ensures forall l :: l in r <==> l in cart && l.shopId == shopId
    ensures Seqs.IsSubsequence(r, cart)
  {
    var ofShop := (l: Line) => l.shopId == shopId;
    Seqs.FilterKeepsExactly(cart, ofShop);
    Seqs.Filter(cart, ofShop)
  }

  /** The subtotal splits into the coupon shop's part and the rest. */
  lemma {:induction false} SubtotalSplitsByShop(cart: seq<Line>, shopId: string)
    ensures Subtotal(cart) == Subtotal(Eligible(cart, shopId)) +
                              Subtotal(Seqs.Filter(cart, (l: Line) => l.shopId != shopId))
  {
    var p := (l: Line) => l.shopId == shopId;
    var q := (l: Line) => l.shopId != shopId;
    if cart != [] {
      var x, rest := cart[0], cart[1..];
      SubtotalSplitsByShop(rest, shopId);
      if x.shopId == shopId {
        assert Seqs.Filter(cart, p) == [x] + Seqs.Filter(rest, p);
        assert Seqs.Filter(cart, q) == Seqs.Filter(rest, q);
        SubtotalConcat([x], Seqs.Filter(rest, p));
      } else {
        assert Seqs.Filter(cart, p) == Seqs.Filter(rest, p);
        assert Seqs.Filter(cart, q) == [x] + Seqs.Filter(rest, q);
        SubtotalConcat([x], Seqs.Filter(rest, q));
      }
    }
  }

  predicate NoNegativeLine(cart: seq<Line>) {
    forall l :: l in cart ==> LineTotal(l) >= 0
  }

  lemma {:induction false} NonNegativeSubtotal(cart: seq<Line>)
    requires NoNegativeLine(cart)
    ensures Subtotal(cart) >= 0
  {
    if cart != [] {
      assert cart[0] in cart;
      NonNegativeSubtotal(cart[1..]);
    }
  }

  /** Without negative lines, the eligible price lies between 0 and the
      subtotal. */
  lemma EligibleWithinSubtotal(cart: seq<Line>, shopId: string)
    requires NoNegativeLine(cart)
    ensures 0 <= Subtotal(Eligible(cart, shopId)) <= Subtotal(cart)
  {
    var q := (l: Line) => l.shopId != shopId;
    SubtotalSplitsByShop(cart, shopId);
    forall l | l in Eligible(cart, shopId)
      ensures LineTotal(l) >= 0
    {
      Seqs.FilterMembership(cart, (m: Line) => m.shopId == shopId, l);
    }
    forall l | l in Seqs.Filter(cart, q)
      ensures LineTotal(l) >= 0
    {
      Seqs.FilterMembership(cart, q, l);
    }
    NonNegativeSubtotal(Eligible(cart, shopId));
    NonNegativeSubtotal(Seqs.Filter(cart, q));
  }

  /** What the coupon lookup answered. */
  datatype CouponReply = LookupFailed | NoCoupon | Coupon(shopId: string, value: int)

  /** What the payment start sends: the cart, its subtotal and the discount
      (0 when none). */
  datatype PaymentStart = PaymentStart(cart: seq<Line>, subTotal: int, discountHundredths: int,
                                       address: seq<string>, zipCode: string)

  /** `!value` for a text field. */
  predicate Blank(s: string) {
    s == ""
  }

  class Form {
    var activeStep: int
    var address1: string
    var address2: string
    var zipCode: Option<string>
    var country: string
    var city: string
    var couponCode: string
    var coupon: Option<CouponReply>
    /** The discount in hundredths of a currency unit, so that
        `eligible × value / 100` stays exact. */
    var discountHundredths: Option<int>

    constructor ()
      ensures activeStep == 1 && zipCode.None? && couponCode == "" && coupon.None? && discountHundredths.None?
      ensures address1 == "" && address2 == "" && country == "" && city == ""
    {
      activeStep := 1;
      address1, address2, country, city := "", "", "", "";
      zipCode := None;
      couponCode := "";
      coupon := None;
      discountHundredths := None;
    }

    predicate AddressComplete()
      reads this
    {
      !Blank(address1) && !Blank(address2) && zipCode.Some? && !Blank(zipCode.value) && !Blank(country) && !Blank(city)
    }

    /** "Next": moves to the payment step only with every address field
        filled. */
    method SubmitShippingInfo()
      modifies this`activeStep
      ensures AddressComplete() ==> activeStep == 2
      ensures !AddressComplete() ==> activeStep == old(activeStep)
    {
      if !AddressComplete() {
        return;
      }
      activeStep := 2;
    }

    /** The eSewa button: nothing for a missing or empty cart. */
    method StartPayment(cart: Option<seq<Line>>) returns (start: Option<PaymentStart>)
      ensures start.None? <==> cart.None? || cart.value == []
      ensures start.Some? ==> start.value.cart == cart.value && start.value.subTotal == Subtotal(cart.value)
      ensures start.Some? ==> start.value.discountHundredths == (if discountHundredths.Some? then discountHundredths.value else 0)
    {
      if cart.None? || |cart.value| == 0 {
        return None;
      }
      var zip := if zipCode.Some? then zipCode.value else "";
      start := Some(PaymentStart(cart.value, Subtotal(cart.value),
                                 if discountHundredths.Some? then discountHundredths.value else 0,
                                 [address1, address2, country, city], zip));
    }

    /** "Apply code": with a coupon whose shop has lines in the cart, the
        discount becomes that share of the shop's lines; an unknown coupon
        or one for another shop only clears the input; a failed lookup
        changes nothing. */
    method ApplyCoupon(reply: CouponReply, cart: seq<Line>)
      modifies this`couponCode, this`coupon, this`discountHundredths
      ensures reply.LookupFailed? ==>
                couponCode == old(couponCode) && coupon == old(coupon) && discountHundredths == old(discountHundredths)
      ensures reply.NoCoupon? || (reply.Coupon? && Eligible(cart, reply.shopId) == []) ==>
                couponCode == "" && coupon == old(coupon) && discountHundredths == old(discountHundredths)
      ensures reply.Coupon? && Eligible(cart, reply.shopId) != [] ==>
                couponCode == "" && coupon == Some(reply) &&
                discountHundredths == Some(Subtotal(Eligible(cart, reply.shopId)) * reply.value)
    {
      match reply
      case LookupFailed =>
      case NoCoupon =>
        couponCode := "";
      case Coupon(shopId, value) =>
        var eligible := Eligible(cart, shopId);
        if |eligible| == 0 {
          couponCode := "";
        } else {
          discountHundredths := Some(Subtotal(eligible) * value);
          coupon := Some(reply);
          couponCode := "";
        }
    }
  }

  /** A coupon of at most 100 percent never takes off more than the shop's
      lines cost, nor more than the subtotal. */
  lemma DiscountBounded(cart: seq<Line>, shopId: string, value: int)
    requires 0 <= value <= 100
    requires NoNegativeLine(cart)
    ensures 0 <= Subtotal(Eligible(cart, shopId)) * value <= 100 * Subtotal(Eligible(cart, shopId))
    ensures Subtotal(Eligible(cart, shopId)) * value <= 100 * Subtotal(cart)
  {
    EligibleWithinSubtotal(cart, shopId);
    PercentWithin(Subtotal(Eligible(cart, shopId)), Subtotal(cart), value);
  }

  /** A share of at most 100 percent of a part of a total. */
  lemma PercentWithin(e: int, t: int, value: int)
    requires 0 <= e <= t && 0 <= value <= 100
    ensures 0 <= e * value <= 100 * e && e * value <= 100 * t
  {
    assert e * (100 - value) >= 0;
  }
}
