/** The order pages: the buyer's frontend/src/components/UserOrderDetails.jsx
    (progress bar, refund button, review choice and the star rating of the
    review form) and the seller's
    frontend/src/components/Shop/OrderDetails.jsx (progress width, bar
    colour, refund button and payment label). */
module OrderViews {
  import opened Basics
  import Seqs
  import Payment

  datatype Review = Review(userId: string, rating: int, comment: string)

  datatype Item = Item(productId: string, price: int, qty: int, isReviewed: bool, reviews: Option<seq<Review>>)

  datatype OrderView = OrderView(id: string, status: string, cart: seq<Item>)

  /** `orders && orders.find(item => item._id === id)`: nothing while the
      list is not loaded, else the first order with that id. */
  function Lookup(orders: Option<seq<OrderView>>, id: string): (r: Option<OrderView>)
    ensures orders.None? ==> r.None?
    ensures orders.Some? ==>
              (r.None? <==> forall i :: 0 <= i < |orders.value| ==> orders.value[i].id != id)
    ensures r.Some? ==> exists k :: 0 <= k < |orders.value| && orders.value[k] == r.value && r.value.id == id &&
                                    forall j :: 0 <= j < k ==> orders.value[j].id != id
  {
    if orders.None? then None
    else
      var k := Seqs.FindIndex(orders.value, (o: OrderView) => o.id == id);
      if k < 0 then None else Some(orders.value[k])
  }

  // ---------------------------------------------------------------------
  // Buyer page.

  datatype Color = Blue | Yellow | Green | Red | Amber | Plain

  /** The buyer's bar: a width in quarters and a colour. */
  datatype Bar = Bar(quarters: int, color: Color)

  const RefundStatuses: set<string> := {"Processing refund", "Refund Success"}

  /** The buyer's four fulfilment steps, in order. */
  const BuyerSteps: seq<string> := ["Processing", "Transferred to delivery partner", "Shipping", "Delivered"]

  /** The bar class for a status. */
  function UserBar(status: Option<string>): (b: Bar)
    ensures 0 <= b.quarters <= 4
    ensures forall k :: 0 <= k < 4 ==> (status == Some(BuyerSteps[k]) ==> b.quarters == k + 1)
    ensures b.color == Red <==> status.Some? && status.value in RefundStatuses
    ensures b.quarters == 4 <==> status == Some("Delivered") || (status.Some? && status.value in RefundStatuses)
    ensures b.quarters == 0 <==> status.None? || (status.value !in BuyerSteps && status.value !in RefundStatuses)
  {
    if status == Some("Processing") then Bar(1, Blue)
    else if status == Some("Transferred to delivery partner") then Bar(2, Yellow)
    else if status == Some("Shipping") then Bar(3, Yellow)
    else if status == Some("Delivered") then Bar(4, Green)
    else if status == Some("Processing refund") || status == Some("Refund Success") then Bar(4, Red)
    else Bar(0, Plain)
  }

  /** `s.includes(pat)`. */
  predicate Includes(s: string, pat: string) {
    Payment.FirstOccurrenceFrom(s, pat, 0) >= 0
  }

  /** A string without the first character of `pat` does not include it. */
  lemma NotIncludedWithoutFirstChar(s: string, pat: string)
    requires |pat| > 0 && forall i :: 0 <= i < |s| ==> s[i] != pat[0]
    ensures !Includes(s, pat)
  {
    forall j | 0 <= j
      ensures !Payment.OccursAt(s, pat, j)
    {
      if j + |pat| <= |s| {
        assert s[j..j + |pat|][0] == s[j];
      }
    }
  }

  /** The refund button: delivered and not mentioning "Refund". */
  predicate RefundOffered(status: Option<string>) {
    status == Some("Delivered") && !Includes(status.value, "Refund")
  }

  /** The second half of the button's condition never removes it: the
      button shows exactly for delivered orders. */
  lemma RefundOfferedIffDelivered(status: Option<string>)
    ensures RefundOffered(status) <==> status == Some("Delivered")
  {
    if status == Some("Delivered") {
      NotIncludedWithoutFirstChar("Delivered", "Refund");
    }
  }

  /** What the refund button sends. */
  const RefundRequestStatus := "Processing refund"

  datatype ReviewChoice = EditReview | WriteReview | WaitForDelivery

  /** An item's review action: edit when reviewed, else write once the
      order is delivered, else a notice. */
  function ChoiceFor(item: Item, status: Option<string>): (c: ReviewChoice)
    ensures c == EditReview <==> item.isReviewed
    ensures c == WriteReview <==> !item.isReviewed && status == Some("Delivered")
    ensures c == WaitForDelivery <==> !item.isReviewed && status != Some("Delivered")
  {
    if item.isReviewed then EditReview
    else if status == Some("Delivered") then WriteReview
    else WaitForDelivery
  }

  /** The current user's own review of an item, if any: the first review
      whose author is that user. */
  function OwnReview(item: Item, userId: string): (r: Option<Review>)
    ensures r.Some? ==> item.reviews.Some? && r.value in item.reviews.value && r.value.userId == userId
    ensures r.None? <==> item.reviews.None? || forall i :: 0 <= i < |item.reviews.value| ==> item.reviews.value[i].userId != userId
    ensures r.Some? ==> exists k :: 0 <= k < |item.reviews.value| && item.reviews.value[k] == r.value &&
                                    forall j :: 0 <= j < k ==> item.reviews.value[j].userId != userId
  {
    if item.reviews.None? then None
    else
      var k := Seqs.FindIndex(item.reviews.value, (v: Review) => v.userId == userId);
      if k < 0 then None else Some(item.reviews.value[k])
  }

  /** Star `i` of five is filled exactly when the rating reaches it. */
  predicate StarFilled(rating: int, i: int) {
    rating >= i
  }

  /** The review form: whether it is open, the item it is for, the rating
      and the comment. */
  class ReviewForm {
    var open: bool
    var selected: Option<Item>
    var rating: int
    var comment: string

    constructor ()
      ensures !open && selected.None? && rating == 1 && comment == ""
    {
      open := false;
      selected := None;
      rating := 1;
      comment := "";
    }

    /** "Edit Review": opens the form for the item and, when the user has a
        review of it, prefills that review's rating and comment. */
    method OpenEdit(item: Item, userId: string)
      modifies this
      ensures open && selected == Some(item)
      ensures OwnReview(item, userId).Some? ==>
                rating == OwnReview(item, userId).value.rating && comment == OwnReview(item, userId).value.comment
      ensures OwnReview(item, userId).None? ==> rating == old(rating) && comment == old(comment)
    {
      selected := Some(item);
      open := true;
      var own := OwnReview(item, userId);
      if own.Some? {
        rating := own.value.rating;
        comment := own.value.comment;
      }
    }

    /** "Write a review": opens the form with the current rating. */
    method OpenWrite(item: Item)
      modifies this`open, this`selected
      ensures open && selected == Some(item)
    {
      open := true;
      selected := Some(item);
    }

    /** A click on star `i`. */
    method PickStar(i: int)
      requires 1 <= i <= 5
      modifies this`rating
      ensures forall j :: 1 <= j <= 5 ==> (StarFilled(rating, j) <==> j <= i)
    {
      rating := i;
    }

    /** A successful submit resets the form. */
    method Submitted()
      modifies this`open, this`rating, this`comment
      ensures !open && rating == 1 && comment == ""
      ensures forall j :: 1 <= j <= 5 ==> (StarFilled(rating, j) <==> j == 1)
    {
      comment := "";
      rating := 1;
      open := false;
    }
  }

  // ---------------------------------------------------------------------
  // Seller page.

  /** The status select's six fulfilment options, in order. */
  const FulfilmentOptions: seq<string> :=
    ["Processing", "Transferred to delivery partner", "Shipping", "Received", "On the way", "Delivered"]

  /** All the select's options after the placeholder, in order. */
  const StatusOptions: seq<string> := FulfilmentOptions + ["Processing refund", "Refund Success"]

  /** `getProgressWidth`, in percent. */
  function ProgressWidth(status: string): (w: int)
    ensures w in {0, 5, 20, 50, 70, 90, 100}
    ensures w == 100 <==> status == "Delivered"
    ensures w == 0 <==> status !in FulfilmentOptions
  {
    match status
    case "Processing" => 5
    case "Transferred to delivery partner" => 20
    case "Shipping" => 50
    case "Received" => 70
    case "On the way" => 90
    case "Delivered" => 100
    case _ => 0
  }

  /** The width grows strictly along the six fulfilment options and drops
      to zero for the two refund options. */
  lemma ProgressGrowsAlongOptions()
    ensures forall i, j :: 0 <= i < j < 6 ==> ProgressWidth(StatusOptions[i]) < ProgressWidth(StatusOptions[j])
    ensures ProgressWidth(StatusOptions[6]) == 0 && ProgressWidth(StatusOptions[7]) == 0
  {
    var w := [5, 20, 50, 70, 90, 100];
    assert forall i :: 0 <= i < 6 ==> ProgressWidth(StatusOptions[i]) == w[i];
  }

  /** The buyer and seller bars order the buyer's four steps alike. */
  lemma BarsAgreeOnSteps(i: int, j: int)
    requires 0 <= i < 4 && 0 <= j < 4
    ensures UserBar(Some(BuyerSteps[i])).quarters < UserBar(Some(BuyerSteps[j])).quarters <==>
            ProgressWidth(BuyerSteps[i]) < ProgressWidth(BuyerSteps[j])
  {
    var q := [1, 2, 3, 4];
    var w := [5, 20, 50, 100];
    assert UserBar(Some(BuyerSteps[i])).quarters == q[i];
    assert UserBar(Some(BuyerSteps[j])).quarters == q[j];
    assert ProgressWidth(BuyerSteps[i]) == w[i];
    assert ProgressWidth(BuyerSteps[j]) == w[j];
  }

  /** `getBarColor`. */
  function BarColor(status: string): (c: Color)
    ensures c == Green <==> status == "Delivered"
    ensures c != Green ==> c == Amber
  {
    if status == "Delivered" then Green else Amber
  }

  /** "Process Refund" shows unless a refund is under way or done. */
  predicate ShowsProcessRefund(status: string) {
    status != "Processing refund" && status != "Refund Success"
  }

  /** Once the buyer asks for a refund, the buyer's button is gone, the
      seller's "Process Refund" button still shows for every fulfilment
      status, and the bar turns red. */
  lemma RefundRequestHidesButtons()
    ensures !RefundOffered(Some(RefundRequestStatus))
    ensures !ShowsProcessRefund(RefundRequestStatus)
    ensures forall k :: 0 <= k < 6 ==> ShowsProcessRefund(StatusOptions[k])
    ensures UserBar(Some(RefundRequestStatus)).color == Red
  {
  }

  datatype PaymentLabel = Paid | CashOnDelivery | Pending

  /** The payment label, by priority: paid by either record, else cash on
      delivery, else pending. */
  function LabelFor(rec: Payment.PaymentRecord): (l: PaymentLabel)
    ensures l == Paid <==> (rec.paymentInfo.Some? && rec.paymentInfo.value.status == "Completed") || rec.paymentStatus == "Paid"
    ensures l == CashOnDelivery <==> l != Paid && rec.paymentInfo.Some? && rec.paymentInfo.value.kind == "COD"
    ensures l == Pending <==> l != Paid && (rec.paymentInfo.None? || rec.paymentInfo.value.kind != "COD")
  {
    if (rec.paymentInfo.Some? && rec.paymentInfo.value.status == "Completed") || rec.paymentStatus == "Paid" then Paid
    else if rec.paymentInfo.Some? && rec.paymentInfo.value.kind == "COD" then CashOnDelivery
    else Pending
  }

  /** A verified COMPLETE payment shows as paid. A failed one shows as paid
      exactly when the payment info it keeps already said "Completed". */
  lemma SettledPaymentLabel(rec: Payment.PaymentRecord, d: Payment.Decoded)
    ensures d.status == Some("COMPLETE") ==> LabelFor(Payment.Settle(rec, d)) == Paid
    ensures d.status != Some("COMPLETE") ==>
              (LabelFor(Payment.Settle(rec, d)) == Paid <==> rec.paymentInfo.Some? && rec.paymentInfo.value.status == "Completed")
  {
  }

  /** An item's line total. */
  function LineTotal(item: Item): int {
    item.price * item.qty
  }
}
