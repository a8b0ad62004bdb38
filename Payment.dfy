/** The eSewa payment routes of backend/controller/payment.js: the signed
    message and its field list, the transaction uuid built from an order
    id and the id recovered from it, `/verify` and `/status-check`. The
    HMAC-SHA256 signature is a parameter `sign` (any function of the
    message), the payment records are a map from order id. */
module Payment {
  import opened Basics
  import Seqs
  import ObjectIds

  const ProductCode: string := "EPAYTEST"

  const TotalAmountField: string := "total_amount"
  const TransactionUuidField: string := "transaction_uuid"
  const ProductCodeField: string := "product_code"

  /** The fields the signature covers, in signing order. */
  const FieldNames: seq<string> := [TotalAmountField, TransactionUuidField, ProductCodeField]

  /** The `signed_field_names` value sent with the form. */
  const SignedFieldNames: string := "total_amount,transaction_uuid,product_code"

  const SuccessUrl: string := "http://localhost:3000/order/success"
  const FailureUrl: string := "http://localhost:3000/order/failure"
  const ErrorUrl: string := "http://localhost:3000/order-failure"

  /** `parts.join(",")`. */
  function JoinComma(parts: seq<string>): string
    decreases |parts|
  {
    if |parts| == 0 then "" else if |parts| == 1 then parts[0] else parts[0] + "," + JoinComma(parts[1..])
  }

  /** The message `generateSignature` signs: the three fields as
      `name=value`, joined by commas, in the order of `FieldNames`. */
  function SignatureMessage(totalAmount: string, transactionUuid: string, productCode: string): string {
    TotalAmountField + "=" + totalAmount + "," +
    (TransactionUuidField + "=" + transactionUuid + "," + (ProductCodeField + "=" + productCode))
  }

  /** The message is the three `name=value` pairs joined by commas in the
      order of `FieldNames`, and `signed_field_names` lists the same names
      in the same order. */
  lemma SignedFieldNamesMatchMessage(totalAmount: string, transactionUuid: string, productCode: string)
    ensures SignatureMessage(totalAmount, transactionUuid, productCode) ==
            JoinComma([FieldNames[0] + "=" + totalAmount, FieldNames[1] + "=" + transactionUuid,
                       FieldNames[2] + "=" + productCode])
    ensures SignedFieldNames == JoinComma(FieldNames)
  {
    JoinCommaThree(TotalAmountField + "=" + totalAmount, TransactionUuidField + "=" + transactionUuid,
                   ProductCodeField + "=" + productCode);
    HeaderIsJoinedNames();
  }

  lemma HeaderIsJoinedNames()
    ensures SignedFieldNames == JoinComma(FieldNames)
  {
    JoinCommaThree(TotalAmountField, TransactionUuidField, ProductCodeField);
  }

  lemma JoinCommaThree(a: string, b: string, c: string)
    ensures JoinComma([a, b, c]) == a + "," + (b + "," + c)
  {
    assert [b, c][1..] == [c];
    assert JoinComma([b, c]) == b + "," + JoinComma([c]);
    assert [a, b, c][1..] == [b, c];
    assert JoinComma([a, b, c]) == a + "," + JoinComma([b, c]);
  }

  lemma Regroup(h: string, a: string, r: string)
    ensures h + a + "," + r == h + (a + "," + r)
  {
  }

  /** Equal strings with a common prefix agree after it. */
  lemma CancelPrefix(h: string, s: string, t: string)
    requires h + s == h + t
    ensures s == t
  {
    assert s == (h + s)[|h|..];
    assert t == (h + t)[|h|..];
  }

  /** After a comma-free prefix, the first comma is the separator. */
  lemma FirstComma(a: string, x: string)
    requires ',' !in a
    ensures (a + "," + x)[|a|] == ','
    ensures forall i :: 0 <= i < |a| ==> (a + "," + x)[i] != ','
  {
    forall i | 0 <= i < |a|
      ensures (a + "," + x)[i] != ','
    {
      assert (a + "," + x)[i] == a[i];
    }
  }

  /** A prefix free of commas ends at the first comma. */
  lemma CommaFreePrefix(a: string, x: string, b: string, y: string)
    requires ',' !in a && ',' !in b
    requires a + "," + x == b + "," + y
    ensures a == b && x == y
  {
    FirstComma(a, x);
    FirstComma(b, y);
    assert |a| == |b|;
    assert a == (a + "," + x)[..|a|];
    assert b == (b + "," + y)[..|b|];
    assert x == (a + "," + x)[|a| + 1..];
    assert y == (b + "," + y)[|b| + 1..];
  }

  /** When the amount and the uuid hold no comma, the message determines
      all three signed values, so a signature over it binds each of them. */
  lemma SignatureMessageInjective(a1: string, u1: string, p1: string, a2: string, u2: string, p2: string)
    requires ',' !in a1 && ',' !in a2 && ',' !in u1 && ',' !in u2
    requires SignatureMessage(a1, u1, p1) == SignatureMessage(a2, u2, p2)
    ensures a1 == a2 && u1 == u2 && p1 == p2
  {
    var q1 := ProductCodeField + "=" + p1;
    var q2 := ProductCodeField + "=" + p2;
    var r1 := TransactionUuidField + "=" + u1 + "," + q1;
    var r2 := TransactionUuidField + "=" + u2 + "," + q2;
    var h, k := TotalAmountField + "=", TransactionUuidField + "=";
    Regroup(h, a1, r1);
    Regroup(h, a2, r2);
    CancelPrefix(h, a1 + "," + r1, a2 + "," + r2);
    CommaFreePrefix(a1, r1, a2, r2);
    Regroup(k, u1, q1);
    Regroup(k, u2, q2);
    CancelPrefix(k, u1 + "," + q1, u2 + "," + q2);
    CommaFreePrefix(u1, q1, u2, q2);
    CancelPrefix(ProductCodeField + "=", p1, p2);
  }

  /** A character the uuid keeps: `[a-zA-Z0-9-]`. */
  predicate UuidChar(c: char) {
    'a' <= c <= 'z' || 'A' <= c <= 'Z' || '0' <= c <= '9' || c == '-'
  }

  /** `id.replace(/[^a-zA-Z0-9-]/g, "")`: every other character removed,
      the kept ones in order. */
  function Sanitize(s: string): (r: string)
    ensures |r| <= |s|
    ensures forall i :: 0 <= i < |r| ==> UuidChar(r[i])
    ensures r == s <==> forall i :: 0 <= i < |s| ==> UuidChar(s[i])
  {
    if s == [] then []
    else
      var rest := Sanitize(s[1..]);
      assert (forall i :: 0 <= i < |s| ==> UuidChar(s[i])) <==>
             UuidChar(s[0]) && forall i :: 0 <= i < |s[1..]| ==> UuidChar(s[1..][i]) by {
        if forall i :: 0 <= i < |s[1..]| ==> UuidChar(s[1..][i]) {
          assert forall i :: 1 <= i < |s| ==> s[i] == s[1..][i - 1];
        }
      }
      (if UuidChar(s[0]) then [s[0]] else []) + rest
  }

  /** Sanitising is the `filter` of the kept characters, so the result is
      a subsequence of the id, and sanitising twice changes nothing more. */
  lemma {:induction false} SanitizeIsFilter(s: string)
    ensures Sanitize(s) == Seqs.Filter(s, UuidChar)
    ensures Seqs.IsSubsequence(Sanitize(s), s)
    ensures Sanitize(Sanitize(s)) == Sanitize(s)
  {
    if s != [] {
      SanitizeIsFilter(s[1..]);
    }
    Seqs.FilterIsSubsequence(s, UuidChar);
  }

  /** The transaction uuid of an order. */
  function TransactionUuid(orderId: string): (u: string)
    ensures |u| >= 6 && u[..6] == "order-"
    ensures forall i :: 0 <= i < |u| ==> UuidChar(u[i])
  {
    "order-" + Sanitize(orderId)
  }

  /** Does `pat` occur in `s` at position `k`? */
  predicate OccursAt(s: string, pat: string, k: int) {
    0 <= k && k + |pat| <= |s| && s[k..k + |pat|] == pat
  }

  /** The first position at or after `from` where `pat` occurs, or -1. */
  function FirstOccurrenceFrom(s: string, pat: string, from: nat): (k: int)
    ensures k == -1 || (from <= k && OccursAt(s, pat, k))
    ensures k == -1 ==> forall j :: from <= j ==> !OccursAt(s, pat, j)
    ensures k >= 0 ==> forall j :: from <= j < k ==> !OccursAt(s, pat, j)
    decreases |s| - from
  {
    if from + |pat| > |s| then -1
    else if s[from..from + |pat|] == pat then from
    else FirstOccurrenceFrom(s, pat, from + 1)
  }

  /** `s.replace(pat, "")` with a string pattern: only the first
      occurrence is removed. */
  function RemoveFirst(s: string, pat: string): (r: string)
    ensures FirstOccurrenceFrom(s, pat, 0) == -1 ==> r == s
    ensures FirstOccurrenceFrom(s, pat, 0) >= 0 ==> |r| == |s| - |pat|
  {
    var k := FirstOccurrenceFrom(s, pat, 0);
    if k < 0 then s else s[..k] + s[k + |pat|..]
  }

  /** The order id `/verify` looks up. */
  function RecoverOrderId(transactionUuid: string): string {
    RemoveFirst(transactionUuid, "order-")
  }

  /** Recovering the id from a uuid gives the sanitised id back, and the
      id itself exactly when no character had to be removed. */
  lemma UuidRoundTrip(orderId: string)
    ensures RecoverOrderId(TransactionUuid(orderId)) == Sanitize(orderId)
    ensures RecoverOrderId(TransactionUuid(orderId)) == orderId <==>
            forall i :: 0 <= i < |orderId| ==> UuidChar(orderId[i])
  {
    var u := TransactionUuid(orderId);
    assert OccursAt(u, "order-", 0);
    assert u[6..] == Sanitize(orderId);
  }

  /** What the decoded `response` carries; `None` is a missing key, which
      a template string renders as "undefined". */
  datatype Decoded = Decoded(transactionCode: Option<string>, status: Option<string>, totalAmount: Option<string>,
                             transactionUuid: Option<string>, productCode: Option<string>, signature: Option<string>)

  /** The `response` query parameter: absent, not base64-encoded JSON, or
      decoded. */
  datatype ResponseParam = NoResponse | Undecodable | Response(decoded: Decoded)

  datatype PaymentInfo = PaymentInfo(id: Option<string>, status: string, kind: string, signature: Option<string>,
                                     refId: Option<string>)

  /** The payment fields of a stored order. */
  datatype PaymentRecord = PaymentRecord(totalPrice: string, paymentStatus: string, paymentInfo: Option<PaymentInfo>)

  /** A JSON reply with a status code, a redirect, or an exception handed
      on to the error middleware. */
  datatype Outcome = Reply(code: int) | Redirect(url: string) | Raised

  function Render(field: Option<string>): string {
    if field.Some? then field.value else "undefined"
  }

  /** The signature `/verify` expects for a decoded response. */
  function ExpectedSignature(d: Decoded, sign: string -> string): string {
    sign(SignatureMessage(Render(d.totalAmount), Render(d.transactionUuid), Render(d.productCode)))
  }

  /** What `/verify` writes into a found order. */
  function Settle(rec: PaymentRecord, d: Decoded): (r: PaymentRecord)
    ensures r.totalPrice == rec.totalPrice
    ensures d.status == Some("COMPLETE") ==>
              r.paymentStatus == "Paid" && r.paymentInfo == Some(PaymentInfo(d.transactionCode, "Completed", "eSewa", d.signature, None))
    ensures d.status != Some("COMPLETE") ==> r.paymentStatus == "Failed" && r.paymentInfo == rec.paymentInfo
  {
    if d.status == Some("COMPLETE") then
      rec.(paymentStatus := "Paid", paymentInfo := Some(PaymentInfo(d.transactionCode, "Completed", "eSewa", d.signature, None)))
    else rec.(paymentStatus := "Failed")
  }

  /** The payment status `/status-check` records for an eSewa status. */
  function StatusFor(status: string): (r: string)
    ensures r in {"Paid", "Pending", "Failed"}
    ensures r == "Paid" <==> status == "COMPLETE"
    ensures r == "Pending" <==> status == "PENDING" || status == "AMBIGUOUS"
  {
    if status == "COMPLETE" then "Paid" else if status in ["PENDING", "AMBIGUOUS"] then "Pending" else "Failed"
  }

  /** The two routes agree on "COMPLETE" and on unknown statuses, but
      `/verify` records a pending or ambiguous payment as failed where
      `/status-check` records it as pending. */
  lemma VerifyAndStatusCheckAgreeExceptPending(rec: PaymentRecord, d: Decoded, status: string)
    requires d.status == Some(status)
    ensures Settle(rec, d).paymentStatus == StatusFor(status) <==> status != "PENDING" && status != "AMBIGUOUS"
  {
  }

  /** `/status-check` as written: `axios` is never imported, so for an
      existing order the call to the status endpoint raises before any
      status is mapped or saved. */
  function StatusCheckAsWritten(orderId: string, orders: map<string, PaymentRecord>): (o: Outcome)
    ensures !ObjectIds.IsObjectId(orderId) ==> o == Raised
    ensures ObjectIds.IsObjectId(orderId) && ObjectIds.Cast(orderId).value !in orders ==> o == Reply(404)
    ensures ObjectIds.IsObjectId(orderId) && ObjectIds.Cast(orderId).value in orders ==> o == Raised
  {
    if !ObjectIds.IsObjectId(orderId) then Raised
    else if ObjectIds.Cast(orderId).value !in orders then Reply(404)
    else Raised
  }

  /** For every stored order the as-written route never reaches the
      status mapping: no status value is ever answered with 200. */
  lemma StatusCheckAsWrittenNeverAnswers(orderId: string, orders: map<string, PaymentRecord>)
    ensures StatusCheckAsWritten(orderId, orders) != Reply(200)
  {
  }

  /** The payment fields of the stored orders, under the text of each
      order's id (24 lower-case digits); a route's id is cast before the
      lookup, so its case does not matter. */
  class PaymentLedger {
    var orders: map<string, PaymentRecord>

    constructor (records: map<string, PaymentRecord>)
      ensures orders == records
    {
      orders := records;
    }

    /** `/verify`: the three error replies and every exception leave the
        records as they were; a found order is settled. */
    method Verify(response: ResponseParam, sign: string -> string) returns (outcome: Outcome)
      modifies this
      ensures response.NoResponse? ==> outcome == Reply(400) && orders == old(orders)
      ensures response.Undecodable? ==> outcome == Redirect(ErrorUrl) && orders == old(orders)
      ensures response.Response? && response.decoded.signature != Some(ExpectedSignature(response.decoded, sign)) ==>
                outcome == Reply(400) && orders == old(orders)
      ensures response.Response? && response.decoded.signature == Some(ExpectedSignature(response.decoded, sign)) ==>
                var d := response.decoded;
                if d.transactionUuid.None? || !ObjectIds.IsObjectId(RecoverOrderId(d.transactionUuid.value)) then
                  outcome == Redirect(ErrorUrl) && orders == old(orders)
                else
                  var key := ObjectIds.Cast(RecoverOrderId(d.transactionUuid.value)).value;
                  if key !in old(orders) then outcome == Reply(404) && orders == old(orders)
                  else
                    orders == old(orders)[key := Settle(old(orders)[key], d)] &&
                    outcome == Redirect(if d.status == Some("COMPLETE") then SuccessUrl else FailureUrl)
    {
      if response.NoResponse? {
        return Reply(400);
      }
      if response.Undecodable? {
        return Redirect(ErrorUrl);
      }
      var d := response.decoded;
      var expected := sign(SignatureMessage(Render(d.totalAmount), Render(d.transactionUuid), Render(d.productCode)));
      if d.signature != Some(expected) {
        return Reply(400);
      }
      if d.transactionUuid.None? {
        return Redirect(ErrorUrl);
      }
      var key := ObjectIds.Cast(RecoverOrderId(d.transactionUuid.value));
      if key.None? {
        return Redirect(ErrorUrl);
      }
      if key.value !in orders {
        return Reply(404);
      }
      orders := orders[key.value := Settle(orders[key.value], d)];
      outcome := Redirect(if d.status == Some("COMPLETE") then SuccessUrl else FailureUrl);
    }

    /** `/status-check` with the eSewa status reply passed in: the status
        is mapped and saved, and a "COMPLETE" reply also records the
        reference id, which raises (saving nothing) when the order has no
        payment information yet. */
    method StatusCheck(orderId: string, status: string, refId: Option<string>) returns (outcome: Outcome)
      modifies this
      ensures !ObjectIds.IsObjectId(orderId) ==> outcome == Raised && orders == old(orders)
      ensures ObjectIds.IsObjectId(orderId) && ObjectIds.Cast(orderId).value !in old(orders) ==>
                outcome == Reply(404) && orders == old(orders)
      ensures ObjectIds.IsObjectId(orderId) && ObjectIds.Cast(orderId).value in old(orders) ==>
                var key := ObjectIds.Cast(orderId).value;
                var rec := old(orders)[key];
                if status == "COMPLETE" && rec.paymentInfo.None? then outcome == Raised && orders == old(orders)
                else
                  outcome == Reply(200) &&
                  orders == old(orders)[key := rec.(paymentStatus := StatusFor(status),
                                                        paymentInfo := if status == "COMPLETE" then Some(rec.paymentInfo.value.(refId := refId))
                                                                       else rec.paymentInfo)]
    {
      var key := ObjectIds.Cast(orderId);
      if key.None? {
        return Raised;
      }
      if key.value !in orders {
        return Reply(404);
      }
      var rec := orders[key.value];
      if status == "COMPLETE" {
        if rec.paymentInfo.None? {
          return Raised;
        }
        rec := rec.(paymentStatus := "Paid", paymentInfo := Some(rec.paymentInfo.value.(refId := refId)));
      } else if status == "PENDING" || status == "AMBIGUOUS" {
        rec := rec.(paymentStatus := "Pending");
      } else {
        rec := rec.(paymentStatus := "Failed");
      }
      orders := orders[key.value := rec];
      outcome := Reply(200);
    }
  }
}
