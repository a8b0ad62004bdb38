/** `orderReducer` of frontend/src/redux/reducers/order.js. The Immer
    handlers assign fields of the draft state in place, so the store is a
    class whose handlers are methods that modify only the fields the
    handler assigns. Fields the initial state lacks start as `None`. */
module OrderReducer {
  import opened Basics

  /** An order as the client keeps it: its `_id`, its `status`, and the
      rest of the document, carried along untouched. */
  datatype Order = Order(id: string, status: string, body: string)

  /** The first position whose order has this id, or -1 (`findIndex`). */
  method FindOrderIndex(orders: seq<Order>, orderId: string) returns (k: int)
    ensures -1 <= k < |orders|
    ensures k >= 0 ==> orders[k].id == orderId && forall j :: 0 <= j < k ==> orders[j].id != orderId
    ensures k == -1 ==> forall j :: 0 <= j < |orders| ==> orders[j].id != orderId
  {
    k := 0;
    while k < |orders|
      invariant 0 <= k <= |orders|
      invariant forall j :: 0 <= j < k ==> orders[j].id != orderId
    {
      if orders[k].id == orderId {
        return;
      }
      k := k + 1;
    }
    k := -1;
  }

  /** The list after `updateOrderStatus`: the first order with the id
      gets the new status. */
  ghost function PatchFirst(orders: seq<Order>, orderId: string, status: string): (r: seq<Order>)
  {
    if orders == [] then []
    else if orders[0].id == orderId then [orders[0].(status := status)] + orders[1..]
    else [orders[0]] + PatchFirst(orders[1..], orderId, status)
  }

  /** Only the first order with the id changes, and only its status;
      with no such order the list is unchanged. */
  lemma {:induction false} PatchFirstChangesOnlyFirstMatch(orders: seq<Order>, orderId: string, status: string, k: int)
    requires -1 <= k < |orders|
    requires k >= 0 ==> orders[k].id == orderId && forall j :: 0 <= j < k ==> orders[j].id != orderId
    requires k == -1 ==> forall j :: 0 <= j < |orders| ==> orders[j].id != orderId
    ensures k == -1 ==> PatchFirst(orders, orderId, status) == orders
    ensures k >= 0 ==> PatchFirst(orders, orderId, status) == orders[k := orders[k].(status := status)]
  {
    if orders != [] && orders[0].id != orderId {
      PatchFirstChangesOnlyFirstMatch(orders[1..], orderId, status, if k == -1 then -1 else k - 1);
      if k >= 0 {
        assert orders[k := orders[k].(status := status)] == [orders[0]] + orders[1..][k - 1 := orders[k].(status := status)];
      } else {
        assert orders == [orders[0]] + orders[1..];
      }
    }
  }

  class OrderStore {
    var isLoading: bool
    var orders: Option<seq<Order>>
    var adminOrderLoading: Option<bool>
    var adminOrders: Option<seq<Order>>
    var error: Option<string>

    constructor ()
      ensures isLoading && orders == None && adminOrderLoading == None && adminOrders == None && error == None
    {
      isLoading := true;
      orders := None;
      adminOrderLoading := None;
      adminOrders := None;
      error := None;
    }

    /** `getAllOrdersUserRequest` and `getAllOrdersShopRequest`. */
    method OrdersRequest()
      modifies this`isLoading
      ensures isLoading
    {
      isLoading := true;
    }

    /** `getAllOrdersUserSuccess` and `getAllOrdersShopSuccess`. */
    method OrdersSuccess(payload: seq<Order>)
      modifies this`isLoading, this`orders
      ensures !isLoading && orders == Some(payload)
    {
      isLoading := false;
      orders := Some(payload);
    }

    /** `getAllOrdersUserFailed` and `getAllOrdersShopFailed`. */
    method OrdersFailed(e: string)
      modifies this`isLoading, this`error
      ensures !isLoading && error == Some(e)
    {
      isLoading := false;
      error := Some(e);
    }

    method AdminOrdersRequest()
      modifies this`adminOrderLoading
      ensures adminOrderLoading == Some(true)
    {
      adminOrderLoading := Some(true);
    }

    method AdminOrdersSuccess(payload: seq<Order>)
      modifies this`adminOrderLoading, this`adminOrders
      ensures adminOrderLoading == Some(false) && adminOrders == Some(payload)
    {
      adminOrderLoading := Some(false);
      adminOrders := Some(payload);
    }

    method AdminOrdersFailed(e: string)
      modifies this`adminOrderLoading, this`error
      ensures adminOrderLoading == Some(false) && error == Some(e)
    {
      adminOrderLoading := Some(false);
      error := Some(e);
    }

    /** Patches the status of the first order with the id, in place; a
        no-op when no list is loaded or no order matches. */
    method UpdateOrderStatus(orderId: string, status: string)
      modifies this`orders
      ensures old(orders).None? ==> orders == None
      ensures old(orders).Some? ==> orders == Some(PatchFirst(old(orders).value, orderId, status))
    {
      if orders.Some? {
        var list := orders.value;
        var k := FindOrderIndex(list, orderId);
        PatchFirstChangesOnlyFirstMatch(list, orderId, status, k);
        if k != -1 {
          orders := Some(list[k := list[k].(status := status)]);
        }
      }
    }

    /** Resets `error` (to null) and nothing else. */
    method ClearErrors()
      modifies this`error
      ensures error == None
    {
      error := None;
    }
  }
}
