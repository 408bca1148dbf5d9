/** The storefront's order store: the listed orders, the open order, the revenue figure and the flags. */
module OrderSlice {
  import opened Wrappers
  import opened Models
  import Lists

  function OrderId(o: Order): Id { o.id }

  class OrderState {
    var orders: seq<Order>
    var order: Option<Order>
    var loading: bool
    var error: Option<string>
    var success: bool
    var message: Option<string>
    var totalAmount: real

    constructor ()
      ensures orders == [] && order == None && !loading && error == None && !success
      ensures message == None && totalAmount == 0.0
    {
      orders := [];
      order := None;
      loading := false;
      error := None;
      success := false;
      message := None;
      totalAmount := 0.0;
    }

    /** Every `pending` case. */
    method Pending()
      modifies this
      ensures loading && error == None
      ensures orders == old(orders) && order == old(order) && success == old(success)
      ensures message == old(message) && totalAmount == old(totalAmount)
    {
      loading := true;
      error := None;
    }

    /** Every `rejected` case: the lists are untouched. */
    method Rejected(payload: string)
      modifies this
      ensures !loading && error == Some(payload)
      ensures orders == old(orders) && order == old(order) && success == old(success)
      ensures message == old(message) && totalAmount == old(totalAmount)
    {
      loading := false;
      error := Some(payload);
    }

    /** `getMyOrders.fulfilled`. */
    method MyOrdersFulfilled(answer: seq<Order>)
      modifies this
      ensures !loading && orders == answer
      ensures order == old(order) && error == old(error) && success == old(success)
      ensures message == old(message) && totalAmount == old(totalAmount)
    {
      loading := false;
      orders := answer;
    }

    /** `getSingleOrder.fulfilled`. */
    method SingleOrderFulfilled(answer: Order)
      modifies this
      ensures !loading && order == Some(answer)
      ensures orders == old(orders) && error == old(error) && success == old(success)
      ensures message == old(message) && totalAmount == old(totalAmount)
    {
      loading := false;
      order := Some(answer);
    }

    /** `getAllOrders.fulfilled`: both the list and the revenue come from the answer. */
    method AllOrdersFulfilled(answer: seq<Order>, answerTotal: real)
      modifies this
      ensures !loading && orders == answer && totalAmount == answerTotal
      ensures order == old(order) && error == old(error) && success == old(success) && message == old(message)
    {
      loading := false;
      orders := answer;
      totalAmount := answerTotal;
    }

    /** `updateOrderStatus.fulfilled`: the listed order with that id is replaced. */
    method UpdateStatusFulfilled(answer: Order)
      modifies this
      ensures !loading && success && message == Some("Order status updated!")
      ensures orders == Lists.ReplaceFirst(old(orders), OrderId, answer)
      ensures order == old(order) && error == old(error) && totalAmount == old(totalAmount)
    {
      loading := false;
      success := true;
      message := Some("Order status updated!");
      var idx := Lists.FindIndex(orders, OrderId, answer.id);
      if idx != -1 {
        orders := orders[idx := answer];
      }
    }

    /** `deleteOrder.fulfilled`: the orders with that id are dropped. */
    method DeleteOrderFulfilled(id: Id)
      modifies this
      ensures !loading && success && message == Some("Order deleted!")
      ensures orders == Lists.Without(old(orders), OrderId, id)
      ensures order == old(order) && error == old(error) && totalAmount == old(totalAmount)
    {
      loading := false;
      success := true;
      message := Some("Order deleted!");
      orders := Lists.Without(orders, OrderId, id);
    }

    /** `removeErrors`. */
    method RemoveErrors()
      modifies this
      ensures error == None
      ensures orders == old(orders) && order == old(order) && loading == old(loading)
      ensures success == old(success) && message == old(message) && totalAmount == old(totalAmount)
    {
      error := None;
    }

    /** `removeSuccess`. */
    method RemoveSuccess()
      modifies this
      ensures !success && message == None
      ensures orders == old(orders) && order == old(order) && loading == old(loading)
      ensures error == old(error) && totalAmount == old(totalAmount)
    {
      success := false;
      message := None;
    }
  }
}
