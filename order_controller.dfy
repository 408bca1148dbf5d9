/**
 * Order handlers: creation from a submission, lookup, the revenue total for
 * the administrator, the status update with its stock side effect, and the
 * guarded delete.
 */
module OrderController {
  import opened Wrappers
  import opened Models
  import Store
  import Lists

  /* ---------------- creation ---------------- */

  /**
   * The stored record for a submission: items, addresses and all four prices
   * exactly as the client sent them, paid `now`, owned by the requester.
   * `initialStatus` stands for the schema default of `orderStatus`.
   */
  function NewOrder(sub: OrderSubmission, id: Id, initialStatus: string, now: int, user: Id): (o: Order)
    ensures o.id == id && o.user == user && o.paidAt == now
    ensures o.orderStatus == initialStatus && o.deliveredAt == None
  {
    Order(id, sub.shippingInfo, sub.orderItems, sub.paymentInfo,
          sub.itemsPrice, sub.taxPrice, sub.shippingPrice, sub.totalPrice,
          initialStatus, now, None, user)
  }

  /** The submitted part of a stored order. */
  function SubmissionOf(o: Order): OrderSubmission {
    OrderSubmission(o.shippingInfo, o.orderItems, o.paymentInfo,
                    o.itemsPrice, o.taxPrice, o.shippingPrice, o.totalPrice)
  }

  /** Nothing the client submitted is recomputed or dropped. */
  lemma NewOrderKeepsSubmission(sub: OrderSubmission, id: Id, initialStatus: string, now: int, user: Id)
    ensures SubmissionOf(NewOrder(sub, id, initialStatus, now, user)) == sub
  {
  }

  /** `createNewOrder`: insert the record under a fresh id and answer it. */
  method CreateNewOrder(db: Store.Database, sub: OrderSubmission, id: Id, initialStatus: string, now: int, user: Id)
    returns (r: Result<Order>)
    requires id !in db.orders
    modifies db
    ensures r == Ok(NewOrder(sub, id, initialStatus, now, user))
    ensures db.orders == old(db.orders)[id := r.value] && db.products == old(db.products)
  {
    var order := NewOrder(sub, id, initialStatus, now, user);
    db.orders := db.orders[id := order];
    r := Ok(order);
  }

  /* ---------------- lookup ---------------- */

  /** `getSingleOrder`; the populated user fields are not modelled. */
  function GetSingleOrder(orders: map<Id, Order>, id: Id): (r: Result<Order>)
    ensures id !in orders <==> r == Err(404, "Order not found")
    ensures id in orders ==> r == Ok(orders[id])
  {
    if id !in orders then Err(404, "Order not found") else Ok(orders[id])
  }

  /* ---------------- revenue ---------------- */

  /** The sum of `totalPrice` over a listing, added front to back. */
  function ListTotal(orders: seq<Order>): real {
    if |orders| == 0 then 0.0 else ListTotal(orders[..|orders| - 1]) + orders[|orders| - 1].totalPrice
  }

  /** The sum of `totalPrice` over the whole collection, taken in no particular order. */
  ghost function MapTotal(m: map<Id, Order>): real
    decreases |m|
  {
    if |m| == 0 then 0.0
    else
      var k := SomeKey(m);
      m[k].totalPrice + MapTotal(m - {k})
  }

  /** An arbitrary stored id. */
  ghost function SomeKey(m: map<Id, Order>): (k: Id)
    requires |m| > 0
    ensures k in m
  {
    assert m.Keys != {};
    var k :| k in m.Keys; k
  }

  /** Any order can be taken out first: the total does not depend on the order of summation. */
  lemma {:induction false} MapTotalRemove(m: map<Id, Order>, k: Id)
    requires k in m
    ensures MapTotal(m) == m[k].totalPrice + MapTotal(m - {k})
    decreases |m|
  {
    var j := SomeKey(m);
    if j != k {
      var mj, mk := m - {j}, m - {k};
      assert k in mj && j in mk;
      MapTotalRemove(mj, k);
      MapTotalRemove(mk, j);
      assert mj - {k} == mk - {j};
    }
  }

  /** Creating an order raises the revenue by exactly its submitted total. */
  lemma MapTotalInsert(m: map<Id, Order>, k: Id, o: Order)
    requires k !in m
    ensures MapTotal(m[k := o]) == MapTotal(m) + o.totalPrice
  {
    MapTotalRemove(m[k := o], k);
    assert m[k := o] - {k} == m;
  }

  /**
   * The state of the `getAllOrders` loop: `rest` holds the orders not yet
   * visited, and `orders` lists every visited one once, read from `ids`.
   */
  ghost predicate Listing(all: map<Id, Order>, rest: map<Id, Order>, orders: seq<Order>, ids: seq<Id>)
  {
    && rest.Keys <= all.Keys
    && (forall k :: k in rest ==> rest[k] == all[k])
    && |ids| == |orders| && |orders| + |rest| == |all|
    && (forall i, j :: 0 <= i < j < |ids| ==> ids[i] != ids[j])
    && (forall i :: 0 <= i < |ids| ==> ids[i] in all && ids[i] !in rest && orders[i] == all[ids[i]])
    && (forall k :: k in all && k !in rest ==> k in ids)
  }

  /** Visiting one more order keeps the listing state. */
  lemma ListingStep(all: map<Id, Order>, rest: map<Id, Order>, orders: seq<Order>, ids: seq<Id>, k: Id)
    requires Listing(all, rest, orders, ids) && k in rest
    ensures Listing(all, rest - {k}, orders + [rest[k]], ids + [k])
  {
    assert forall i :: 0 <= i < |ids| ==> ids[i] != k;
    assert forall i :: 0 <= i < |ids| ==> (ids + [k])[i] == ids[i] && (orders + [rest[k]])[i] == orders[i];
  }

  /** Once nothing is left, every stored order is listed exactly once. */
  lemma ListingDone(all: map<Id, Order>, orders: seq<Order>, ids: seq<Id>)
    requires Listing(all, map[], orders, ids)
    ensures forall k :: k in all <==> k in ids
    ensures forall k :: k in all ==> all[k] in orders
  {
    forall k | k in all ensures all[k] in orders {
      var i :| 0 <= i < |ids| && ids[i] == k;
      assert orders[i] == all[k];
    }
  }

  /**
   * `getAllOrders`: list every stored order once and add up their totals in
   * the `forEach` loop. The listing order is whatever the store yields;
   * `ids` names the stored id each listed order was read from.
   */
  method GetAllOrders(db: Store.Database) returns (orders: seq<Order>, totalAmount: real, ghost ids: seq<Id>)
    ensures |ids| == |orders| == |db.orders|
    ensures forall i, j :: 0 <= i < j < |ids| ==> ids[i] != ids[j]
    ensures forall k :: k in db.orders <==> k in ids
    ensures forall i :: 0 <= i < |ids| ==> ids[i] in db.orders && orders[i] == db.orders[ids[i]]
    ensures forall k :: k in db.orders ==> db.orders[k] in orders
    ensures totalAmount == ListTotal(orders)
    ensures totalAmount == MapTotal(db.orders)
  {
    orders := [];
    totalAmount := 0.0;
    ids := [];
    var rest := db.orders;
    while |rest| > 0
      invariant Listing(db.orders, rest, orders, ids)
      invariant totalAmount == ListTotal(orders)
      invariant totalAmount + MapTotal(rest) == MapTotal(db.orders)
      decreases |rest|
    {
      var k :| k in rest;
      MapTotalRemove(rest, k);
      ListingStep(db.orders, rest, orders, ids, k);
      var o := rest[k];
      assert (orders + [o])[..|orders|] == orders;
      orders := orders + [o];
      ids := ids + [k];
      totalAmount := totalAmount + o.totalPrice;
      rest := rest - {k};
    }
    assert rest == map[];
    ListingDone(db.orders, orders, ids);
  }

  /* ---------------- status update ---------------- */

  /** The order after a status update the guard let through. */
  function WithStatus(o: Order, status: string, now: int): (q: Order)
    ensures q.orderStatus == status
    ensures status == Delivered ==> q.deliveredAt == Some(now)
    ensures status != Delivered ==> q.deliveredAt == o.deliveredAt
    ensures q.(orderStatus := o.orderStatus, deliveredAt := o.deliveredAt) == o
  {
    o.(orderStatus := status, deliveredAt := if status == Delivered then Some(now) else o.deliveredAt)
  }

  /** A delivery date is only ever present on a delivered order. */
  predicate DeliveryConsistent(o: Order) {
    o.deliveredAt.Some? ==> o.orderStatus == Delivered
  }

  /** A freshly created order carries no delivery date. */
  lemma NewOrderConsistent(sub: OrderSubmission, id: Id, initialStatus: string, now: int, user: Id)
    ensures DeliveryConsistent(NewOrder(sub, id, initialStatus, now, user))
  {
  }

  /** Updating a not yet delivered order keeps "delivery date ⇒ Delivered". */
  lemma WithStatusConsistent(o: Order, status: string, now: int)
    requires DeliveryConsistent(o) && o.orderStatus != Delivered
    ensures DeliveryConsistent(WithStatus(o, status, now))
    ensures WithStatus(o, status, now).deliveredAt.Some? <==> status == Delivered
  {
  }

  /** Every line item refers to a stored product. */
  predicate AllStocked(products: map<Id, Product>, items: seq<OrderItem>) {
    forall i :: 0 <= i < |items| ==> items[i].product in products
  }

  /** The total quantity that `items` order of product `id`. */
  function QuantityFor(items: seq<OrderItem>, id: Id): int {
    if |items| == 0 then 0
    else
      var last := items[|items| - 1];
      QuantityFor(items[..|items| - 1], id) + (if last.product == id then last.quantity else 0)
  }

  /** `product.stock -= quantity`, with no floor. */
  function Decrement(products: map<Id, Product>, id: Id, quantity: int): (r: map<Id, Product>)
    requires id in products
    ensures r.Keys == products.Keys
    ensures r[id].stock == products[id].stock - quantity
    ensures r[id].(stock := products[id].stock) == products[id]
    ensures forall k :: k in products && k != id ==> r[k] == products[k]
  {
    products[id := products[id].(stock := products[id].stock - quantity)]
  }

  /**
   * The stock decrements of `items`, applied one after the other. Every
   * product loses the total quantity ordered of it and nothing else changes.
   */
  function DecrementAll(products: map<Id, Product>, items: seq<OrderItem>): (r: map<Id, Product>)
    requires AllStocked(products, items)
    ensures r.Keys == products.Keys
    ensures forall id :: id in products ==>
      r[id] == products[id].(stock := products[id].stock - QuantityFor(items, id))
  {
    if |items| == 0 then products
    else
      var n := |items| - 1;
      var before := DecrementAll(products, items[..n]);
      Decrement(before, items[n].product, items[n].quantity)
  }

  /** The test each `updateQuantity` call makes first: is the line item's product stored? */
  function InStore(products: map<Id, Product>): OrderItem -> bool {
    (it: OrderItem) => it.product in products
  }

  /** The line items whose product is stored, in order: the calls that reach the decrement. */
  function Stocked(products: map<Id, Product>, items: seq<OrderItem>): (r: seq<OrderItem>)
    ensures AllStocked(products, r)
    ensures forall x :: x in r <==> x in items && x.product in products
    ensures AllStocked(products, items) ==> r == items
  {
    var r := Lists.Filter(items, InStore(products));
    assert forall i :: 0 <= i < |r| ==> r[i] in r;
    if AllStocked(products, items) then
      Lists.FilterAll(items, InStore(products));
      r
    else r
  }

  /** One more line item adds itself to the stocked ones exactly when its product is stored. */
  lemma StockedStep(products: map<Id, Product>, items: seq<OrderItem>, i: nat)
    requires i < |items|
    ensures Stocked(products, items[..i + 1]) ==
      Stocked(products, items[..i]) + (if items[i].product in products then [items[i]] else [])
  {
    var x := items[i];
    assert items[..i + 1] == items[..i] + [x];
    Lists.FilterAppend(items[..i], [x], InStore(products));
    assert [x][1..] == [];
  }

  /** The items up to `i` are all stocked exactly when those before it are and its own product is stored. */
  lemma AllStockedStep(products: map<Id, Product>, items: seq<OrderItem>, i: nat)
    requires i < |items|
    ensures AllStocked(products, items[..i + 1]) <==> AllStocked(products, items[..i]) && items[i].product in products
  {
    assert forall j :: 0 <= j < i ==> items[..i + 1][j] == items[..i][j];
    assert items[..i + 1][i] == items[i];
  }

  /** Decrementing one more stocked line item is one more `Decrement`, applied last. */
  lemma DecrementAllAppend(products: map<Id, Product>, done: seq<OrderItem>, x: OrderItem)
    requires AllStocked(products, done) && x.product in products
    ensures AllStocked(products, done + [x])
    ensures DecrementAll(products, done + [x]) ==
      Decrement(DecrementAll(products, done), x.product, x.quantity)
  {
    assert forall i :: 0 <= i < |done| ==> (done + [x])[i] == done[i];
    assert (done + [x])[..|done|] == done;
  }

  /**
   * `updateQuantity`. A missing product reaches `next(...)`, which is not in
   * scope there, so the call throws the runtime error that the error
   * middleware answers with status 500.
   */
  method UpdateQuantity(db: Store.Database, id: Id, quantity: int) returns (r: Result<()>)
    modifies db
    ensures db.orders == old(db.orders)
    ensures id !in old(db.products) ==>
      r == Err(500, "next is not defined") && db.products == old(db.products)
    ensures id in old(db.products) ==>
      r == Ok(()) && db.products == Decrement(old(db.products), id, quantity)
  {
    if id !in db.products {
      return Err(500, "next is not defined");
    }
    var product := db.products[id];
    product := product.(stock := product.stock - quantity);
    db.products := db.products[id := product];
    r := Ok(());
  }

  /**
   * The `updateQuantity` calls that `Promise.all` waits for, one per line
   * item. Every call is started before any is awaited, and a failing call
   * does not stop the others: each line item whose product is stored is
   * decremented, and the whole fails when any product is missing. The calls
   * run here one after the other, in item order.
   */
  method DecrementItems(db: Store.Database, items: seq<OrderItem>) returns (r: Result<()>)
    modifies db
    ensures db.orders == old(db.orders)
    ensures db.products == DecrementAll(old(db.products), Stocked(old(db.products), items))
    ensures r.Ok? <==> AllStocked(old(db.products), items)
    ensures r.Err? ==> r == Err(500, "next is not defined")
    ensures r.Ok? ==> r == Ok(()) && db.products == DecrementAll(old(db.products), items)
  {
    r := Ok(());
    var i := 0;
    while i < |items|
      invariant 0 <= i <= |items|
      invariant db.orders == old(db.orders)
      invariant db.products == DecrementAll(old(db.products), Stocked(old(db.products), items[..i]))
      invariant r.Ok? <==> AllStocked(old(db.products), items[..i])
      invariant r.Err? ==> r == Err(500, "next is not defined")
      invariant r.Ok? ==> r == Ok(())
    {
      ghost var done := Stocked(old(db.products), items[..i]);
      StockedStep(old(db.products), items, i);
      AllStockedStep(old(db.products), items, i);
      var res := UpdateQuantity(db, items[i].product, items[i].quantity);
      if res.Err? {
        assert Stocked(old(db.products), items[..i + 1]) == done;
        r := res;
      } else {
        DecrementAllAppend(old(db.products), done, items[i]);
        assert Stocked(old(db.products), items[..i + 1]) == done + [items[i]];
      }
      i := i + 1;
    }
    assert items[..i] == items;
  }

  /**
   * `updateOrderStatus`. The line items' decrements run first; a missing
   * product fails the request after the other decrements and before the
   * order is saved.
   */
  method UpdateOrderStatus(db: Store.Database, id: Id, status: string, now: int) returns (r: Result<Order>)
    modifies db
    ensures id !in old(db.orders) ==>
      r == Err(404, "Order not found") && db.orders == old(db.orders) && db.products == old(db.products)
    ensures id in old(db.orders) && old(db.orders)[id].orderStatus == Delivered ==>
      r == Err(400, " Have already delivered this order") &&
      db.orders == old(db.orders) && db.products == old(db.products)
    ensures id in old(db.orders) && old(db.orders)[id].orderStatus != Delivered ==>
      var items := old(db.orders)[id].orderItems;
      db.products == DecrementAll(old(db.products), Stocked(old(db.products), items)) &&
      (!AllStocked(old(db.products), items) ==>
         r == Err(500, "next is not defined") && db.orders == old(db.orders)) &&
      (AllStocked(old(db.products), items) ==>
         r == Ok(WithStatus(old(db.orders)[id], status, now)) &&
         db.orders == old(db.orders)[id := r.value] &&
         db.products == DecrementAll(old(db.products), items))
  {
    if id !in db.orders {
      return Err(404, "Order not found");
    }
    var order := db.orders[id];
    if order.orderStatus == Delivered {
      return Err(400, " Have already delivered this order");
    }
    var res := DecrementItems(db, order.orderItems);
    if res.Err? {
      return Err(res.status, res.message);
    }
    order := WithStatus(order, status, now);
    db.orders := db.orders[id := order];
    r := Ok(order);
  }

  /**
   * A missing product does not hold back the others: with a line item for a
   * missing product A before one of B (stock 5), the update fails and B
   * still ends at 4.
   */
  lemma MissingProductHoldsBackNothing(b: Product)
    requires b.id == "B" && b.stock == 5
    ensures var items := [OrderItem("A", "", 0.0, "", 1), OrderItem("B", b.name, b.price, "", 1)];
      var products := map["B" := b];
      !AllStocked(products, items) && DecrementAll(products, Stocked(products, items))["B"].stock == 4
  {
    var items := [OrderItem("A", "", 0.0, "", 1), OrderItem("B", b.name, b.price, "", 1)];
    var products := map["B" := b];
    assert items[1..][1..] == [];
    assert Stocked(products, items) == [items[1]];
    assert [items[1]][..0] == [];
  }

  /**
   * Two line items, two of X (stock 5) and one of Y (stock 0): X ends at 3
   * and Y at -1, since the decrement has no floor.
   */
  lemma StockGoesNegative(x: Product, y: Product)
    requires x.id == "X" && y.id == "Y" && x.stock == 5 && y.stock == 0
    ensures var items := [OrderItem("X", x.name, x.price, "", 2), OrderItem("Y", y.name, y.price, "", 1)];
      var after := DecrementAll(map["X" := x, "Y" := y], items);
      after["X"].stock == 3 && after["Y"].stock == -1
  {
    var items := [OrderItem("X", x.name, x.price, "", 2), OrderItem("Y", y.name, y.price, "", 1)];
    assert items[..1] == [items[0]] && items[..1][..0] == [];
  }

  /* ---------------- delete ---------------- */

  /** `deleteOrder`: only a delivered order may be removed. */
  method DeleteOrder(db: Store.Database, id: Id) returns (r: Result<string>)
    modifies db
    ensures db.products == old(db.products)
    ensures id !in old(db.orders) ==> r == Err(404, "Order not found") && db.orders == old(db.orders)
    ensures id in old(db.orders) && old(db.orders)[id].orderStatus != Delivered ==>
      r == Err(400, "This order is not delivered yet") && db.orders == old(db.orders)
    ensures id in old(db.orders) && old(db.orders)[id].orderStatus == Delivered ==>
      r == Ok("Order deleted successfully") && db.orders == old(db.orders) - {id}
  {
    if id !in db.orders {
      return Err(404, "Order not found");
    }
    if db.orders[id].orderStatus != Delivered {
      return Err(400, "This order is not delivered yet");
    }
    db.orders := db.orders - {id};
    r := Ok("Order deleted successfully");
  }

  /** Deleting an order lowers the revenue by exactly its total. */
  lemma MapTotalDelete(m: map<Id, Order>, k: Id)
    requires k in m
    ensures MapTotal(m - {k}) == MapTotal(m) - m[k].totalPrice
  {
    MapTotalRemove(m, k);
  }
}
