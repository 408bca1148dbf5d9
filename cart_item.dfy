/**
 * The controls of one cart row: the guarded quantity steps, the remove
 * request and the displayed line total.
 */
module CartItemControls {
  import opened Wrappers
  import opened Models

  /** What a control dispatches to the cart store. */
  datatype CartRequest = AddToCart(product: Id, quantity: int) | RemoveFromCart(product: Id)

  /** `increaseQty`: ask for one more, unless the row already holds the whole stock. */
  function IncreaseQty(item: CartItem): (r: Option<CartRequest>)
    ensures r.Some? <==> item.quantity < item.stock
    ensures r.Some? ==> r.value == AddToCart(item.product, item.quantity + 1)
  {
    if item.stock <= item.quantity then None else Some(AddToCart(item.product, item.quantity + 1))
  }

  /** `decreaseQty`: ask for one fewer, unless the row holds a single unit. */
  function DecreaseQty(item: CartItem): (r: Option<CartRequest>)
    ensures r.Some? <==> item.quantity > 1
    ensures r.Some? ==> r.value == AddToCart(item.product, item.quantity - 1)
  {
    if item.quantity <= 1 then None else Some(AddToCart(item.product, item.quantity - 1))
  }

  /** `removeHandler`: drop the row by its product id. */
  function RemoveRequest(item: CartItem): (r: CartRequest)
    ensures r.RemoveFromCart? && r.product == item.product
  {
    RemoveFromCart(item.product)
  }

  /** The row's displayed total, before `toFixed(2)`. */
  function LineTotal(item: CartItem): real {
    item.price * (item.quantity as real)
  }

  /**
   * From a quantity within `[1, stock]`, every quantity a step asks for is
   * again within `[1, stock]`, and it always refers to the same product.
   */
  lemma StepsStayInStock(item: CartItem)
    requires 1 <= item.quantity <= item.stock
    ensures var up := IncreaseQty(item);
      up.Some? ==> up.value.product == item.product && 1 <= up.value.quantity <= item.stock
    ensures var down := DecreaseQty(item);
      down.Some? ==> down.value.product == item.product && 1 <= down.value.quantity <= item.stock
  {
  }

  /** A step that is refused leaves the row at the edge of the range. */
  lemma RefusedStepsAtTheEdge(item: CartItem)
    requires 1 <= item.quantity <= item.stock
    ensures IncreaseQty(item).None? ==> item.quantity == item.stock
    ensures DecreaseQty(item).None? ==> item.quantity == 1
  {
  }
}
