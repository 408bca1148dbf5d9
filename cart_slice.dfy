/**
 * The cart store: the list of cart entries, the request flags, and the
 * shipping address, with the entries and the address written through to
 * browser storage after each change.
 */
module CartSlice {
  import opened Wrappers
  import opened Models
  import Lists
  import BrowserStorage

  function CartProduct(item: CartItem): Id { item.product }

  /** The entries read at start-up: the stored list, or none. */
  function LoadCart(items: map<string, BrowserStorage.Stored>): (r: seq<CartItem>)
    ensures BrowserStorage.CartKey in items && items[BrowserStorage.CartKey].StoredCart? ==>
      r == items[BrowserStorage.CartKey].items
    ensures !(BrowserStorage.CartKey in items && items[BrowserStorage.CartKey].StoredCart?) ==> r == []
  {
    if BrowserStorage.CartKey in items && items[BrowserStorage.CartKey].StoredCart?
    then items[BrowserStorage.CartKey].items else []
  }

  /** The address read at start-up: the stored one, or the empty object. */
  function LoadShipping(items: map<string, BrowserStorage.Stored>): ShippingInfo {
    if BrowserStorage.ShippingKey in items && items[BrowserStorage.ShippingKey].StoredShipping?
    then items[BrowserStorage.ShippingKey].info else ShippingInfo(map[])
  }

  /**
   * The entries after a successful add: an entry for the same product takes
   * the new quantity and keeps its other fields; a new product goes last.
   */
  function UpsertCartItem(items: seq<CartItem>, item: CartItem): (r: seq<CartItem>)
    ensures var idx := Lists.FindIndex(items, CartProduct, item.product);
      (idx == -1 ==> r == items + [item]) &&
      (idx != -1 ==> |r| == |items| && r[idx] == items[idx].(quantity := item.quantity) &&
                     forall i :: 0 <= i < |items| && i != idx ==> r[i] == items[i])
  {
    var idx := Lists.FindIndex(items, CartProduct, item.product);
    if idx == -1 then items + [item] else items[idx := items[idx].(quantity := item.quantity)]
  }

  /** Adding keeps one entry per product, and the product then has an entry with the requested quantity. */
  lemma UpsertCartItemUnique(items: seq<CartItem>, item: CartItem)
    requires Lists.UniqueKeys(items, CartProduct)
    ensures var r := UpsertCartItem(items, item);
      Lists.UniqueKeys(r, CartProduct) &&
      exists i :: 0 <= i < |r| && r[i].product == item.product && r[i].quantity == item.quantity
  {
    var r := UpsertCartItem(items, item);
    var idx := Lists.FindIndex(items, CartProduct, item.product);
    if idx == -1 {
      assert r[|items|] == item;
      forall i, j | 0 <= i < j < |r| ensures r[i].product != r[j].product {
        if j < |items| {
          assert r[i] == items[i] && r[j] == items[j];
        }
      }
    } else {
      assert r[idx].product == item.product;
      assert forall i :: 0 <= i < |r| ==> r[i].product == items[i].product;
    }
  }

  /** Adding the same quantity for a product twice is the same as adding it once. */
  lemma UpsertCartItemIdempotent(items: seq<CartItem>, item: CartItem)
    ensures UpsertCartItem(UpsertCartItem(items, item), item) == UpsertCartItem(items, item)
  {
    var r := UpsertCartItem(items, item);
    var idx := Lists.FindIndex(items, CartProduct, item.product);
    if idx == -1 {
      assert r[|items|].product == item.product;
      var idx2 := Lists.FindIndex(r, CartProduct, item.product);
      assert idx2 == |items| by {
        assert forall i :: 0 <= i < |items| ==> r[i] == items[i];
      }
    } else {
      var idx2 := Lists.FindIndex(r, CartProduct, item.product);
      assert idx2 == idx by {
        assert forall i :: 0 <= i < |items| ==> r[i].product == items[i].product;
      }
    }
  }

  /** Removing keeps one entry per product and leaves none for the removed one. */
  lemma RemoveCartItemUnique(items: seq<CartItem>, id: Id)
    requires Lists.UniqueKeys(items, CartProduct)
    ensures Lists.UniqueKeys(Lists.Without(items, CartProduct, id), CartProduct)
    ensures forall x :: x in Lists.Without(items, CartProduct, id) ==> x.product != id
  {
    Lists.WithoutUnique(items, CartProduct, id);
  }

  class CartState {
    var cartItems: seq<CartItem>
    var loading: bool
    var error: Option<string>
    var success: bool
    var message: Option<string>
    var shippingInfo: ShippingInfo
    const storage: BrowserStorage.LocalStorage

    /** The initial state, read from storage. */
    constructor (storage: BrowserStorage.LocalStorage)
      ensures this.storage == storage
      ensures cartItems == LoadCart(storage.items) && shippingInfo == LoadShipping(storage.items)
      ensures !loading && error == None && !success && message == None
    {
      this.storage := storage;
      cartItems := LoadCart(storage.items);
      shippingInfo := LoadShipping(storage.items);
      loading := false;
      error := None;
      success := false;
      message := None;
    }

    /** The stored entries are the ones in memory, so a reload restores the cart. */
    ghost predicate Mirrored()
      reads this, storage
    {
      LoadCart(storage.items) == cartItems
    }

    /** `removeCartItem`: drop every entry of the product, then write the list through. */
    method RemoveCartItem(id: Id)
      modifies this, storage
      ensures cartItems == Lists.Without(old(cartItems), CartProduct, id)
      ensures storage.items == old(storage.items)[BrowserStorage.CartKey := BrowserStorage.StoredCart(cartItems)]
      ensures Mirrored()
      ensures loading == old(loading) && error == old(error) && success == old(success)
      ensures message == old(message) && shippingInfo == old(shippingInfo)
    {
      cartItems := Lists.Without(cartItems, CartProduct, id);
      storage.SetItem(BrowserStorage.CartKey, BrowserStorage.StoredCart(cartItems));
    }

    /** `removeErrors`. */
    method RemoveErrors()
      modifies this
      ensures error == None
      ensures cartItems == old(cartItems) && loading == old(loading) && success == old(success)
      ensures message == old(message) && shippingInfo == old(shippingInfo)
    {
      error := None;
    }

    /** `removeMessage`. */
    method RemoveMessage()
      modifies this
      ensures message == None && !success
      ensures cartItems == old(cartItems) && loading == old(loading) && error == old(error)
      ensures shippingInfo == old(shippingInfo)
    {
      message := None;
      success := false;
    }

    /** `saveShippingInfo`: store the address and write it through; the cart mirror is kept. */
    method SaveShippingInfo(info: ShippingInfo)
      modifies this, storage
      ensures shippingInfo == info
      ensures storage.items == old(storage.items)[BrowserStorage.ShippingKey := BrowserStorage.StoredShipping(info)]
      ensures LoadShipping(storage.items) == info
      ensures old(Mirrored()) ==> Mirrored()
      ensures cartItems == old(cartItems) && loading == old(loading) && error == old(error)
      ensures success == old(success) && message == old(message)
    {
      shippingInfo := info;
      storage.SetItem(BrowserStorage.ShippingKey, BrowserStorage.StoredShipping(info));
    }

    /** `addItemsToCart.pending`: only the loading flag is raised. */
    method AddPending()
      modifies this
      ensures loading
      ensures cartItems == old(cartItems) && error == old(error) && success == old(success)
      ensures message == old(message) && shippingInfo == old(shippingInfo)
    {
      loading := true;
    }

    /** `addItemsToCart.fulfilled`: upsert the fetched entry, write the list through, confirm. */
    method AddFulfilled(item: CartItem)
      modifies this, storage
      ensures cartItems == UpsertCartItem(old(cartItems), item)
      ensures storage.items == old(storage.items)[BrowserStorage.CartKey := BrowserStorage.StoredCart(cartItems)]
      ensures Mirrored()
      ensures !loading && success && message == Some(item.name + ", Added to cart!")
      ensures error == old(error) && shippingInfo == old(shippingInfo)
    {
      var idx := Lists.FindIndex(cartItems, CartProduct, item.product);
      if idx != -1 {
        cartItems := cartItems[idx := cartItems[idx].(quantity := item.quantity)];
      } else {
        cartItems := cartItems + [item];
      }
      loading := false;
      success := true;
      storage.SetItem(BrowserStorage.CartKey, BrowserStorage.StoredCart(cartItems));
      message := Some(item.name + ", Added to cart!");
    }

    /** `addItemsToCart.rejected`: the entries are untouched. */
    method AddRejected(payload: string)
      modifies this
      ensures !loading && error == Some(payload)
      ensures cartItems == old(cartItems) && success == old(success)
      ensures message == old(message) && shippingInfo == old(shippingInfo)
    {
      loading := false;
      error := Some(payload);
    }
  }
}
