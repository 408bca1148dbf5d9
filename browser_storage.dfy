/**
 * The browser's `localStorage`, holding the values the slices write. A
 * value is kept as the record it serialises, since each one is read back
 * with `JSON.parse` of its own `JSON.stringify`.
 */
module BrowserStorage {
  import opened Wrappers
  import opened Models

  datatype Stored =
    | StoredUser(user: Option<User>)
    | StoredText(text: string)
    | StoredCart(items: seq<CartItem>)
    | StoredShipping(info: ShippingInfo)

  const UserKey: string := "user"
  const AuthKey: string := "isAuthenticated"
  const CartKey: string := "cartItems"
  const ShippingKey: string := "shippingInfo"

  class LocalStorage {
    var items: map<string, Stored>

    constructor (items: map<string, Stored>)
      ensures this.items == items
    {
      this.items := items;
    }

    /** `localStorage.setItem(key, value)`. */
    method SetItem(key: string, value: Stored)
      modifies this
      ensures items == old(items)[key := value]
    {
      items := items[key := value];
    }

    /** `localStorage.removeItem(key)`. */
    method RemoveItem(key: string)
      modifies this
      ensures items == old(items) - {key}
    {
      items := items - {key};
    }
  }

  /** `String(flag)`, as `isAuthenticated` is written. */
  function FlagText(flag: bool): (s: string)
    ensures (s == "true") <==> flag
  {
    if flag then "true" else "false"
  }
}
