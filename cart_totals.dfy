/** The price summary of the cart page. */
module CartTotals {
  import opened Models
  import CartItemControls

  /** `cartItems.reduce((acc, item) => acc + item.quantity * item.price, 0)`. */
  function Subtotal(items: seq<CartItem>): real {
    if |items| == 0 then 0.0
    else Subtotal(items[..|items| - 1]) + (items[|items| - 1].quantity as real) * items[|items| - 1].price
  }

  const TaxRate: real := 0.13
  const ShippingFee: real := 100.0

  /** The four figures of the summary. */
  datatype Summary = Summary(subtotal: real, tax: real, shipping: real, total: real)

  /** Subtotal, 13% tax on it, a flat shipping fee for a non-empty cart, and their sum. */
  function PriceSummary(items: seq<CartItem>): (s: Summary)
    ensures s.subtotal == Subtotal(items)
    ensures s.tax == s.subtotal * TaxRate
    ensures s.shipping == (if |items| > 0 then ShippingFee else 0.0)
    ensures s.total == s.subtotal + s.tax + s.shipping
    ensures |items| == 0 ==> s == Summary(0.0, 0.0, 0.0, 0.0)
  {
    var subtotal := Subtotal(items);
    var tax := subtotal * TaxRate;
    var shipping := if |items| > 0 then ShippingFee else 0.0;
    Summary(subtotal, tax, shipping, subtotal + tax + shipping)
  }

  /** The checkout button is disabled exactly for an empty cart. */
  predicate CheckoutDisabled(items: seq<CartItem>) {
    |items| == 0
  }

  /** The subtotal is the sum of the rows' displayed line totals. */
  lemma {:induction false} SubtotalIsSumOfLines(items: seq<CartItem>, lines: seq<real>)
    requires |lines| == |items|
    requires forall i :: 0 <= i < |items| ==> lines[i] == CartItemControls.LineTotal(items[i])
    ensures Subtotal(items) == Sum(lines)
  {
    if |items| > 0 {
      var n := |items| - 1;
      SubtotalIsSumOfLines(items[..n], lines[..n]);
    }
  }

  /** The sum of a list of amounts, added front to back. */
  function Sum(xs: seq<real>): real {
    if |xs| == 0 then 0.0 else Sum(xs[..|xs| - 1]) + xs[|xs| - 1]
  }

  /** Adding rows adds their amounts: the subtotal of two carts put together. */
  lemma {:induction false} SubtotalAppend(a: seq<CartItem>, b: seq<CartItem>)
    ensures Subtotal(a + b) == Subtotal(a) + Subtotal(b)
  {
    if |b| == 0 {
      assert a + b == a;
    } else {
      var n := |b| - 1;
      assert (a + b)[..|a + b| - 1] == a + b[..n];
      SubtotalAppend(a, b[..n]);
    }
  }

  /** With no negative price or quantity, the total of a non-empty cart is at least the shipping fee. */
  lemma {:induction false} TotalAtLeastShipping(items: seq<CartItem>)
    requires forall i :: 0 <= i < |items| ==> items[i].price >= 0.0 && items[i].quantity >= 0
    ensures Subtotal(items) >= 0.0
    ensures |items| > 0 ==> PriceSummary(items).total >= ShippingFee
  {
    if |items| > 0 {
      TotalAtLeastShipping(items[..|items| - 1]);
      var last := items[|items| - 1];
      assert (last.quantity as real) * last.price >= 0.0;
    }
  }
}
