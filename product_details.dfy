/** The quantity picker of the product page. */
module ProductDetailsQuantity {
  import opened Wrappers

  /** The picker starts at one unit. */
  const InitialQuantity: int := 1

  datatype Click = Increase | Decrease

  /** The next quantity and the warning shown, if any. */
  datatype Step = Step(quantity: int, warning: Option<string>)

  /** `increaseQuantity` / `decreaseQuantity`. */
  function Click1(quantity: int, stock: int, c: Click): (s: Step)
    ensures c == Increase && quantity < stock ==> s == Step(quantity + 1, None)
    ensures c == Increase && quantity >= stock ==> s == Step(quantity, Some("Exceeded Available Stock!"))
    ensures c == Decrease && quantity > 1 ==> s == Step(quantity - 1, None)
    ensures c == Decrease && quantity <= 1 ==> s == Step(quantity, Some("Quantity cannot be less than 1!"))
  {
    match c
    case Increase =>
      if stock <= quantity then Step(quantity, Some("Exceeded Available Stock!")) else Step(quantity + 1, None)
    case Decrease =>
      if quantity <= 1 then Step(quantity, Some("Quantity cannot be less than 1!")) else Step(quantity - 1, None)
  }

  /** The quantity after the clicks, in order. */
  function Clicks(quantity: int, stock: int, cs: seq<Click>): int
    decreases |cs|
  {
    if |cs| == 0 then quantity else Clicks(Click1(quantity, stock, cs[0]).quantity, stock, cs[1..])
  }

  /** The controls are rendered only for a product in stock. */
  predicate ControlsShown(stock: int) {
    stock > 0
  }

  /** One click keeps a quantity within `[1, stock]`. */
  lemma ClickStaysInRange(quantity: int, stock: int, c: Click)
    requires 1 <= quantity <= stock
    ensures 1 <= Click1(quantity, stock, c).quantity <= stock
  {
  }

  /**
   * Whatever the user clicks, starting from the initial quantity on a
   * product whose controls are shown, the quantity stays within `[1, stock]`.
   */
  lemma {:induction false} ClicksStayInRange(quantity: int, stock: int, cs: seq<Click>)
    requires 1 <= quantity <= stock
    ensures 1 <= Clicks(quantity, stock, cs) <= stock
    decreases |cs|
  {
    if |cs| > 0 {
      ClickStaysInRange(quantity, stock, cs[0]);
      ClicksStayInRange(Click1(quantity, stock, cs[0]).quantity, stock, cs[1..]);
    }
  }

  lemma FromInitialQuantity(stock: int, cs: seq<Click>)
    requires ControlsShown(stock)
    ensures 1 <= Clicks(InitialQuantity, stock, cs) <= stock
  {
    ClicksStayInRange(InitialQuantity, stock, cs);
  }
}
