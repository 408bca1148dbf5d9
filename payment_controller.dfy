/**
 * The demonstration payment gateway: an ordered chain of checks on the card
 * details ending in a fixed decline rule, and the order insertion that
 * follows a successful payment.
 */
module PaymentController {
  import opened Wrappers
  import opened Models
  import Text
  import Store
  import OrderController

  /** The request body; a field the client left out is `None`. */
  datatype CardDetails = CardDetails(
    cardNumber: Option<string>,
    cardHolder: Option<string>,
    expiryDate: Option<string>,
    cvv: Option<string>,
    amount: real)

  /** The success body; `transactionId` is generated outside the model. */
  datatype Receipt = Receipt(transactionId: string, amount: real, message: string)

  /** A field is truthy: present and not the empty string. */
  predicate Provided(f: Option<string>) {
    f.Some? && |f.value| > 0
  }

  predicate AllProvided(d: CardDetails) {
    Provided(d.cardNumber) && Provided(d.cardHolder) && Provided(d.expiryDate) && Provided(d.cvv)
  }

  /** `/^\d{16}$/`. */
  predicate ValidCardNumber(s: string) {
    |s| == 16 && Text.AllDigits(s)
  }

  /** `/^\d{3,4}$/`. */
  predicate ValidCvv(s: string) {
    3 <= |s| <= 4 && Text.AllDigits(s)
  }

  /** A card the demonstration gateway always declines. */
  predicate Declined(cleanCard: string) {
    Text.EndsWith(cleanCard, "0000")
  }

  /**
   * `processDemoPayment`: fields, then card number (white space removed),
   * then CVV (taken as sent), then the decline rule. Only a request that
   * passes all four succeeds, echoing its amount.
   */
  function ProcessDemoPayment(d: CardDetails, transactionId: string): (r: Result<Receipt>)
    ensures !AllProvided(d) ==> r == Err(400, "Please provide all card details")
    ensures AllProvided(d) && !ValidCardNumber(Text.StripWhitespace(d.cardNumber.value)) ==>
      r == Err(400, "Invalid card number. Must be 16 digits.")
    ensures AllProvided(d) && ValidCardNumber(Text.StripWhitespace(d.cardNumber.value)) && !ValidCvv(d.cvv.value) ==>
      r == Err(400, "Invalid CVV")
    ensures var clean := if d.cardNumber.Some? then Text.StripWhitespace(d.cardNumber.value) else "";
      AllProvided(d) && ValidCardNumber(clean) && ValidCvv(d.cvv.value) && Declined(clean) ==>
        r == Err(400, "Payment failed. Your card was declined.")
    ensures r.Ok? <==>
      AllProvided(d) && ValidCardNumber(Text.StripWhitespace(d.cardNumber.value)) && ValidCvv(d.cvv.value) &&
      !Declined(Text.StripWhitespace(d.cardNumber.value))
    ensures r.Ok? ==> r.value == Receipt(transactionId, d.amount, "Payment successful!")
    ensures r.Err? ==> r.status == 400
  {
    if !AllProvided(d) then Err(400, "Please provide all card details")
    else
      var cleanCard := Text.StripWhitespace(d.cardNumber.value);
      if !ValidCardNumber(cleanCard) then Err(400, "Invalid card number. Must be 16 digits.")
      else if !ValidCvv(d.cvv.value) then Err(400, "Invalid CVV")
      else if Declined(cleanCard) then Err(400, "Payment failed. Your card was declined.")
      else Ok(Receipt(transactionId, d.amount, "Payment successful!"))
  }

  /** `s.replace(/\s/g, "")` twice is the same as once. */
  lemma StripWhitespaceIdempotent(s: string)
    ensures Text.StripWhitespace(Text.StripWhitespace(s)) == Text.StripWhitespace(s)
  {
    Text.StripWhitespaceNoop(Text.StripWhitespace(s));
  }

  /**
   * Where the white space sits in the card number does not matter: sending
   * the number already stripped gets the same answer, as long as something
   * is left of it.
   */
  lemma CardWhitespaceIrrelevant(d: CardDetails, transactionId: string)
    requires d.cardNumber.Some? && |Text.StripWhitespace(d.cardNumber.value)| > 0
    ensures ProcessDemoPayment(d.(cardNumber := Some(Text.StripWhitespace(d.cardNumber.value))), transactionId)
         == ProcessDemoPayment(d, transactionId)
  {
    StripWhitespaceIdempotent(d.cardNumber.value);
  }

  /** The declared demo rule: a well-formed card ending in 0000 never succeeds, any other one does. */
  lemma DemoDeclineRule(d: CardDetails, transactionId: string)
    requires AllProvided(d) && ValidCardNumber(d.cardNumber.value) && ValidCvv(d.cvv.value)
    ensures ProcessDemoPayment(d, transactionId).Ok? <==> d.cardNumber.value[12..] != "0000"
  {
    var c := d.cardNumber.value;
    assert forall i :: 0 <= i < |c| ==> !Text.IsWhitespace(c[i]) by {
      forall i | 0 <= i < |c| ensures !Text.IsWhitespace(c[i]) {
        assert Text.IsDigit(c[i]);
      }
    }
    Text.StripWhitespaceNoop(c);
  }

  /**
   * `createOrderAfterPayment`: the same record `createNewOrder` builds,
   * answered with a confirmation message.
   */
  method CreateOrderAfterPayment(db: Store.Database, sub: OrderSubmission, id: Id, initialStatus: string,
                                 now: int, user: Id)
    returns (r: Result<(Order, string)>)
    requires id !in db.orders
    modifies db
    ensures r == Ok((OrderController.NewOrder(sub, id, initialStatus, now, user), "Order placed successfully!"))
    ensures db.orders == old(db.orders)[id := r.value.0] && db.products == old(db.products)
  {
    var order := OrderController.NewOrder(sub, id, initialStatus, now, user);
    db.orders := db.orders[id := order];
    r := Ok((order, "Order placed successfully!"));
  }
}
