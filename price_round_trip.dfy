/**
 The save route and the `wholesale-pricing` Function meet at the
 `wholesale.price` metafield: what the route writes is what the Function reads.
 This holds for any JavaScript runtime whose `JSON.parse` gives back the money
 values the route's `JSON.stringify` writes (`WholesaleSave.SavedValuesRoundTrip`,
 a law some runtime meets), and assumes that the Function's input query binds the line's
 `metafield` to `wholesale.price`.
 */
module PriceRoundTrip {
  import opened Js
  import opened DiscountApi
  import WholesaleSave
  import WholesalePricing

  /** Reading `.amount` of a written money value gives back the amount written:
      a number as itself, and NaN (written as null) as NaN. */
  lemma AmountOfMoneyValue(js: Runtime, amount: Option<real>)
    ensures WholesalePricing.AmountOf(js, WholesaleSave.MoneyValue(amount)) == amount
  {
  }

  /** The price the Function reads back from a saved value is `parseFloat` of
      the submitted value; a value that was NaN when saved is NaN when read. */
  lemma SavedPriceReadBack(js: Runtime, update: WholesaleSave.Update)
    requires WholesaleSave.SavedValuesRoundTrip(js)
    ensures var saved := WholesaleSave.MetafieldInputFor(js, update).value;
      && Truthy(Some(saved))
      && WholesalePricing.WholesaleOf(js, saved) == js.parseFloat(update.value)
  {
    var money := WholesaleSave.MoneyValue(js.parseFloat(update.value));
    assert js.jsonParse(js.jsonStringify(money)) == Some(money) && js.jsonStringify(money) != "";
  }

  /** A cart line whose metafield holds a saved value gets a candidate exactly
      when the submitted value is a number below the line's retail unit price,
      and the candidate takes off the difference, rounded to the cent. */
  lemma SavedPriceDrivesDiscount(js: Runtime, update: WholesaleSave.Update, line: WholesalePricing.Line)
    requires WholesaleSave.SavedValuesRoundTrip(js)
    requires line.metafield == Some(WholesaleSave.MetafieldInputFor(js, update).value)
    ensures var price := js.parseFloat(update.value);
      var retail := RetailUnitPrice(line.subtotal, QuantityOrDefault(line.quantity));
      && (WholesalePricing.CandidateFor(js, line).Some? <==> price.Some? && price.value < retail)
      && (WholesalePricing.CandidateFor(js, line).Some? ==>
            WholesalePricing.CandidateFor(js, line).value.amountCents == Cents(retail - price.value))
  {
    SavedPriceReadBack(js, update);
  }
}
