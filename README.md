# Wholesale pricing: checkout discount evaluators and the price save route

This project models the core of a Shopify wholesale-pricing app in Dafny and
proves properties of that model. The app lets a merchant store a wholesale
price on product variants. At checkout, a buyer tagged as wholesale then gets
a fixed per-item discount on every cart line. That discount brings the line's
unit price down to the wholesale price.

The model has five modules:

- `Js` (`js.dfy`) holds the few JavaScript runtime functions the core calls:
  `parseFloat`, `parseInt(_, 10)`, `JSON.parse` and `JSON.stringify`.
  - They are a `Runtime` record of functions that every operation receives.
  - `None` stands for `NaN`, or for a `JSON.parse` that throws.
  - The save-to-read round trip rests on one law, `WholesaleSave.SavedValuesRoundTrip`:
    `JSON.parse` gives back every money value the save route can write. A lemma
    exhibits a runtime that meets it.
- `DiscountApi` (`discount_api.dfy`) holds what the two discount Functions share:
  - the cart-line arithmetic (`line.quantity ?? 1`, `subtotal / qty`);
  - the output shape (`{operations: [{productDiscountsAdd: {candidates, selectionStrategy}}]}`);
  - `toFixed(2)`, as rounding to whole cents;
  - `Collect`, the filtering of lines into candidates;
  - `Bundle`, which puts the candidates into zero or one operation.
- `WholesaleDiscount` (`wholesale_discount.dfy`) is the `wholesale-discount` Function:
  - the price metafield is a plain number;
  - there is a minimum-quantity gate;
  - the label is "Wholesale".
- `WholesalePricing` (`wholesale_pricing.dfy`) is the `wholesale-pricing` Function:
  - the price metafield is a JSON money value `{amount}`;
  - when `JSON.parse` fails, the raw text is parsed instead;
  - there is no minimum quantity;
  - the label is "WHOLESALE".
- `WholesaleSave` (`wholesale_save.dfy`) is the pure part of the save route:
  - the check on `updates`;
  - the mapping of each update to a `metafieldsSet` input;
  - the choice of response from the Admin API's outcome.

  The Admin API call is a function parameter.
- `PriceRoundTrip` (`price_round_trip.dfy`) proves that a price written by the
  save route is the price `wholesale-pricing` reads back.

Each discount Function's `cartLinesDiscountsGenerateRun` is an imperative
`Run` method. Like the source, it is a `for` loop whose guards `continue` and
which appends to `candidates`. Each `Run` is proved equal to a specification
function `Evaluate`, which is the buyer gate followed by
`Bundle(Collect(CandidateFor, lines))`. The lemmas state the properties of
`Evaluate` and `CandidateFor`.

Money is `real`. A candidate's amount is the `toFixed(2)` text counted in
hundredths (`amountCents`), rounded to the nearest cent with ties going up.

Three facts about the code shape the model:
- The candidate guard only demands `wholesale < retail`. So a retail unit price
  less than half a cent above the wholesale price yields a candidate of "0.00"
  (`WholesaleDiscount.ZeroCentCandidate`).
- Only `wholesale-discount` has a minimum-quantity gate.
- The save route only sets `wholesale.price`. Nothing clears a metafield or
  writes a minimum quantity.

## Model

| member | source | states |
|---|---|---|
| DiscountApi.Cents | extensions/wholesale-discount/src/cart_lines_discounts_generate_run.js:31 | `toFixed(2)` gives the whole number of cents nearest to the amount, and a tie goes up |
| DiscountApi.CentsOfTwoDecimals | extensions/wholesale-discount/src/cart_lines_discounts_generate_run.js:31 | an amount that already has two decimals is printed unchanged |
| DiscountApi.DiscountReachesWholesale | extensions/wholesale-discount/src/cart_lines_discounts_generate_run.js:22-31 | when wholesale < retail, the rounded per-item discount is not negative, and the discounted unit price is within half a cent of the wholesale price |
| DiscountApi.DiscountedLineTotal | extensions/wholesale-discount/src/cart_lines_discounts_generate_run.js:19-34 | when wholesale < retail, taking the emitted (rounded) per-item amount off every unit leaves a line total within half a cent per unit of wholesale × qty |
| DiscountApi.Collect | extensions/wholesale-discount/src/cart_lines_discounts_generate_run.js:7-36 | there are at most as many candidates as lines, and there are none exactly when no line yields one |
| DiscountApi.CollectAppend | extensions/wholesale-discount/src/cart_lines_discounts_generate_run.js:7-36 | the candidates of two runs of lines, one after the other, are the candidates of each run in that order |
| DiscountApi.CollectAround | extensions/wholesale-discount/src/cart_lines_discounts_generate_run.js:7-36 | a line contributes at most its own candidate, placed after the earlier lines' candidates and before the later lines' candidates |
| DiscountApi.CollectMembers | extensions/wholesale-discount/src/cart_lines_discounts_generate_run.js:7-36 | a candidate is collected exactly when some line yields it |
| DiscountApi.Bundle | extensions/wholesale-discount/src/cart_lines_discounts_generate_run.js:38-49 | there is at most one operation; it has strategy "ALL" and is never empty; the operations carry exactly the candidates, in order |
| WholesaleDiscount.MinimumQuantity | extensions/wholesale-discount/src/cart_lines_discounts_generate_run.js:15-17 | an absent minimum is 1; a quantity is held back only by a minimum value that is present, parses, and exceeds the quantity (a NaN minimum never holds one back) |
| WholesaleDiscount.CandidateFor | extensions/wholesale-discount/src/cart_lines_discounts_generate_run.js:8-35 | a line yields a candidate only when its price value is present and parses; that candidate targets only the line, applies to each item, says "Wholesale" and has an amount that is not negative |
| WholesaleDiscount.Evaluate | extensions/wholesale-discount/src/cart_lines_discounts_generate_run.js:1-50 | there is at most one operation; there is none for a buyer without `hasAnyTag`; every operation has strategy "ALL" and holds at least one candidate |
| WholesaleDiscount.Run | extensions/wholesale-discount/src/cart_lines_discounts_generate_run.js:1-50 | the loop with its `continue` guards returns exactly the specification `Evaluate` (the gate, then the bundled candidates of the lines in order) |
| WholesaleDiscount.EvaluateOutcome | extensions/wholesale-discount/src/cart_lines_discounts_generate_run.js:2-49 | a buyer without `hasAnyTag` gets `{operations: []}` whatever the lines; otherwise there is at most one operation and it carries exactly the lines' candidates; the result has no operation exactly when the gate is closed or no line qualifies |
| WholesaleDiscount.CandidatesFollowLines | extensions/wholesale-discount/src/cart_lines_discounts_generate_run.js:7-36 | one candidate at most per line, in cart-line order |
| WholesaleDiscount.CandidatesAreLineCandidates | extensions/wholesale-discount/src/cart_lines_discounts_generate_run.js:7-36 | each emitted candidate is some line's candidate, and each line's candidate is emitted |
| WholesaleDiscount.NoPriceNoCandidate | extensions/wholesale-discount/src/cart_lines_discounts_generate_run.js:8-13 | a line gets no candidate when its price value is absent or empty, or when that value is not a number |
| WholesaleDiscount.BelowMinimumNoCandidate | extensions/wholesale-discount/src/cart_lines_discounts_generate_run.js:15-17 | a line whose quantity (1 when absent) is below its parsed minimum gets no candidate, whatever its price |
| WholesaleDiscount.MissingOrNaNMinimumNeverBlocks | extensions/wholesale-discount/src/cart_lines_discounts_generate_run.js:15-17 | an absent minimum (1) and an unparseable minimum (NaN, since `qty < NaN` is false) never block a line; the line is treated as if it had no minimum |
| WholesaleDiscount.NotCheaperNoCandidate | extensions/wholesale-discount/src/cart_lines_discounts_generate_run.js:19-22 | a wholesale price at or above `subtotal / qty` gives no candidate |
| WholesaleDiscount.CandidateExactly | extensions/wholesale-discount/src/cart_lines_discounts_generate_run.js:8-35 | a line gets a candidate exactly when its price parses, its quantity reaches its minimum, and its price is below retail; the candidate targets only its own line, applies to each item, says "Wholesale", and takes off retail − wholesale to the cent, never a negative amount |
| WholesaleDiscount.ThreeUnitsReachingMinimum | extensions/wholesale-discount/src/cart_lines_discounts_generate_run.js:15-35 | 3 units for 30.00 at a price of 8.00 with minimum 2 give a candidate of 2.00 per item |
| WholesaleDiscount.ThreeUnitsBelowMinimum | extensions/wholesale-discount/src/cart_lines_discounts_generate_run.js:15-17 | the same line with minimum 5 gets no candidate |
| WholesaleDiscount.ZeroCentCandidate | extensions/wholesale-discount/src/cart_lines_discounts_generate_run.js:22-31 | a retail unit price a third of a cent above the wholesale price gives a candidate of "0.00" |
| WholesalePricing.AmountOf | extensions/wholesale-pricing/src/cart_lines_discounts_generate_run.js:16 | only an object's `amount` member that is a number or a string yields a price; a number amount is read as itself |
| WholesalePricing.WholesaleOf | extensions/wholesale-pricing/src/cart_lines_discounts_generate_run.js:13-20 | a price comes either from the raw text (when `JSON.parse` throws or yields null) or from the `amount` member of a parsed object |
| WholesalePricing.CandidateFor | extensions/wholesale-pricing/src/cart_lines_discounts_generate_run.js:10-38 | a line yields a candidate only when its value is present and reads as a price; that candidate targets only the line, applies to each item, says "WHOLESALE" and has an amount that is not negative |
| WholesalePricing.Evaluate | extensions/wholesale-pricing/src/cart_lines_discounts_generate_run.js:1-53 | there is at most one operation; there is none for a buyer without `hasAnyTag`; every operation has strategy "ALL" and holds at least one candidate |
| WholesalePricing.Run | extensions/wholesale-pricing/src/cart_lines_discounts_generate_run.js:1-53 | the loop, with its try/catch price read and its `continue` guards, returns exactly the specification `Evaluate` |
| WholesalePricing.EvaluateOutcome | extensions/wholesale-pricing/src/cart_lines_discounts_generate_run.js:2-52 | a buyer without `hasAnyTag` gets `{operations: []}` regardless of lines; otherwise there is at most one operation and it carries exactly the lines' candidates; there is no operation exactly when no line qualifies |
| WholesalePricing.CandidatesFollowLines | extensions/wholesale-pricing/src/cart_lines_discounts_generate_run.js:9-39 | one candidate at most per line, in cart-line order |
| WholesalePricing.CandidatesAreLineCandidates | extensions/wholesale-pricing/src/cart_lines_discounts_generate_run.js:9-39 | each emitted candidate is some line's candidate, and each line's candidate is emitted |
| WholesalePricing.NoValueNoCandidate | extensions/wholesale-pricing/src/cart_lines_discounts_generate_run.js:10-11 | a line whose metafield value is absent or empty gets no candidate |
| WholesalePricing.HowThePriceIsRead | extensions/wholesale-pricing/src/cart_lines_discounts_generate_run.js:13-20 | a value that is not JSON, or is JSON null, is parsed raw; a JSON object is read through its `amount` only (a number as itself, a string through `parseFloat`, anything else NaN); any other JSON value, a bare number included, gives NaN |
| WholesalePricing.NaNPriceNoCandidate | extensions/wholesale-pricing/src/cart_lines_discounts_generate_run.js:20 | a price that reads as NaN skips the line |
| WholesalePricing.QuantityDoesNotGate | extensions/wholesale-pricing/src/cart_lines_discounts_generate_run.js:22-25 | there is no minimum-quantity gate; the quantity matters only through the retail unit price |
| WholesalePricing.NotCheaperNoCandidate | extensions/wholesale-pricing/src/cart_lines_discounts_generate_run.js:22-25 | a wholesale price at or above `subtotal / qty` gives no candidate |
| WholesalePricing.CandidateExactly | extensions/wholesale-pricing/src/cart_lines_discounts_generate_run.js:10-38 | a line gets a candidate exactly when its value reads as a price below retail; the candidate targets only its own line, applies to each item, says "WHOLESALE", and takes off retail − wholesale to the cent, never a negative amount |
| WholesaleSave.SavedValuesRoundTripIsSatisfiable | app/routes/api.wholesale.save.jsx:21-24 | some runtime whose `parseFloat` never gives NaN meets the round-trip law for saved money values |
| WholesaleSave.MetafieldInputFor | app/routes/api.wholesale.save.jsx:16-25 | each input has `ownerId` = `variantId`, namespace "wholesale", key "price" and type "money"; under the saved-values round-trip law, its value parses back to `{amount: parseFloat(value), currency_code: "USD"}` (null for NaN) |
| WholesaleSave.MetafieldInputs | app/routes/api.wholesale.save.jsx:16 | there is exactly one input per update, in the same order |
| WholesaleSave.Prepare | app/routes/api.wholesale.save.jsx:7-25 | the call is made exactly when the body holds a non-empty `updates` array, and it is made with one input per update |
| WholesaleSave.Answer | app/routes/api.wholesale.save.jsx:49-71 | `success: true` (status 200) exactly when the `userErrors` list is missing or empty; non-empty `userErrors` give 400 with those errors; a throw gives 500 with `success: false` |
| WholesaleSave.Action | app/routes/api.wholesale.save.jsx:6-71 | an unreadable body gives 500; a missing, non-array or empty `updates` gives 400 "No updates provided"; otherwise the route succeeds exactly when the Admin API, sent the mapped inputs, answers with no user errors |
| WholesaleSave.NoUpdatesNoCall | app/routes/api.wholesale.save.jsx:9-14 | without a non-empty `updates` array, the response does not depend on the Admin API at all (no call is made) |
| WholesaleSave.UpdatesReachTheCall | app/routes/api.wholesale.save.jsx:16-47 | with a non-empty `updates` array, the Admin API is sent the mapped inputs, and its outcome alone decides the response |
| PriceRoundTrip.AmountOfMoneyValue | app/routes/api.wholesale.save.jsx:21-24 | reading `.amount` of the money value the route writes (as `wholesale-pricing` does at extensions/wholesale-pricing/src/cart_lines_discounts_generate_run.js:16) gives back exactly the amount written; a NaN amount, written as null, reads back as NaN |
| PriceRoundTrip.SavedPriceReadBack | app/routes/api.wholesale.save.jsx:21-24 | the value the route writes is non-empty, and `wholesale-pricing` reads it back as `parseFloat` of the submitted value (NaN stays NaN) |
| PriceRoundTrip.SavedPriceDrivesDiscount | extensions/wholesale-pricing/src/cart_lines_discounts_generate_run.js:13-38 | a line carrying a saved value gets a candidate exactly when the submitted price is a number below retail, and the candidate takes off the difference to the cent |

## Left out

- The IEEE-754 arithmetic of `parseFloat`, `/`, `-` and `toFixed(2)` is not modelled. Money is exact `real`, and `toFixed(2)` rounds to the nearest cent with ties going up. Binary-float ties and representation error are not captured.
- `parseFloat`, `parseInt(_, 10)`, `JSON.parse` and `JSON.stringify` are parameters (`Js.Runtime`), so their string grammar is not modelled. The save-to-read round trip assumes only that `JSON.parse` gives back the money values the route writes (`WholesaleSave.SavedValuesRoundTrip`), a law that `WholesaleSave.SavedValuesRoundTripIsSatisfiable` shows some runtime meets.
- WholesalePricing.AmountOf: an `amount` that is a JSON array is read as NaN. JavaScript would coerce it to text first (`[5]` reads as 5); that case is not modelled.
- WholesalePricing.AmountOf: an `amount` that is a JSON number is read as exactly that number. This is exact for JavaScript's finite numbers; the model does not re-parse the number's text.
- Quantities are integers of at least 1 (`DiscountApi.Quantity`), because the checkout never sends less. In JavaScript a quantity of 0 in `wholesale-pricing` makes `subtotal / qty` `Infinity` (or `NaN` for a zero subtotal), and the candidate's amount prints as "Infinity" or "NaN". In `wholesale-discount` the same happens only when the minimum is NaN or at most 0; an absent minimum is 1, so that line is skipped.
- The line subtotal is an exact `real`. The path where `parseFloat` of the subtotal gives NaN (which JavaScript would turn into a "NaN" candidate) is not modelled.
- The buyer tag is an optional boolean. Truthy values that are not booleans do not occur in the input schema and are not modelled.
- The Functions' GraphQL input queries are not part of this model. Metafield values arrive already resolved, and the round trip assumes the `wholesale-pricing` query binds `metafield` to `wholesale.price`.
- In the save route, these are not modelled: `authenticate.admin`, the text of `request.json()`, the mutation's text, response headers and `console.error` logging. An unreadable body is only a message.
- WholesaleSave.Action: elements of `updates` are taken to be `{variantId, value}` records. A null element, which would make the `map` throw and give status 500, is not modelled.
- `app/shopify.server.js` (the post-authentication setup), `app/routes/api.products.jsx`, `app/routes/api.requests.jsx`, `app/routes/webhooks.jsx`, `app/routes/app.requests.jsx`, `app/routes/privacy.jsx` and `app/routes/app._index.jsx` are not part of this model. They are I/O, UI or redirects.
