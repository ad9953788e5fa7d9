/**
 The `wholesale-discount` Function: a buyer tagged as wholesale gets, on every
 cart line whose wholesale price metafield is a number below the line's retail
 unit price and whose quantity reaches the line's minimum-quantity metafield,
 a fixed per-item discount that brings the unit price down to the wholesale
 price.
 */
module WholesaleDiscount {
  import opened Js
  import opened DiscountApi

  /** A cart line as the Function's input query delivers it. `wholesalePrice`
      and `wholesaleMinQty` are the values of the merchandise's two metafields;
      `None` when the merchandise, the metafield or its value is absent. */
  datatype Line = Line(
    id: string,
    quantity: Option<Quantity>,
    subtotal: real,
    wholesalePrice: Option<string>,
    wholesaleMinQty: Option<string>)

  /** `hasAnyTag` is `None` when the cart, buyer identity or customer is absent. */
  datatype Input = Input(hasAnyTag: Option<bool>, lines: seq<Line>)

  const Label: string := "Wholesale"

  /** `parseInt(minQtyMeta?.value ?? "1", 10)`; `None` is NaN. Only a value
      that is present and parses can hold a quantity back. */
  function MinimumQuantity(js: Runtime, value: Option<string>): (r: Option<int>)
    ensures value.None? ==> r == Some(1)
    ensures forall q: Quantity :: BelowMinimum(q, r) ==>
      value.Some? && js.parseInt(value.value).Some? && q < js.parseInt(value.value).value
  {
    if value.Some? then js.parseInt(value.value) else Some(1)
  }

  /** `qty < minQty`, which is false when `minQty` is NaN. */
  predicate BelowMinimum(qty: int, minimum: Option<int>)
  {
    minimum.Some? && qty < minimum.value
  }

  /** The candidate one line yields, or `None` when the loop skips it. */
  function CandidateFor(js: Runtime, line: Line): (r: Option<Candidate>)
    ensures r.Some? ==> Truthy(line.wholesalePrice) && js.parseFloat(line.wholesalePrice.value).Some?
    ensures r.Some? ==>
      && r.value.targets == [CartLineTarget(line.id)]
      && r.value.appliesToEachItem
      && r.value.message == "Wholesale"
      && r.value.amountCents >= 0
  {
    if !Truthy(line.wholesalePrice) then None
    else
      var wholesale := js.parseFloat(line.wholesalePrice.value);
      var qty := QuantityOrDefault(line.quantity);
      var retail := RetailUnitPrice(line.subtotal, qty);
      if wholesale.None? then None
      else if BelowMinimum(qty, MinimumQuantity(js, line.wholesaleMinQty)) then None
      else if wholesale.value >= retail then None
      else Some(FixedAmountCandidate(Label, line.id, retail - wholesale.value))
  }

  function CandidateOf(js: Runtime): Line -> Option<Candidate>
  {
    line => CandidateFor(js, line)
  }

  function Candidates(js: Runtime, lines: seq<Line>): seq<Candidate>
  {
    Collect(CandidateOf(js), lines)
  }

  /** What `cartLinesDiscountsGenerateRun` returns. */
  function Evaluate(js: Runtime, input: Input): (r: RunResult)
    ensures |r.operations| <= 1
    ensures !IsWholesaleBuyer(input.hasAnyTag) ==> r.operations == []
    ensures forall op :: op in r.operations ==> op.selectionStrategy == "ALL" && op.candidates != []
  {
    if !IsWholesaleBuyer(input.hasAnyTag) then NoOperations
    else Bundle(Candidates(js, input.lines))
  }

  /** `cartLinesDiscountsGenerateRun`: the buyer gate, then one pass over the
      lines that pushes a candidate for each line no guard skips. */
  method Run(js: Runtime, input: Input) returns (result: RunResult)
    ensures result == Evaluate(js, input)
  {
    if !IsWholesaleBuyer(input.hasAnyTag) {
      return NoOperations;
    }
    var lines := input.lines;
    var candidates: seq<Candidate> := [];
    for i := 0 to |lines|
      invariant candidates == Candidates(js, lines[..i])
    {
      var line := lines[i];
      assert lines[..i + 1] == lines[..i] + [line];
      CollectAppend(CandidateOf(js), lines[..i], [line]);

      var priceMeta := line.wholesalePrice;
      var minQtyMeta := line.wholesaleMinQty;
      if !Truthy(priceMeta) {
        continue;
      }
      var wholesale := js.parseFloat(priceMeta.value);
      if wholesale.None? {
        continue;
      }
      var minQty := MinimumQuantity(js, minQtyMeta);
      var qty := QuantityOrDefault(line.quantity);
      if BelowMinimum(qty, minQty) {
        continue;
      }
      var retail := RetailUnitPrice(line.subtotal, qty);
      if wholesale.value >= retail {
        continue;
      }
      var discountPerItem := retail - wholesale.value;
      candidates := candidates + [FixedAmountCandidate(Label, line.id, discountPerItem)];
    }
    assert lines[..|lines|] == lines;
    if |candidates| == 0 {
      return NoOperations;
    }
    return RunResult([ProductDiscountsAdd(candidates, "ALL")]);
  }

  /** A buyer who is not flagged wholesale gets no operation, whatever the lines;
      otherwise the result carries exactly the lines' candidates, in one
      operation, and carries none only when no line qualifies. */
  lemma EvaluateOutcome(js: Runtime, input: Input)
    ensures var r := Evaluate(js, input);
      && |r.operations| <= 1
      && (!IsWholesaleBuyer(input.hasAnyTag) ==> r == NoOperations)
      && (IsWholesaleBuyer(input.hasAnyTag) ==> AllCandidates(r) == Candidates(js, input.lines))
      && (r.operations == [] <==>
            !IsWholesaleBuyer(input.hasAnyTag)
            || forall i :: 0 <= i < |input.lines| ==> CandidateFor(js, input.lines[i]).None?)
  {
    if IsWholesaleBuyer(input.hasAnyTag) {
      var cs := Candidates(js, input.lines);
      assert Evaluate(js, input).operations == [] <==> cs == [];
    }
  }

  /** A line's candidate, if any, comes after the candidates of the lines before
      it and before those of the lines after it. */
  lemma CandidatesFollowLines(js: Runtime, before: seq<Line>, line: Line, after: seq<Line>)
    ensures Candidates(js, before + [line] + after)
         == Candidates(js, before) + Contribution(CandidateFor(js, line)) + Candidates(js, after)
  {
    CollectAround(CandidateOf(js), before, line, after);
  }

  /** The candidates are exactly the candidates of the individual lines. */
  lemma CandidatesAreLineCandidates(js: Runtime, lines: seq<Line>, c: Candidate)
    ensures c in Candidates(js, lines) <==> exists i :: 0 <= i < |lines| && CandidateFor(js, lines[i]) == Some(c)
  {
    CollectMembers(CandidateOf(js), lines, c);
  }

  /** A line without a wholesale price, or with one that is not a number, is skipped. */
  lemma NoPriceNoCandidate(js: Runtime, line: Line)
    requires !Truthy(line.wholesalePrice) || js.parseFloat(line.wholesalePrice.value).None?
    ensures CandidateFor(js, line) == None
  {
  }

  /** A line whose quantity is below its parsed minimum is skipped, whatever its price. */
  lemma BelowMinimumNoCandidate(js: Runtime, line: Line, minimum: int)
    requires MinimumQuantity(js, line.wholesaleMinQty) == Some(minimum)
    requires QuantityOrDefault(line.quantity) < minimum
    ensures CandidateFor(js, line) == None
  {
  }

  /** An absent minimum is 1, and a minimum that does not parse is NaN: neither
      ever blocks a line, so the line is treated as if it had no minimum. */
  lemma MissingOrNaNMinimumNeverBlocks(js: Runtime, line: Line)
    requires line.wholesaleMinQty.None? || js.parseInt(line.wholesaleMinQty.value).None?
    ensures !BelowMinimum(QuantityOrDefault(line.quantity), MinimumQuantity(js, line.wholesaleMinQty))
    ensures CandidateFor(js, line) == CandidateFor(js, line.(wholesaleMinQty := None))
  {
  }

  /** A wholesale price at or above the retail unit price yields no candidate. */
  lemma NotCheaperNoCandidate(js: Runtime, line: Line, wholesale: real)
    requires Truthy(line.wholesalePrice) && js.parseFloat(line.wholesalePrice.value) == Some(wholesale)
    requires wholesale >= RetailUnitPrice(line.subtotal, QuantityOrDefault(line.quantity))
    ensures CandidateFor(js, line) == None
  {
  }

  /** A line gets a candidate exactly when its price parses to a number below its
      retail unit price and its quantity is not below its minimum; the candidate
      targets that line only, applies to each item, is labelled "Wholesale", and
      takes off `retail - wholesale` rounded to the cent, which is never negative
      and leaves each unit within half a cent of the wholesale price. */
  lemma CandidateExactly(js: Runtime, line: Line)
    ensures CandidateFor(js, line).Some? <==>
      && Truthy(line.wholesalePrice)
      && js.parseFloat(line.wholesalePrice.value).Some?
      && !BelowMinimum(QuantityOrDefault(line.quantity), MinimumQuantity(js, line.wholesaleMinQty))
      && js.parseFloat(line.wholesalePrice.value).value < RetailUnitPrice(line.subtotal, QuantityOrDefault(line.quantity))
    ensures CandidateFor(js, line).Some? ==>
      var c := CandidateFor(js, line).value;
      var wholesale := js.parseFloat(line.wholesalePrice.value).value;
      var retail := RetailUnitPrice(line.subtotal, QuantityOrDefault(line.quantity));
      && c.targets == [CartLineTarget(line.id)]
      && c.appliesToEachItem
      && c.message == "Wholesale"
      && c.amountCents == Cents(retail - wholesale)
      && c.amountCents >= 0
      && -0.005 <= (retail - c.amountCents as real / 100.0) - wholesale < 0.005
  {
    if CandidateFor(js, line).Some? {
      var wholesale := js.parseFloat(line.wholesalePrice.value).value;
      DiscountReachesWholesale(RetailUnitPrice(line.subtotal, QuantityOrDefault(line.quantity)), wholesale);
    }
  }

  /** Three units for 30.00 at a wholesale price of 8.00 and a minimum of 2:
      the retail unit price is 10.00 and the candidate takes 2.00 off each unit. */
  lemma ThreeUnitsReachingMinimum(js: Runtime)
    requires js.parseFloat("8.00") == Some(8.0) && js.parseInt("2") == Some(2)
    ensures CandidateFor(js, Line("L1", Some(3), 30.0, Some("8.00"), Some("2")))
         == Some(Candidate("Wholesale", [CartLineTarget("L1")], 200, true))
  {
    assert RetailUnitPrice(30.0, 3) == 10.0;
  }

  /** The same line with a minimum of 5 gets no candidate. */
  lemma ThreeUnitsBelowMinimum(js: Runtime)
    requires js.parseFloat("8.00") == Some(8.0) && js.parseInt("5") == Some(5)
    ensures CandidateFor(js, Line("L1", Some(3), 30.0, Some("8.00"), Some("5"))) == None
  {
  }

  /** The guard only demands `wholesale < retail`, so a retail unit price a third
      of a cent above the wholesale price yields a candidate of 0.00. */
  lemma ZeroCentCandidate(js: Runtime)
    requires js.parseFloat("10.00") == Some(10.0)
    ensures CandidateFor(js, Line("L1", Some(3), 30.01, Some("10.00"), None))
         == Some(Candidate("Wholesale", [CartLineTarget("L1")], 0, true))
  {
    assert RetailUnitPrice(30.01, 3) - 10.0 == 0.01 / 3.0;
  }
}
