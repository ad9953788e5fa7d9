/**
 The `wholesale-pricing` Function: a buyer tagged as wholesale gets, on every
 cart line whose money metafield holds an amount below the line's retail unit
 price, a fixed per-item discount that brings the unit price down to that
 amount. There is no minimum quantity.
 */
module WholesalePricing {
  import opened Js
  import opened DiscountApi

  /** A cart line as the Function's input query delivers it. `metafield` is the
      value of the merchandise's money metafield; `None` when the merchandise,
      the metafield or its value is absent. */
  datatype Line = Line(
    id: string,
    quantity: Option<Quantity>,
    subtotal: real,
    metafield: Option<string>)

  /** `hasAnyTag` is `None` when the cart, buyer identity or customer is absent. */
  datatype Input = Input(hasAnyTag: Option<bool>, lines: seq<Line>)

  const Label: string := "WHOLESALE"

  /** `parseFloat(parsed.amount)` for a parsed value other than null. Only an
      object has an `amount` member; `parseFloat` of a missing member, of null,
      of a boolean or of an object is NaN, and of a number is that number. */
  function AmountOf(js: Runtime, parsed: Json): (r: Option<real>)
    ensures r.Some? ==> parsed.JObj? && "amount" in parsed.members
    ensures r.Some? ==> parsed.members["amount"].JNum? || parsed.members["amount"].JStr?
    ensures parsed.JObj? && "amount" in parsed.members && parsed.members["amount"].JNum?
      ==> r == Some(parsed.members["amount"].n)
  {
    if parsed.JObj? && "amount" in parsed.members then
      match parsed.members["amount"]
      case JNum(n) => Some(n)
      case JStr(s) => js.parseFloat(s)
      case _ => None
    else None
  }

  /** The wholesale price read from a metafield value: the `amount` of the JSON
      it holds, or, when `JSON.parse` throws or yields null (so that reading
      `.amount` throws), the raw text through `parseFloat`. `None` is NaN. */
  function WholesaleOf(js: Runtime, value: string): (r: Option<real>)
    ensures r.Some? ==>
      || (js.jsonParse(value) in {None, Some(JNull)} && r == js.parseFloat(value))
      || (js.jsonParse(value).Some? && js.jsonParse(value).value.JObj? && "amount" in js.jsonParse(value).value.members)
  {
    var parsed := js.jsonParse(value);
    if parsed.None? || parsed.value.JNull? then js.parseFloat(value)
    else AmountOf(js, parsed.value)
  }

  /** The candidate one line yields, or `None` when the loop skips it. */
  function CandidateFor(js: Runtime, line: Line): (r: Option<Candidate>)
    ensures r.Some? ==> Truthy(line.metafield) && WholesaleOf(js, line.metafield.value).Some?
    ensures r.Some? ==>
      && r.value.targets == [CartLineTarget(line.id)]
      && r.value.appliesToEachItem
      && r.value.message == "WHOLESALE"
      && r.value.amountCents >= 0
  {
    if !Truthy(line.metafield) then None
    else
      var wholesale := WholesaleOf(js, line.metafield.value);
      var retail := RetailUnitPrice(line.subtotal, QuantityOrDefault(line.quantity));
      if wholesale.None? then None
      else if wholesale.value >= retail then None
      else Some(FixedAmountCandidate(Label, line.id, retail - wholesale.value))
  }

  function CandidateOf(js: Runtime): Line -> Option<Candidate>
  {
    line => CandidateFor(js, line)
  }

  function Candidates(js: Runtime, lines: seq<Line>): seq<Candidate>
  {
    Collect(CandidateOf(js), lines)
  }

  /** What `cartLinesDiscountsGenerateRun` returns. */
  function Evaluate(js: Runtime, input: Input): (r: RunResult)
    ensures |r.operations| <= 1
    ensures !IsWholesaleBuyer(input.hasAnyTag) ==> r.operations == []
    ensures forall op :: op in r.operations ==> op.selectionStrategy == "ALL" && op.candidates != []
  {
    if !IsWholesaleBuyer(input.hasAnyTag) then NoOperations
    else Bundle(Candidates(js, input.lines))
  }

  /** `cartLinesDiscountsGenerateRun`: the buyer gate, then one pass over the
      lines that reads each wholesale price inside a try/catch and pushes a
      candidate for each line no guard skips. */
  method Run(js: Runtime, input: Input) returns (result: RunResult)
    ensures result == Evaluate(js, input)
  {
    if !IsWholesaleBuyer(input.hasAnyTag) {
      return NoOperations;
    }
    var lines := input.lines;
    var candidates: seq<Candidate> := [];
    for i := 0 to |lines|
      invariant candidates == Candidates(js, lines[..i])
    {
      var line := lines[i];
      assert lines[..i + 1] == lines[..i] + [line];
      CollectAppend(CandidateOf(js), lines[..i], [line]);

      var meta := line.metafield;
      if !Truthy(meta) {
        continue;
      }
      var wholesale: Option<real>;
      var parsed := js.jsonParse(meta.value);
      if parsed.None? || parsed.value.JNull? {
        // the catch branch: JSON.parse threw, or `null.amount` did
        wholesale := js.parseFloat(meta.value);
      } else {
        wholesale := AmountOf(js, parsed.value);
      }
      if wholesale.None? {
        continue;
      }
      var qty := QuantityOrDefault(line.quantity);
      var retail := RetailUnitPrice(line.subtotal, qty);
      if wholesale.value >= retail {
        continue;
      }
      var discountPerItem := retail - wholesale.value;
      candidates := candidates + [FixedAmountCandidate(Label, line.id, discountPerItem)];
    }
    assert lines[..|lines|] == lines;
    if |candidates| == 0 {
      return NoOperations;
    }
    return RunResult([ProductDiscountsAdd(candidates, "ALL")]);
  }

  /** A buyer who is not flagged wholesale gets no operation, whatever the lines;
      otherwise the result carries exactly the lines' candidates, in one
      operation, and carries none only when no line qualifies. */
  lemma EvaluateOutcome(js: Runtime, input: Input)
    ensures var r := Evaluate(js, input);
      && |r.operations| <= 1
      && (!IsWholesaleBuyer(input.hasAnyTag) ==> r == NoOperations)
      && (IsWholesaleBuyer(input.hasAnyTag) ==> AllCandidates(r) == Candidates(js, input.lines))
      && (r.operations == [] <==>
            !IsWholesaleBuyer(input.hasAnyTag)
            || forall i :: 0 <= i < |input.lines| ==> CandidateFor(js, input.lines[i]).None?)
  {
    if IsWholesaleBuyer(input.hasAnyTag) {
      var cs := Candidates(js, input.lines);
      assert Evaluate(js, input).operations == [] <==> cs == [];
    }
  }

  /** A line's candidate, if any, comes after the candidates of the lines before
      it and before those of the lines after it. */
  lemma CandidatesFollowLines(js: Runtime, before: seq<Line>, line: Line, after: seq<Line>)
    ensures Candidates(js, before + [line] + after)
         == Candidates(js, before) + Contribution(CandidateFor(js, line)) + Candidates(js, after)
  {
    CollectAround(CandidateOf(js), before, line, after);
  }

  /** The candidates are exactly the candidates of the individual lines. */
  lemma CandidatesAreLineCandidates(js: Runtime, lines: seq<Line>, c: Candidate)
    ensures c in Candidates(js, lines) <==> exists i :: 0 <= i < |lines| && CandidateFor(js, lines[i]) == Some(c)
  {
    CollectMembers(CandidateOf(js), lines, c);
  }

  /** A line whose metafield value is absent or empty is skipped. */
  lemma NoValueNoCandidate(js: Runtime, line: Line)
    requires !Truthy(line.metafield)
    ensures CandidateFor(js, line) == None
  {
  }

  /** A value that parses as JSON is read through its `amount` member only: a
      bare JSON number, for one, has no `amount` and gives NaN. A value that is
      not JSON is read as a plain number. */
  lemma HowThePriceIsRead(js: Runtime, value: string)
    ensures js.jsonParse(value) in {None, Some(JNull)} ==> WholesaleOf(js, value) == js.parseFloat(value)
    ensures var parsed := js.jsonParse(value);
      parsed.Some? && !parsed.value.JNull? && !parsed.value.JObj? ==> WholesaleOf(js, value) == None
    ensures var parsed := js.jsonParse(value);
      parsed.Some? && parsed.value.JObj? ==>
      var m := parsed.value.members;
      WholesaleOf(js, value) == (
        if "amount" !in m then None
        else if m["amount"].JNum? then Some(m["amount"].n)
        else if m["amount"].JStr? then js.parseFloat(m["amount"].s)
        else None)
  {
  }

  /** A price that is NaN skips the line. */
  lemma NaNPriceNoCandidate(js: Runtime, line: Line)
    requires Truthy(line.metafield) && WholesaleOf(js, line.metafield.value).None?
    ensures CandidateFor(js, line) == None
  {
  }

  /** There is no minimum-quantity gate: two lines that differ only in quantity
      and have the same retail unit price are treated alike. */
  lemma QuantityDoesNotGate(js: Runtime, line: Line, quantity: Option<Quantity>)
    requires RetailUnitPrice(line.subtotal, QuantityOrDefault(quantity))
          == RetailUnitPrice(line.subtotal, QuantityOrDefault(line.quantity))
    ensures CandidateFor(js, line.(quantity := quantity)) == CandidateFor(js, line)
  {
  }

  /** A wholesale price at or above the retail unit price yields no candidate. */
  lemma NotCheaperNoCandidate(js: Runtime, line: Line, wholesale: real)
    requires Truthy(line.metafield) && WholesaleOf(js, line.metafield.value) == Some(wholesale)
    requires wholesale >= RetailUnitPrice(line.subtotal, QuantityOrDefault(line.quantity))
    ensures CandidateFor(js, line) == None
  {
  }

  /** A line gets a candidate exactly when its metafield holds a price below its
      retail unit price; the candidate targets that line only, applies to each
      item, is labelled "WHOLESALE", and takes off `retail - wholesale` rounded to
      the cent, which is never negative and leaves each unit within half a cent
      of the wholesale price. */
  lemma CandidateExactly(js: Runtime, line: Line)
    ensures CandidateFor(js, line).Some? <==>
      && Truthy(line.metafield)
      && WholesaleOf(js, line.metafield.value).Some?
      && WholesaleOf(js, line.metafield.value).value < RetailUnitPrice(line.subtotal, QuantityOrDefault(line.quantity))
    ensures CandidateFor(js, line).Some? ==>
      var c := CandidateFor(js, line).value;
      var wholesale := WholesaleOf(js, line.metafield.value).value;
      var retail := RetailUnitPrice(line.subtotal, QuantityOrDefault(line.quantity));
      && c.targets == [CartLineTarget(line.id)]
      && c.appliesToEachItem
      && c.message == "WHOLESALE"
      && c.amountCents == Cents(retail - wholesale)
      && c.amountCents >= 0
      && -0.005 <= (retail - c.amountCents as real / 100.0) - wholesale < 0.005
  {
    if CandidateFor(js, line).Some? {
      var wholesale := WholesaleOf(js, line.metafield.value).value;
      DiscountReachesWholesale(RetailUnitPrice(line.subtotal, QuantityOrDefault(line.quantity)), wholesale);
    }
  }
}
