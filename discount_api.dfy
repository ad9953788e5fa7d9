/**
 What both discount Functions share: the cart-line quantity and price
 arithmetic, the shape of the discount operations they return (the
 `CartLinesDiscountsGenerateRunResult` of the Shopify discount API), the
 `toFixed(2)` rounding of the per-item amount, the filtering of cart lines
 into candidates, and the bundling of those candidates into operations.
 */
module DiscountApi {
  import opened Js

  /** A cart line quantity; the checkout never sends a line with fewer than one unit. */
  type Quantity = q: int | q >= 1 witness 1

  /** `{ cartLine: { id } }` */
  datatype Target = CartLineTarget(id: string)

  /** One product discount candidate: a fixed amount taken off every unit of its
      targets. `amountCents` is the two-decimal text `toFixed(2)` prints, counted
      in hundredths. */
  datatype Candidate = Candidate(
    message: string,
    targets: seq<Target>,
    amountCents: int,
    appliesToEachItem: bool)

  /** `{ productDiscountsAdd: { candidates, selectionStrategy } }` */
  datatype Operation = ProductDiscountsAdd(candidates: seq<Candidate>, selectionStrategy: string)

  /** `{ operations }` */
  datatype RunResult = RunResult(operations: seq<Operation>)

  const NoOperations: RunResult := RunResult([])

  /** `input.cart?.buyerIdentity?.customer?.hasAnyTag || false`, where `None`
      stands for any absent link of the chain. */
  predicate IsWholesaleBuyer(hasAnyTag: Option<bool>)
  {
    hasAnyTag == Some(true)
  }

  /** `line.quantity ?? 1` */
  function QuantityOrDefault(quantity: Option<Quantity>): Quantity
  {
    if quantity.Some? then quantity.value else 1
  }

  /** The pre-discount price of one unit of a line, `subtotal / qty`. */
  function RetailUnitPrice(subtotal: real, qty: Quantity): real
  {
    subtotal / qty as real
  }

  /** `x.toFixed(2)` in hundredths: the nearest whole number of cents, a tie going up. */
  function Cents(x: real): (c: int)
    ensures x * 100.0 - 0.5 < c as real <= x * 100.0 + 0.5
  {
    (x * 100.0 + 0.5).Floor
  }

  /** An amount that already has two decimals is printed unchanged. */
  lemma CentsOfTwoDecimals(k: int)
    ensures Cents(k as real / 100.0) == k
  {
  }

  /** After a line's per-item discount is applied, each unit costs its wholesale
      price to within half a cent, and the discount is never negative. */
  lemma DiscountReachesWholesale(retail: real, wholesale: real)
    requires wholesale < retail
    ensures Cents(retail - wholesale) >= 0
    ensures -0.005 <= (retail - Cents(retail - wholesale) as real / 100.0) - wholesale < 0.005
  {
  }

  /** Once the emitted per-item amount is taken off every unit, the line total
      is the wholesale total to within half a cent per unit. */
  lemma DiscountedLineTotal(subtotal: real, qty: Quantity, wholesale: real)
    requires wholesale < RetailUnitPrice(subtotal, qty)
    ensures var perItem := Cents(RetailUnitPrice(subtotal, qty) - wholesale) as real / 100.0;
      -0.005 * qty as real <= subtotal - perItem * qty as real - wholesale * qty as real < 0.005 * qty as real
  {
    var q := qty as real;
    var retail := RetailUnitPrice(subtotal, qty);
    var perItem := Cents(retail - wholesale) as real / 100.0;
    var gap := retail - perItem - wholesale;
    DiscountReachesWholesale(retail, wholesale);
    assert retail * q == subtotal;
    assert subtotal - perItem * q - wholesale * q == gap * q;
    assert -0.005 * q <= gap * q < 0.005 * q by {
      assert -0.005 <= gap < 0.005 && q > 0.0;
      assert (0.005 - gap) * q > 0.0;
      assert (gap + 0.005) * q >= 0.0;
    }
    assert subtotal - perItem * q - wholesale * q < 0.005 * q;
  }

  /** The candidate pushed for a qualifying line: `perItem` off each unit of that line only. */
  function FixedAmountCandidate(message: string, lineId: string, perItem: real): Candidate
  {
    Candidate(message, [CartLineTarget(lineId)], Cents(perItem), true)
  }

  /** The zero or one candidates a line contributes. */
  function Contribution(c: Option<Candidate>): seq<Candidate>
  {
    if c.Some? then [c.value] else []
  }

  /** The candidates that `candidateFor` yields for `lines`, in line order. */
  function Collect<L>(candidateFor: L -> Option<Candidate>, lines: seq<L>): (r: seq<Candidate>)
    ensures |r| <= |lines|
    ensures r == [] <==> forall i :: 0 <= i < |lines| ==> candidateFor(lines[i]).None?
  {
    if lines == [] then []
    else
      var rest := Collect(candidateFor, lines[1..]);
      assert forall i :: 1 <= i < |lines| ==> lines[i] == lines[1..][i - 1];
      Contribution(candidateFor(lines[0])) + rest
  }

  lemma {:induction false} CollectAppend<L>(candidateFor: L -> Option<Candidate>, a: seq<L>, b: seq<L>)
    ensures Collect(candidateFor, a + b) == Collect(candidateFor, a) + Collect(candidateFor, b)
  {
    if a == [] {
      assert a + b == b;
    } else {
      assert (a + b)[1..] == a[1..] + b;
      CollectAppend(candidateFor, a[1..], b);
    }
  }

  /** A line's candidate, if any, sits between those of the lines before it and
      those of the lines after it: one candidate at most per line, in line order. */
  lemma CollectAround<L>(candidateFor: L -> Option<Candidate>, before: seq<L>, line: L, after: seq<L>)
    ensures Collect(candidateFor, before + [line] + after)
         == Collect(candidateFor, before) + Contribution(candidateFor(line)) + Collect(candidateFor, after)
  {
    CollectAppend(candidateFor, before + [line], after);
    CollectAppend(candidateFor, before, [line]);
  }

  /** Every collected candidate is the candidate of some line, and every line's candidate is collected. */
  lemma {:induction false} CollectMembers<L>(candidateFor: L -> Option<Candidate>, lines: seq<L>, c: Candidate)
    ensures c in Collect(candidateFor, lines) <==> exists i :: 0 <= i < |lines| && candidateFor(lines[i]) == Some(c)
  {
    if lines != [] {
      CollectMembers(candidateFor, lines[1..], c);
      if c in Collect(candidateFor, lines[1..]) {
        var i :| 0 <= i < |lines[1..]| && candidateFor(lines[1..][i]) == Some(c);
        assert candidateFor(lines[i + 1]) == Some(c);
      }
      if exists i :: 0 <= i < |lines| && candidateFor(lines[i]) == Some(c) {
        var i :| 0 <= i < |lines| && candidateFor(lines[i]) == Some(c);
        if i > 0 {
          assert candidateFor(lines[1..][i - 1]) == Some(c);
        }
      }
    }
  }

  /** Zero candidates give no operation; otherwise one `productDiscountsAdd`
      operation holding all of them with the strategy "ALL". */
  function Bundle(candidates: seq<Candidate>): (r: RunResult)
    ensures |r.operations| <= 1
    ensures forall op :: op in r.operations ==> op.selectionStrategy == "ALL" && op.candidates != []
    ensures AllCandidates(r) == candidates
  {
    if |candidates| == 0 then NoOperations
    else
      var operations := [ProductDiscountsAdd(candidates, "ALL")];
      assert Flatten(operations[1..]) == [];
      RunResult(operations)
  }

  /** Every candidate the operations of a result carry, in order. */
  function AllCandidates(r: RunResult): seq<Candidate>
  {
    Flatten(r.operations)
  }

  function Flatten(operations: seq<Operation>): seq<Candidate>
  {
    if operations == [] then [] else operations[0].candidates + Flatten(operations[1..])
  }
}
