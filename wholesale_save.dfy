/**
 The save route (`POST /api/wholesale/save`): it turns a batch of per-variant
 price updates into `metafieldsSet` inputs that write each variant's
 `wholesale.price` money metafield, and maps the Admin API's answer to an HTTP
 response. The Admin API call is a parameter: a function from the inputs it is
 sent to the outcome it comes back with.
 */
module WholesaleSave {
  import opened Js

  /** One element of the body's `updates` array: `{ variantId, value }`. */
  datatype Update = Update(variantId: string, value: string)

  /** The body's `updates` member: an array, or anything else (absent included). */
  datatype UpdatesField = NotAnArray | UpdateArray(items: seq<Update>)

  /** `await request.json()`: it throws with a message, or yields a body. */
  datatype Request = Unreadable(message: string) | Body(updates: UpdatesField)

  /** A `MetafieldsSetInput`; `kind` is its `type`. */
  datatype MetafieldInput = MetafieldInput(
    ownerId: string,
    namespace: string,
    key: string,
    kind: string,
    value: string)

  datatype UserError = UserError(field: seq<string>, message: string)

  /** How the `metafieldsSet` call ends: the call or `response.json()` throws, or
      it answers with `result?.data?.metafieldsSet?.userErrors`, which is `None`
      when any link of that path is absent. */
  datatype GraphqlOutcome = Threw(message: string) | Answered(userErrors: Option<seq<UserError>>)

  /** The JSON body of a response. */
  datatype Reply =
    | NoUpdatesProvided                  // { error: "No updates provided" }
    | Saved                              // { success: true }
    | Rejected(errors: seq<UserError>)   // { success: false, errors }
    | Failed(error: string)              // { success: false, error }

  datatype Response = Response(status: int, reply: Reply)

  /** The reply's `success` member, if it has one. */
  function SuccessOf(reply: Reply): Option<bool>
  {
    match reply
    case NoUpdatesProvided => None
    case Saved => Some(true)
    case _ => Some(false)
  }

  /** The money value `{ amount: parseFloat(value), currency_code: "USD" }`;
      `JSON.stringify` writes a NaN amount as null. */
  function MoneyValue(amount: Option<real>): Json
  {
    JObj(map[
      "amount" := if amount.Some? then JNum(amount.value) else JNull,
      "currency_code" := JStr("USD")])
  }

  /** The law the save-to-read round trip rests on: `JSON.parse` gives back every
      money value the route can write, and the text it writes is never empty. */
  ghost predicate SavedValuesRoundTrip(js: Runtime)
  {
    forall s: string ::
      var money := MoneyValue(js.parseFloat(s));
      js.jsonParse(js.jsonStringify(money)) == Some(money) && js.jsonStringify(money) != ""
  }

  /** The law can be met, and by a runtime whose `parseFloat` never gives NaN. */
  lemma SavedValuesRoundTripIsSatisfiable()
    ensures exists js: Runtime :: SavedValuesRoundTrip(js) && forall s: string :: js.parseFloat(s).Some?
  {
    var js := Runtime(
      (s: string) => Some(|s| as real),
      (s: string) => None,
      (s: string) => Some(MoneyValue(Some((|s| - 1) as real))),
      (j: Json) => if j.JObj? && "amount" in j.members && j.members["amount"].JNum? && j.members["amount"].n >= 0.0
                   then seq(j.members["amount"].n.Floor + 1, _ => 'x')
                   else "x");
    forall s: string
      ensures var money := MoneyValue(js.parseFloat(s));
        js.jsonParse(js.jsonStringify(money)) == Some(money) && js.jsonStringify(money) != ""
    {
      var money := MoneyValue(js.parseFloat(s));
      assert money.members["amount"] == JNum(|s| as real);
      assert (|s| as real).Floor == |s|;
      assert |js.jsonStringify(money)| == |s| + 1;
    }
    assert SavedValuesRoundTrip(js) && forall s: string :: js.parseFloat(s).Some?;
  }

  /** The input that sets one variant's `wholesale.price` metafield. */
  function MetafieldInputFor(js: Runtime, update: Update): (r: MetafieldInput)
    ensures r.ownerId == update.variantId
    ensures r.namespace == "wholesale" && r.key == "price" && r.kind == "money"
    ensures SavedValuesRoundTrip(js) ==> js.jsonParse(r.value) == Some(MoneyValue(js.parseFloat(update.value)))
  {
    MetafieldInput(
      update.variantId, "wholesale", "price", "money",
      js.jsonStringify(MoneyValue(js.parseFloat(update.value))))
  }

  /** `updates.map(...)`: one input per update, in the same order. */
  function MetafieldInputs(js: Runtime, updates: seq<Update>): (r: seq<MetafieldInput>)
    ensures |r| == |updates|
    ensures forall i :: 0 <= i < |updates| ==> r[i] == MetafieldInputFor(js, updates[i])
  {
    seq(|updates|, i requires 0 <= i < |updates| => MetafieldInputFor(js, updates[i]))
  }

  /** What the route does before the Admin API call: answer at once, or make the
      call with these inputs. */
  datatype Step = Respond(response: Response) | Call(metafields: seq<MetafieldInput>)

  /** True when the body has no `updates` array or an empty one. */
  predicate NoUpdates(updates: UpdatesField)
  {
    updates.NotAnArray? || updates.items == []
  }

  function Prepare(js: Runtime, request: Request): (r: Step)
    ensures r.Call? <==> request.Body? && !NoUpdates(request.updates)
    ensures r.Call? ==> |r.metafields| == |request.updates.items|
  {
    match request
    case Unreadable(message) => Respond(Response(500, Failed(message)))
    case Body(updates) =>
      if NoUpdates(updates) then Respond(Response(400, NoUpdatesProvided))
      else Call(MetafieldInputs(js, updates.items))
  }

  /** The response to the Admin API's outcome: its user errors give 400, a
      throw gives 500, and no user errors (a missing list included) give 200. */
  function Answer(outcome: GraphqlOutcome): (r: Response)
    ensures r.reply == Saved <==> outcome == Answered(None) || outcome == Answered(Some([]))
    ensures outcome.Answered? && outcome.userErrors.Some? && outcome.userErrors.value != []
      ==> r == Response(400, Rejected(outcome.userErrors.value))
    ensures outcome.Threw? ==> r == Response(500, Failed(outcome.message))
    ensures r.status == 200 <==> SuccessOf(r.reply) == Some(true)
  {
    match outcome
    case Threw(message) => Response(500, Failed(message))
    case Answered(userErrors) =>
      var errors := if userErrors.Some? then userErrors.value else [];
      if |errors| > 0 then Response(400, Rejected(errors))
      else Response(200, Saved)
  }

  /** The route's `action`, after authentication. */
  function Action(js: Runtime, request: Request, graphql: seq<MetafieldInput> -> GraphqlOutcome): (r: Response)
    ensures request.Unreadable? ==> r == Response(500, Failed(request.message))
    ensures request.Body? && NoUpdates(request.updates) ==> r == Response(400, NoUpdatesProvided)
    ensures SuccessOf(r.reply) == Some(true) <==>
      && request.Body? && !NoUpdates(request.updates)
      && graphql(MetafieldInputs(js, request.updates.items)) in {Answered(None), Answered(Some([]))}
    ensures r.status == 200 <==> SuccessOf(r.reply) == Some(true)
  {
    match Prepare(js, request)
    case Respond(response) => response
    case Call(metafields) => Answer(graphql(metafields))
  }

  /** Without a non-empty `updates` array the response does not depend on the
      Admin API: no call is made. */
  lemma NoUpdatesNoCall(
    js: Runtime, request: Request,
    graphql: seq<MetafieldInput> -> GraphqlOutcome, other: seq<MetafieldInput> -> GraphqlOutcome)
    requires request.Unreadable? || NoUpdates(request.updates)
    ensures Action(js, request, graphql) == Action(js, request, other)
  {
  }

  /** The Admin API is sent exactly one input per update, in order, and its
      outcome alone decides the response. */
  lemma UpdatesReachTheCall(js: Runtime, updates: seq<Update>, graphql: seq<MetafieldInput> -> GraphqlOutcome)
    requires updates != []
    ensures Prepare(js, Body(UpdateArray(updates))) == Call(MetafieldInputs(js, updates))
    ensures Action(js, Body(UpdateArray(updates)), graphql) == Answer(graphql(MetafieldInputs(js, updates)))
  {
  }
}
