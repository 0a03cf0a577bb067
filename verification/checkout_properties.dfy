/** What the checkout handler promises, stated over its response and the provider's call log. */
module CheckoutProperties {
  import opened Wrappers
  import opened Text
  import opened Decimal
  import opened Calendar
  import opened Minimums
  import opened StripeClient
  import opened Provider
  import opened Checkout

  /** A body that does not parse is a 500 with the parser's message, before any provider call. */
  lemma UnparsableBodyFails(reason: string, now: DateTime, appUrl: Option<string>, client: Client, s: State)
    ensures var out := CreateCheckoutSession(Unparsable(reason), now, appUrl, client, s);
      out.response == Rejected(Unexpected(reason)) && Status(out.response) == 500 && out.state == s
  {
  }

  /**
   * A missing, empty or non-string `priceId`, or a `paymentsCount` that is not a number
   * of at least 1, is a 400 and the provider is never called.
   */
  lemma MalformedInputRejected(body: Body, now: DateTime, appUrl: Option<string>, client: Client, s: State)
    requires body.Body? && !WellFormed(body)
    ensures var out := CreateCheckoutSession(body, now, appUrl, client, s);
      && Status(out.response) == 400
      && out.state == s
      && out.response.error == (if body.priceId.JsonString? && body.priceId.text != "" then PaymentsCountInvalid
                                else PriceIdRequired)
  {
  }

  /** With the placeholder client the first provider access throws: 500, nothing reaches the provider. */
  lemma PlaceholderClientFails(body: Body, now: DateTime, appUrl: Option<string>, s: State)
    requires WellFormed(body)
    ensures var out := CreateCheckoutSession(body, now, appUrl, Placeholder, s);
      && out.response == Rejected(Unexpected("Cannot read properties of undefined (reading 'retrieve')"))
      && Status(out.response) == 500
      && out.state == s
  {
    var prepared := Prepare(body, Placeholder, s);
    assert prepared.result == Err(FromFailure(PlaceholderAccess("retrieve")));
  }

  /** A provider error on the first call is mapped by the catch block, and nothing is created. */
  lemma RetrieveFailureMapped(body: Body, now: DateTime, appUrl: Option<string>, client: Client, s: State)
    requires WellFormed(body) && client.Live?
    requires RetrievePriceOp in s.faults
    ensures var out := CreateCheckoutSession(body, now, appUrl, client, s);
      && out.response == Rejected(FromFailure(s.faults[RetrievePriceOp]))
      && out.state == Logged(s, RetrievePriceCall(body.priceId.text))
  {
  }

  /** A price that is not monthly recurring is a 400; no price and no session is created. */
  lemma NonMonthlyPriceRejected(body: Body, now: DateTime, appUrl: Option<string>, client: Client, s: State)
    requires WellFormed(body) && client.Live?
    requires RetrievePriceOp !in s.faults && body.priceId.text in s.prices
    requires !IsMonthlyRecurring(s.prices[body.priceId.text])
    ensures var out := CreateCheckoutSession(body, now, appUrl, client, s);
      && out.response == Rejected(NotMonthly)
      && Status(out.response) == 400
      && out.state == Logged(s, RetrievePriceCall(body.priceId.text))
  {
  }

  /**
   * An installment below the currency's minimum is a 400 naming the installment, the
   * minimum and the currency; no price and no session is created.
   */
  lemma BelowMinimumRejected(body: Body, now: DateTime, appUrl: Option<string>, client: Client, s: State)
    requires WellFormed(body) && client.Live?
    requires RetrievePriceOp !in s.faults && body.priceId.text in s.prices
    requires var p := s.prices[body.priceId.text];
      && IsMonthlyRecurring(p)
      && AmountPerPayment(TotalAmount(p), body.paymentsCount.number) < GetMinimumAmount(p.currency)
    ensures var out := CreateCheckoutSession(body, now, appUrl, client, s);
      var p := s.prices[body.priceId.text];
      && out.response == Rejected(BelowMinimum(AmountPerPayment(TotalAmount(p), body.paymentsCount.number),
                                               GetMinimumAmount(p.currency), Lower(p.currency)))
      && Status(out.response) == 400
      && out.state == Logged(s, RetrievePriceCall(body.priceId.text))
  {
    CaseInsensitive(s.prices[body.priceId.text].currency);
  }

  /**
   * Phase two, when it succeeds, made exactly two calls: one monthly price for the
   * installment, then one subscription session for that price carrying the plan.
   */
  lemma PlaceSucceeded(plan: Plan, cancelAt: JsNumber, appUrl: Option<string>, client: Client, s: State)
    requires Place(plan, cancelAt, appUrl, client, s).response.Created?
    ensures var out := Place(plan, cancelAt, appUrl, client, s);
      var newPriceId := Mint("price_", s);
      && client.Live?
      && out.response.amountPerPayment == plan.amount
      && out.response.totalAmount == plan.total
      && out.state.log == s.log + [
           CreatePriceCall(EphemeralPrice(plan.original, plan.amount)),
           CreateSessionCall(CheckoutParams(newPriceId, PlanMetadata(cancelAt, plan.count, plan.priceId), AppUrl(appUrl)))]
      && newPriceId in out.state.prices
      && out.state.prices[newPriceId].unitAmount == Some(plan.amount)
  {
  }

  /**
   * A successful checkout made exactly three calls: it retrieved the original price,
   * created one monthly price for the installment (same product, lower-cased currency),
   * and opened one subscription session for that price whose metadata is the
   * cancellation plan. The response echoes the installment and the total.
   */
  lemma SuccessfulCheckout(body: Body, now: DateTime, appUrl: Option<string>, client: Client, s: State)
    requires CreateCheckoutSession(body, now, appUrl, client, s).response.Created?
    ensures WellFormed(body) && client.Live? && body.priceId.text in s.prices
    ensures var out := CreateCheckoutSession(body, now, appUrl, client, s);
      var priceId, count := body.priceId.text, body.paymentsCount.number;
      var p := s.prices[priceId];
      var amount := AmountPerPayment(TotalAmount(p), count);
      && IsMonthlyRecurring(p)
      && amount >= GetMinimumAmount(p.currency)
      && out.response.amountPerPayment == amount
      && out.response.totalAmount == TotalAmount(p)
      && out.state.log == s.log + [
           RetrievePriceCall(priceId),
           CreatePriceCall(PriceParams(ProductIdOf(p.product), amount, Lower(p.currency), Recurring(Month, 1))),
           CreateSessionCall(CheckoutParams(Mint("price_", s), PlanMetadata(CancelAtTimestamp(now, count), count, priceId), AppUrl(appUrl)))]
  {
    var prepared := Prepare(body, client, s);
    var plan := prepared.result.value;
    assert CreateCheckoutSession(body, now, appUrl, client, s) == Place(plan, CancelAtTimestamp(now, plan.count), appUrl, client, prepared.state);
    assert Mint("price_", prepared.state) == Mint("price_", s);
    PlaceSucceeded(plan, CancelAtTimestamp(now, plan.count), appUrl, client, prepared.state);
    assert EphemeralPrice(plan.original, plan.amount)
        == PriceParams(ProductIdOf(plan.original.product), plan.amount, Lower(plan.original.currency), Recurring(Month, 1));
  }

  /**
   * When the session cannot be created, the error is reported but the installment price
   * already minted stays at the provider: there is no rollback.
   */
  lemma OrphanedPriceOnSessionFailure(body: Body, now: DateTime, appUrl: Option<string>, client: Client, s: State)
    requires WellFormed(body) && client.Live?
    requires RetrievePriceOp !in s.faults && CreatePriceOp !in s.faults && CreateSessionOp in s.faults
    requires body.priceId.text in s.prices
    requires var p := s.prices[body.priceId.text];
      && IsMonthlyRecurring(p)
      && AmountPerPayment(TotalAmount(p), body.paymentsCount.number) >= GetMinimumAmount(p.currency)
    ensures var out := CreateCheckoutSession(body, now, appUrl, client, s);
      var p := s.prices[body.priceId.text];
      && out.response == Rejected(FromFailure(s.faults[CreateSessionOp]))
      && Mint("price_", s) in out.state.prices
      && out.state.prices[Mint("price_", s)].unitAmount == Some(AmountPerPayment(TotalAmount(p), body.paymentsCount.number))
      && out.state.sessions == s.sessions
  {
    CaseInsensitive(s.prices[body.priceId.text].currency);
  }

  /**
   * The converse of `Prepare`'s contract: a well-formed request for a stored monthly
   * price whose installment meets the currency's minimum yields a plan when the read
   * succeeds.
   */
  lemma PrepareSucceeds(body: Body, client: Client, s: State)
    requires WellFormed(body) && client.Live?
    requires RetrievePriceOp !in s.faults && body.priceId.text in s.prices
    requires var p := s.prices[body.priceId.text];
      && IsMonthlyRecurring(p)
      && AmountPerPayment(TotalAmount(p), body.paymentsCount.number) >= GetMinimumAmount(p.currency)
    ensures Prepare(body, client, s).result.Ok?
  {
    CaseInsensitive(s.prices[body.priceId.text].currency);
  }

  /**
   * The converse of the rejections: a well-formed request for a stored monthly price
   * whose installment meets the currency's minimum is accepted when the provider
   * answers all three calls, and the response carries the installment and the total.
   */
  lemma AcceptableCheckoutSucceeds(body: Body, now: DateTime, appUrl: Option<string>, client: Client, s: State)
    requires WellFormed(body) && client.Live?
    requires RetrievePriceOp !in s.faults && CreatePriceOp !in s.faults && CreateSessionOp !in s.faults
    requires body.priceId.text in s.prices
    requires var p := s.prices[body.priceId.text];
      && IsMonthlyRecurring(p)
      && AmountPerPayment(TotalAmount(p), body.paymentsCount.number) >= GetMinimumAmount(p.currency)
    ensures var out := CreateCheckoutSession(body, now, appUrl, client, s);
      var p := s.prices[body.priceId.text];
      && out.response.Created?
      && out.response.amountPerPayment == AmountPerPayment(TotalAmount(p), body.paymentsCount.number)
      && out.response.totalAmount == TotalAmount(p)
      && Status(out.response) == 200
  {
    CaseInsensitive(s.prices[body.priceId.text].currency);
  }

  /**
   * The handler never overwrites anything at the provider: while identifiers are fresh,
   * every price and session that existed before is still there unchanged, subscriptions
   * are untouched, and identifiers stay fresh for the next request.
   */
  lemma CheckoutKeepsExistingObjects(body: Body, now: DateTime, appUrl: Option<string>, client: Client, s: State)
    requires FreshIds(s)
    ensures var out := CreateCheckoutSession(body, now, appUrl, client, s);
      && FreshIds(out.state)
      && (forall id :: id in s.prices ==> id in out.state.prices && out.state.prices[id] == s.prices[id])
      && (forall id :: id in s.sessions ==> id in out.state.sessions && out.state.sessions[id] == s.sessions[id])
      && out.state.subscriptions == s.subscriptions
  {
    var prepared := Prepare(body, client, s);
    if prepared.result.Ok? {
      var plan := prepared.result.value;
      PlaceKeepsExistingObjects(plan, CancelAtTimestamp(now, plan.count), appUrl, client, prepared.state);
    }
  }

  /** Phase two mints at most one price and one session, both under fresh identifiers. */
  lemma PlaceKeepsExistingObjects(plan: Plan, cancelAt: JsNumber, appUrl: Option<string>, client: Client, s: State)
    requires FreshIds(s)
    ensures var out := Place(plan, cancelAt, appUrl, client, s);
      && FreshIds(out.state)
      && (forall id :: id in s.prices ==> id in out.state.prices && out.state.prices[id] == s.prices[id])
      && (forall id :: id in s.sessions ==> id in out.state.sessions && out.state.sessions[id] == s.sessions[id])
      && out.state.subscriptions == s.subscriptions
  {
    var params := EphemeralPrice(plan.original, plan.amount);
    var minted := CreatePrice(client, s, params);
    CreatePriceFresh(client, s, params);
    if minted.result.Ok? {
      var sessionParams := CheckoutParams(minted.result.value, PlanMetadata(cancelAt, plan.count, plan.priceId), AppUrl(appUrl));
      CreateSessionFresh(client, minted.state, sessionParams);
    }
  }

  /** The $30.00 monthly price of the worked example, and a provider holding only it. */
  function ExamplePrice(unitAmount: nat): Price
  {
    Price("price_x", ProductId("prod_X"), RecurringPrice, Some(Recurring(Month, 1)), Some(unitAmount), "usd")
  }

  function ExampleState(unitAmount: nat): State
  {
    State(map["price_x" := ExamplePrice(unitAmount)], map[], map[], map[], 0, [])
  }

  /** A $30.00 monthly price split in 3: a $10.00 monthly installment, total 3000, `payments_count` "3". */
  lemma ThirtyDollarsInThree(now: DateTime)
    ensures Prepare(Body(JsonString("price_x"), JsonNumber(3)), Live("sk_test_1"), ExampleState(3000)).result
            == Ok(Plan("price_x", 3, ExamplePrice(3000), 3000, 1000))
    ensures var out := CreateCheckoutSession(Body(JsonString("price_x"), JsonNumber(3)), now, None, Live("sk_test_1"), ExampleState(3000));
      out.response.Created? && out.response.amountPerPayment == 1000 && out.response.totalAmount == 3000
    ensures PlanMetadata(CancelAtTimestamp(now, 3), 3, "price_x")["payments_count"] == "3"
  {
    LowerCaseKey("usd");
    assert AmountPerPayment(3000, 3) == 1000;
    TableEntries("usd");
    var prepared := Prepare(Body(JsonString("price_x"), JsonNumber(3)), Live("sk_test_1"), ExampleState(3000));
    assert prepared.result == Ok(Plan("price_x", 3, ExamplePrice(3000), 3000, 1000));
    assert ToString(Finite(3)) == "3";
  }

  /** 100 split in 5 is 20 per installment, below the usd minimum of 50: rejected naming 20 and 50. */
  lemma HundredCentsInFiveRejected(now: DateTime)
    ensures var out := CreateCheckoutSession(Body(JsonString("price_x"), JsonNumber(5)), now, None, Live("sk_test_1"), ExampleState(100));
      && out.response == Rejected(BelowMinimum(20, 50, "usd"))
      && Status(out.response) == 400
      && out.state.prices == ExampleState(100).prices
  {
    LowerCaseKey("usd");
    assert AmountPerPayment(100, 5) == 20;
    TableEntries("usd");
    var prepared := Prepare(Body(JsonString("price_x"), JsonNumber(5)), Live("sk_test_1"), ExampleState(100));
    assert prepared.result == Err(BelowMinimum(20, 50, "usd"));
  }
}
