/**
 * The two handlers together: the checkout writes the cancellation instant into the
 * subscription metadata as a decimal string, the provider copies that metadata onto
 * the subscription when the customer pays, and the webhook parses it back and sets
 * `cancel_at` to the very instant the checkout computed.
 */
module Protocol {
  import opened Wrappers
  import opened Decimal
  import opened Calendar
  import opened StripeClient
  import opened Provider
  import opened Checkout
  import opened Webhook
  import WebhookProperties

  /** A placed checkout left behind a subscription session carrying the plan as metadata. */
  lemma PlacedSession(plan: Plan, cancelAt: JsNumber, appUrl: Option<string>, client: Client, s: State)
    requires Place(plan, cancelAt, appUrl, client, s).response.Created?
    ensures var out := Place(plan, cancelAt, appUrl, client, s);
      && out.response.sessionId in out.state.sessions
      && out.state.sessions[out.response.sessionId].params.mode == SubscriptionMode
      && out.state.sessions[out.response.sessionId].params.subscriptionMetadata
         == PlanMetadata(cancelAt, plan.count, plan.priceId)
      && out.state.faults == s.faults
  {
  }

  /** A successful checkout leaves an open subscription session whose metadata is the plan. */
  lemma CheckoutLeavesSession(body: Body, now: DateTime, appUrl: Option<string>, client: Client, s: State)
    requires CreateCheckoutSession(body, now, appUrl, client, s).response.Created?
    ensures var out := CreateCheckoutSession(body, now, appUrl, client, s);
      && client.Live? && body.paymentsCount.JsonNumber? && body.paymentsCount.number >= 1
      && out.response.sessionId in out.state.sessions
      && out.state.sessions[out.response.sessionId].params.mode == SubscriptionMode
      && out.state.sessions[out.response.sessionId].params.subscriptionMetadata
         == PlanMetadata(CancelAtTimestamp(now, body.paymentsCount.number), body.paymentsCount.number, body.priceId.text)
      && out.state.faults == s.faults
  {
    var prepared := Prepare(body, client, s);
    var plan := prepared.result.value;
    PlacedSession(plan, CancelAtTimestamp(now, plan.count), appUrl, client, prepared.state);
  }

  /** The cutoff is written as a non-empty decimal string, so the webhook finds a plan. */
  lemma PlanIsFound(cutoff: JsNumber, count: int, priceId: string)
    ensures PlannedCancelAt(PlanMetadata(cutoff, count, priceId)) == Some(ToString(cutoff))
  {
    var m := PlanMetadata(cutoff, count, priceId);
    assert m["cancel_at_timestamp"] == ToString(cutoff);
  }

  /**
   * Paying an open subscription session whose metadata holds a readable cutoff, then
   * delivering the resulting event, sets the new subscription's `cancel_at` to it; the
   * event is acknowledged when the cutoff is a representable date.
   */
  lemma PaidSessionReconciled(st: State, sessionId: string, client: Client,
                              signature: Option<string>, secret: Option<string>, cancelAt: int)
    requires sessionId in st.sessions && st.sessions[sessionId].params.mode == SubscriptionMode
    requires PlannedCancelAt(st.sessions[sessionId].params.subscriptionMetadata) == Some(ToString(Finite(cancelAt)))
    requires client.Live? && Given(signature) && Given(secret)
    requires RetrieveSubscriptionOp !in st.faults && UpdateSubscriptionOp !in st.faults
    ensures var paid := CompleteCheckout(st, sessionId);
      var delivered := HandleWebhook(signature, secret, Verified(paid.event), client, paid.state);
      && (-MaxTimeValue <= cancelAt * 1000 <= MaxTimeValue ==> delivered.response == Received)
      && paid.subscriptionId in delivered.state.subscriptions
      && delivered.state.subscriptions[paid.subscriptionId].cancelAt == Some(cancelAt)
  {
    var paid := CompleteCheckout(st, sessionId);
    ParseIntToString(Finite(cancelAt));
    assert paid.subscriptionId != "" by {
      assert paid.subscriptionId == "sub_" + NatToDigits(st.minted);
    }
    WebhookProperties.CompletedCheckoutSetsCancelAt(signature, secret, paid.event.data, client, paid.state, paid.subscriptionId, cancelAt);
  }

  /**
   * Checkout, payment, webhook: when the checkout succeeds and its cutoff is a real
   * instant, the delivered `checkout.session.completed` event is acknowledged and the
   * new subscription's `cancel_at` becomes that cutoff.
   */
  lemma CheckoutThenWebhook(body: Body, now: DateTime, appUrl: Option<string>, client: Client, s: State,
                            signature: Option<string>, secret: Option<string>)
    requires CreateCheckoutSession(body, now, appUrl, client, s).response.Created?
    requires CancelAtTimestamp(now, body.paymentsCount.number).Finite?
    requires Given(signature) && Given(secret)
    requires RetrieveSubscriptionOp !in s.faults && UpdateSubscriptionOp !in s.faults
    ensures var out := CreateCheckoutSession(body, now, appUrl, client, s);
      && out.response.sessionId in out.state.sessions
      && var paid := CompleteCheckout(out.state, out.response.sessionId);
         var delivered := HandleWebhook(signature, secret, Verified(paid.event), client, paid.state);
         && delivered.response == Received
         && paid.subscriptionId in delivered.state.subscriptions
         && delivered.state.subscriptions[paid.subscriptionId].cancelAt
            == Some(CancelAtTimestamp(now, body.paymentsCount.number).value)
  {
    var out := CreateCheckoutSession(body, now, appUrl, client, s);
    var count := body.paymentsCount.number;
    var cutoff := CancelAtTimestamp(now, count);
    CheckoutLeavesSession(body, now, appUrl, client, s);
    PlanIsFound(cutoff, count, body.priceId.text);
    CutoffSecondsInRange(now, count);
    PaidSessionReconciled(out.state, out.response.sessionId, client, signature, secret, cutoff.value);
  }

  /**
   * The same round trip for any request made at a valid instant of the years 1 to
   * 200000 with at most 100000 payments: the cutoff is then always a real instant.
   */
  lemma DatedCheckoutThenWebhook(body: Body, now: DateTime, appUrl: Option<string>, client: Client, s: State,
                                 signature: Option<string>, secret: Option<string>)
    requires CreateCheckoutSession(body, now, appUrl, client, s).response.Created?
    requires Valid(now) && 1 <= now.year <= 200_000 && body.paymentsCount.number <= 100_000
    requires Given(signature) && Given(secret)
    requires RetrieveSubscriptionOp !in s.faults && UpdateSubscriptionOp !in s.faults
    ensures var out := CreateCheckoutSession(body, now, appUrl, client, s);
      && out.response.sessionId in out.state.sessions
      && var paid := CompleteCheckout(out.state, out.response.sessionId);
         var delivered := HandleWebhook(signature, secret, Verified(paid.event), client, paid.state);
         && delivered.response == Received
         && paid.subscriptionId in delivered.state.subscriptions
         && delivered.state.subscriptions[paid.subscriptionId].cancelAt
            == Some(CancelAtTimestamp(now, body.paymentsCount.number).value)
  {
    CheckoutLeavesSession(body, now, appUrl, client, s);
    CutoffIsFinite(now, body.paymentsCount.number);
    CheckoutThenWebhook(body, now, appUrl, client, s, signature, secret);
  }
}
