/** What the reconciler promises, stated over its response and the provider's state and call log. */
module WebhookProperties {
  import opened Wrappers
  import opened Decimal
  import opened Calendar
  import opened StripeClient
  import opened Provider
  import opened Webhook

  /** A delivery that gets past the signature header, the secret and the signature check. */
  predicate Authentic(signature: Option<string>, secret: Option<string>, verification: Verification, client: Client)
  {
    Given(signature) && Given(secret) && client.Live? && verification.Verified?
  }

  /**
   * Without a signature header, without a signing secret, or with a signature that does
   * not verify, the request is refused (400, 500, 400 respectively) and nothing is
   * read or written at the provider.
   */
  lemma UnauthenticRejected(signature: Option<string>, secret: Option<string>, verification: Verification,
                            client: Client, s: State)
    requires !Authentic(signature, secret, verification, client)
    ensures var out := HandleWebhook(signature, secret, verification, client, s);
      && out.state == s
      && out.response.Failed?
      && (!Given(signature) ==> out.response.error == NoSignature && Status(out.response) == 400)
      && (Given(signature) && !Given(secret) ==> out.response.error == SecretNotConfigured && Status(out.response) == 500)
      && (Given(signature) && Given(secret) && client.Live? ==>
            && out.response.error == BadSignature(verification.message)
            && ErrorText(out.response.error) == "Webhook Error: " + verification.message
            && Status(out.response) == 400)
  {
  }

  /**
   * A completed subscription checkout whose subscription carries a plan: exactly one
   * retrieve and one update, which sets `cancel_at` to the parsed metadata value. The
   * answer is 200 when the cutoff is a representable date, and otherwise the 500 of
   * the `RangeError` thrown while logging it, with the update already made.
   */
  lemma CompletedCheckoutSetsCancelAt(signature: Option<string>, secret: Option<string>, data: EventObject,
                                      client: Client, s: State, subscriptionId: string, cancelAt: int)
    requires Given(signature) && Given(secret) && client.Live?
    requires SubscriptionToReconcile(data) == Some(subscriptionId)
    requires RetrieveSubscriptionOp !in s.faults && UpdateSubscriptionOp !in s.faults
    requires subscriptionId in s.subscriptions
    requires var plan := PlannedCancelAt(s.subscriptions[subscriptionId].metadata);
      plan.Some? && ParseInt(plan.value) == Finite(cancelAt)
    ensures var out := HandleWebhook(signature, secret, Verified(Event(CompletedEventType, data)), client, s);
      && (-MaxTimeValue <= cancelAt * 1000 <= MaxTimeValue ==> out.response == Received)
      && (!(-MaxTimeValue <= cancelAt * 1000 <= MaxTimeValue) ==>
            out.response == Failed(ProcessingFailed(InvalidTimeValue)) && Status(out.response) == 500)
      && out.state.subscriptions == s.subscriptions[subscriptionId := s.subscriptions[subscriptionId].(cancelAt := Some(cancelAt))]
      && out.state.log == s.log + [RetrieveSubscriptionCall(subscriptionId), UpdateSubscriptionCall(subscriptionId, Finite(cancelAt))]
  {
  }

  /**
   * A session not in subscription mode, without a subscription, or a subscription
   * without a plan: no update is made and the event is still acknowledged.
   */
  lemma NothingToReconcile(signature: Option<string>, secret: Option<string>, data: EventObject,
                           client: Client, s: State)
    requires Authentic(signature, secret, Verified(Event(CompletedEventType, data)), client)
    requires RetrieveSubscriptionOp !in s.faults
    requires var id := SubscriptionToReconcile(data);
      id.None? || (id.value in s.subscriptions && PlannedCancelAt(s.subscriptions[id.value].metadata).None?)
    ensures var out := HandleWebhook(signature, secret, Verified(Event(CompletedEventType, data)), client, s);
      && out.response == Received
      && out.state.subscriptions == s.subscriptions
      && forall i :: |s.log| <= i < |out.state.log| ==> !out.state.log[i].UpdateSubscriptionCall?
  {
  }

  /**
   * The session's `subscription` may be the id or the expanded object: for a non-empty
   * id both forms are handled alike. An empty id string is falsy and skipped, while an
   * expanded object is truthy whatever its id.
   */
  lemma SubscriptionFormsAgree(signature: Option<string>, secret: Option<string>, mode: Mode, id: string,
                               client: Client, s: State)
    ensures id != "" ==>
      HandleWebhook(signature, secret, Verified(Event(CompletedEventType, CheckoutSessionObject(mode, Some(SubscriptionId(id))))), client, s)
      == HandleWebhook(signature, secret, Verified(Event(CompletedEventType, CheckoutSessionObject(mode, Some(ExpandedSubscription(id))))), client, s)
    ensures SubscriptionToReconcile(CheckoutSessionObject(SubscriptionMode, Some(SubscriptionId("")))) == None
    ensures SubscriptionToReconcile(CheckoutSessionObject(SubscriptionMode, Some(ExpandedSubscription("")))) == Some("")
  {
  }

  /** Any other event type, `invoice.paid` included, is acknowledged without touching the provider. */
  lemma OtherEventsIgnored(signature: Option<string>, secret: Option<string>, event: Event, client: Client, s: State)
    requires Authentic(signature, secret, Verified(event), client)
    requires event.eventType != CompletedEventType
    ensures var out := HandleWebhook(signature, secret, Verified(event), client, s);
      out.response == Received && out.state == s
  {
  }

  /** `invoice.paid` in particular. */
  lemma InvoicePaidIgnored(signature: Option<string>, secret: Option<string>, invoice: EventObject, client: Client, s: State)
    requires Authentic(signature, secret, Verified(Event("invoice.paid", invoice)), client)
    ensures HandleWebhook(signature, secret, Verified(Event("invoice.paid", invoice)), client, s) == Outcome(Received, s)
  {
    OtherEventsIgnored(signature, secret, Event("invoice.paid", invoice), client, s);
  }

  /** A failing retrieve or update is a 500 carrying the error's message; the subscription is left as it was. */
  lemma ProviderFailureReported(signature: Option<string>, secret: Option<string>, data: EventObject,
                                client: Client, s: State, subscriptionId: string)
    requires Authentic(signature, secret, Verified(Event(CompletedEventType, data)), client)
    requires SubscriptionToReconcile(data) == Some(subscriptionId)
    requires RetrieveSubscriptionOp in s.faults
    ensures var out := HandleWebhook(signature, secret, Verified(Event(CompletedEventType, data)), client, s);
      && out.response == Failed(ProcessingFailed(s.faults[RetrieveSubscriptionOp].message))
      && Status(out.response) == 500
      && out.state.subscriptions == s.subscriptions
  {
  }

  /** `parseInt("9000000000000")` is 9e12. */
  lemma FarCutoffParses()
    ensures ParseInt("9000000000000") == Finite(9_000_000_000_000)
  {
    AppendZero(9);
    AppendZero(90);
    AppendZero(900);
    AppendZero(9_000);
    AppendZero(90_000);
    AppendZero(900_000);
    AppendZero(9_000_000);
    AppendZero(90_000_000);
    AppendZero(900_000_000);
    AppendZero(9_000_000_000);
    AppendZero(90_000_000_000);
    AppendZero(900_000_000_000);
    assert NatToDigits(9_000_000_000_000) == "9000000000000";
    ParseNonNegative(9_000_000_000_000);
  }

  /**
   * A cutoff around the year 287 000 (9e12 seconds) is sent to the provider and set, but
   * logging it as an ISO date throws, so the event is answered with a 500.
   */
  lemma FarCutoffAnswers500(signature: Option<string>, secret: Option<string>, client: Client)
    requires Given(signature) && Given(secret) && client.Live?
    ensures var sub := Subscription("sub_1", map["cancel_at_timestamp" := "9000000000000"], None);
      var s := State(map[], map[], map["sub_1" := sub], map[], 2, []);
      var out := HandleWebhook(signature, secret,
                               Verified(Event(CompletedEventType, CheckoutSessionObject(SubscriptionMode, Some(SubscriptionId("sub_1"))))),
                               client, s);
      && out.response == Failed(ProcessingFailed(InvalidTimeValue))
      && out.state.subscriptions["sub_1"].cancelAt == Some(9_000_000_000_000)
  {
    var sub := Subscription("sub_1", map["cancel_at_timestamp" := "9000000000000"], None);
    var s := State(map[], map[], map["sub_1" := sub], map[], 2, []);
    var data := CheckoutSessionObject(SubscriptionMode, Some(SubscriptionId("sub_1")));
    FarCutoffParses();
    assert PlannedCancelAt(sub.metadata) == Some("9000000000000");
    CompletedCheckoutSetsCancelAt(signature, secret, data, client, s, "sub_1", 9_000_000_000_000);
  }

  /**
   * An update the provider refuses, after a successful retrieve of a subscription with
   * a plan, is a 500 carrying the provider's message; no `cancel_at` is set.
   */
  lemma UpdateFailureReported(signature: Option<string>, secret: Option<string>, data: EventObject,
                              client: Client, s: State, subscriptionId: string)
    requires Authentic(signature, secret, Verified(Event(CompletedEventType, data)), client)
    requires SubscriptionToReconcile(data) == Some(subscriptionId)
    requires RetrieveSubscriptionOp !in s.faults && UpdateSubscriptionOp in s.faults
    requires subscriptionId in s.subscriptions && PlannedCancelAt(s.subscriptions[subscriptionId].metadata).Some?
    ensures var out := HandleWebhook(signature, secret, Verified(Event(CompletedEventType, data)), client, s);
      && out.response == Failed(ProcessingFailed(s.faults[UpdateSubscriptionOp].message))
      && Status(out.response) == 500
      && out.state.subscriptions == s.subscriptions
  {
  }

  /** The reconciler creates and deletes nothing, so the provider's identifiers stay fresh. */
  lemma WebhookKeepsFreshIds(signature: Option<string>, secret: Option<string>, verification: Verification,
                             client: Client, s: State)
    requires FreshIds(s)
    ensures var out := HandleWebhook(signature, secret, verification, client, s);
      && FreshIds(out.state)
      && out.state.subscriptions.Keys == s.subscriptions.Keys
  {
  }

  /**
   * Reconciling a subscription whose `cancel_at` already holds its plan's cutoff
   * changes no subscription; without faults it answers as the first reconciliation did.
   */
  lemma ReconcileSettled(id: string, client: Client, t: State, text: string, cancelAt: int)
    requires client.Live? && id in t.subscriptions
    requires PlannedCancelAt(t.subscriptions[id].metadata) == Some(text) && ParseInt(text) == Finite(cancelAt)
    requires t.subscriptions[id].cancelAt == Some(cancelAt)
    ensures Reconcile(id, client, t).state.subscriptions == t.subscriptions
    ensures RetrieveSubscriptionOp !in t.faults && UpdateSubscriptionOp !in t.faults ==>
      Reconcile(id, client, t).response ==
        if TimeClip(cancelAt * 1000).Finite? then Received else Failed(ProcessingFailed(InvalidTimeValue))
  {
    var sub := t.subscriptions[id];
    assert sub.(cancelAt := Some(cancelAt)) == sub;
    assert t.subscriptions[id := sub] == t.subscriptions;
  }

  /**
   * Reconciling the same subscription twice: after an acknowledged first pass the
   * second leaves the subscriptions alone whatever it fails on; with the same faults
   * it also answers the same.
   */
  lemma ReconcileAgain(id: string, client: Client, s: State, faults: map<Operation, Failure>)
    requires client.Live?
    ensures var first := Reconcile(id, client, s);
      var second := Reconcile(id, client, first.state.(faults := faults));
      && (first.response == Received ==> second.state.subscriptions == first.state.subscriptions)
      && (faults == s.faults ==> second.response == first.response && second.state.subscriptions == first.state.subscriptions)
  {
    var first := Reconcile(id, client, s);
    if RetrieveSubscriptionOp !in s.faults && id in s.subscriptions {
      var sub := s.subscriptions[id];
      var plan := PlannedCancelAt(sub.metadata);
      if plan.Some? && UpdateSubscriptionOp !in s.faults && ParseInt(plan.value).Finite? {
        var v := ParseInt(plan.value).value;
        var sub' := sub.(cancelAt := Some(v));
        assert first.state.subscriptions == s.subscriptions[id := sub'];
        ReconcileSettled(id, client, first.state.(faults := faults), plan.value, v);
      }
    }
  }

  /**
   * Redelivery is harmless: once a delivery has been acknowledged, delivering the same
   * event again leaves every subscription, `cancel_at` included, as the first delivery
   * left it, whatever the provider fails on the second time. When the provider fails on
   * the same operations both times, the second delivery also answers the same.
   */
  lemma RedeliveryIdempotent(signature: Option<string>, secret: Option<string>, verification: Verification,
                             client: Client, s: State, faults: map<Operation, Failure>)
    ensures var first := HandleWebhook(signature, secret, verification, client, s);
      var second := HandleWebhook(signature, secret, verification, client, first.state.(faults := faults));
      && (first.response == Received ==> second.state.subscriptions == first.state.subscriptions)
      && (faults == s.faults ==> second.response == first.response && second.state.subscriptions == first.state.subscriptions)
      && second.state.prices == first.state.prices
      && second.state.sessions == first.state.sessions
  {
    var first := HandleWebhook(signature, secret, verification, client, s);
    if Authentic(signature, secret, verification, client) {
      assert first == Process(verification.event, client, s);
      assert HandleWebhook(signature, secret, verification, client, first.state.(faults := faults))
          == Process(verification.event, client, first.state.(faults := faults));
      ProcessAgain(verification.event, client, s, faults);
    }
  }

  /** Processing the same verified event twice; see `RedeliveryIdempotent`. */
  lemma ProcessAgain(event: Event, client: Client, s: State, faults: map<Operation, Failure>)
    requires client.Live?
    ensures var first := Process(event, client, s);
      var second := Process(event, client, first.state.(faults := faults));
      && (first.response == Received ==> second.state.subscriptions == first.state.subscriptions)
      && (faults == s.faults ==> second.response == first.response && second.state.subscriptions == first.state.subscriptions)
  {
    if event.eventType == CompletedEventType && SubscriptionToReconcile(event.data).Some? {
      ReconcileAgain(SubscriptionToReconcile(event.data).value, client, s, faults);
    }
  }
}
