/**
 * `POST /api/webhooks/stripe`: the reconciler. It accepts only signed events and,
 * on a completed subscription checkout, reads the cancellation plan back from the
 * subscription's metadata and sets the subscription's absolute `cancel_at`.
 */
module Webhook {
  import opened Wrappers
  import opened Decimal
  import opened Calendar
  import opened StripeClient
  import opened Provider

  /**
   * `stripe.webhooks.constructEvent(body, signature, secret)`: the payload's HMAC check is
   * an oracle; either the event it authenticates, or the error it throws.
   */
  datatype Verification = Verified(event: Event) | VerificationFailed(message: string)

  datatype WebhookError =
    | NoSignature
    | SecretNotConfigured
    | BadSignature(message: string)
    | ProcessingFailed(message: string)

  datatype Response = Received | Failed(error: WebhookError)

  datatype Outcome = Outcome(response: Response, state: State)

  const CompletedEventType := "checkout.session.completed"
  const DefaultErrorText := "Error procesando webhook"
  /** The message of the `RangeError` that `Date.prototype.toISOString` throws on an invalid date. */
  const InvalidTimeValue := "Invalid time value"

  function Status(r: Response): int
  {
    match r
    case Received => 200
    case Failed(NoSignature) => 400
    case Failed(SecretNotConfigured) => 500
    case Failed(BadSignature(_)) => 400
    case Failed(ProcessingFailed(_)) => 500
  }

  function ErrorText(e: WebhookError): string
  {
    match e
    case NoSignature => "No signature provided"
    case SecretNotConfigured => "Webhook secret not configured"
    case BadSignature(m) => "Webhook Error: " + m
    case ProcessingFailed(m) => if m == "" then DefaultErrorText else m
  }

  /** A header or setting counts as given only when present and non-empty. */
  predicate Given(v: Option<string>)
  {
    v.Some? && v.value != ""
  }

  /** The session's subscription id, when the session is in subscription mode and has a (truthy) subscription. */
  function SubscriptionToReconcile(data: EventObject): (id: Option<string>)
    ensures id.Some? <==>
      && data.CheckoutSessionObject? && data.mode == SubscriptionMode && data.subscription.Some?
      && (data.subscription.value.SubscriptionId? ==> data.subscription.value.id != "")
    ensures id.Some? ==> id.value == data.subscription.value.id
  {
    match data
    case CheckoutSessionObject(mode, subscription) =>
      if mode != SubscriptionMode then None
      else
        (match subscription
         case None => None
         case Some(SubscriptionId(id)) => if id == "" then None else Some(id)
         case Some(ExpandedSubscription(id)) => Some(id))
    case _ => None
  }

  /** The `cancel_at_timestamp` metadata, when present and non-empty. */
  function PlannedCancelAt(metadata: map<string, string>): Option<string>
  {
    if "cancel_at_timestamp" in metadata && metadata["cancel_at_timestamp"] != "" then Some(metadata["cancel_at_timestamp"])
    else None
  }

  /**
   * Reconciling one subscription: read it back and, when it carries a plan, set its
   * `cancel_at`. After a successful update the handler logs the cutoff as
   * `new Date(cancelAt * 1000).toISOString()`, still inside the try: a cutoff beyond
   * the date range makes that throw, and the already-updated subscription is answered
   * with a 500.
   */
  function Reconcile(subscriptionId: string, client: Client, s: State): (out: Outcome)
    ensures out.state.prices == s.prices && out.state.sessions == s.sessions && out.state.faults == s.faults
    ensures out.state.subscriptions.Keys == s.subscriptions.Keys && out.state.minted == s.minted
  {
    var retrieved := RetrieveSubscription(client, s, subscriptionId);
    match retrieved.result
    case Err(f) => Outcome(Failed(ProcessingFailed(f.message)), retrieved.state)
    case Ok(subscription) =>
      match PlannedCancelAt(subscription.metadata)
      case None => Outcome(Received, retrieved.state)
      case Some(text) =>
        var updated := UpdateSubscription(client, retrieved.state, subscriptionId, ParseInt(text));
        match updated.result
        case Err(f) => Outcome(Failed(ProcessingFailed(f.message)), updated.state)
        case Ok(_) =>
          if TimeClip(ParseInt(text).value * 1000).Finite? then Outcome(Received, updated.state)
          else Outcome(Failed(ProcessingFailed(InvalidTimeValue)), updated.state)
  }

  /** Processing a verified event: only a completed subscription checkout is reconciled. */
  function Process(event: Event, client: Client, s: State): (out: Outcome)
    ensures out.state.prices == s.prices && out.state.sessions == s.sessions && out.state.faults == s.faults
    ensures out.state.subscriptions.Keys == s.subscriptions.Keys && out.state.minted == s.minted
  {
    if event.eventType != CompletedEventType then Outcome(Received, s)
    else
      match SubscriptionToReconcile(event.data)
      case None => Outcome(Received, s)
      case Some(subscriptionId) => Reconcile(subscriptionId, client, s)
  }

  /**
   * The handler: the signature header is checked first, then the signing secret,
   * then the event's authenticity (with the placeholder client, reading
   * `webhooks.constructEvent` itself throws, inside the same try), and only then is
   * the event processed.
   */
  function HandleWebhook(signature: Option<string>, secret: Option<string>, verification: Verification,
                         client: Client, s: State): (out: Outcome)
  {
    if !Given(signature) then Outcome(Failed(NoSignature), s)
    else if !Given(secret) then Outcome(Failed(SecretNotConfigured), s)
    else if client.Placeholder? then
      Outcome(Failed(BadSignature(PlaceholderAccess("constructEvent").message)), s)
    else
      match verification
      case VerificationFailed(message) => Outcome(Failed(BadSignature(message)), s)
      case Verified(event) => Process(event, client, s)
  }
}
