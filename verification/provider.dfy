/**
 * The billing provider as the handlers see it: an abstract state (prices, checkout
 * sessions, subscriptions) plus the log of every call that reached it. Faults are an
 * oracle: an operation listed in `faults` fails with the recorded error. Calls made
 * through the placeholder client never reach the provider and throw a TypeError.
 */
module Provider {
  import opened Wrappers
  import opened Decimal
  import opened StripeClient

  datatype Interval = Day | Week | Month | Year
  datatype Recurring = Recurring(interval: Interval, intervalCount: nat)
  datatype PriceType = OneTime | RecurringPrice

  /** A price's `product`: an id, or the expanded product object carrying its id. */
  datatype ProductRef = ProductId(id: string) | ExpandedProduct(id: string)

  datatype Price = Price(
    id: string,
    product: ProductRef,
    priceType: PriceType,
    recurring: Option<Recurring>,
    unitAmount: Option<nat>,
    currency: string)

  /** Parameters of `prices.create`. */
  datatype PriceParams = PriceParams(product: string, unitAmount: int, currency: string, recurring: Recurring)

  datatype Mode = PaymentMode | SetupMode | SubscriptionMode
  datatype LineItem = LineItem(price: string, quantity: nat)

  /** Parameters of `checkout.sessions.create`; the metadata goes onto the future subscription. */
  datatype SessionParams = SessionParams(
    mode: Mode,
    lineItems: seq<LineItem>,
    subscriptionMetadata: map<string, string>,
    successUrl: string,
    cancelUrl: string)

  datatype Session = Session(id: string, url: Option<string>, params: SessionParams)

  /** `cancelAt` is the subscription's absolute end, in UNIX seconds, once one is set. */
  datatype Subscription = Subscription(id: string, metadata: map<string, string>, cancelAt: Option<int>)

  /** A checkout session's `subscription`: an id, or the expanded subscription object. */
  datatype SubscriptionRef = SubscriptionId(id: string) | ExpandedSubscription(id: string)

  /** The object an event carries. */
  datatype EventObject =
    | CheckoutSessionObject(mode: Mode, subscription: Option<SubscriptionRef>)
    | InvoiceObject(invoiceId: string, amountPaid: int)
    | OtherObject

  datatype Event = Event(eventType: string, data: EventObject)

  /** One call that reached the provider, with its arguments. */
  datatype Call =
    | RetrievePriceCall(priceId: string)
    | CreatePriceCall(priceParams: PriceParams)
    | CreateSessionCall(sessionParams: SessionParams)
    | RetrieveSubscriptionCall(subscriptionId: string)
    | UpdateSubscriptionCall(subscriptionId: string, cancelAt: JsNumber)

  datatype Operation = RetrievePriceOp | CreatePriceOp | CreateSessionOp | RetrieveSubscriptionOp | UpdateSubscriptionOp

  /** `error.type` of a thrown error; `TypeError` stands for any error that is not the provider's. */
  datatype ErrorType = InvalidRequestError | ApiError | AuthenticationError | PermissionError | RateLimitError | TypeError

  datatype Failure = Failure(errorType: ErrorType, message: string)

  datatype State = State(
    prices: map<string, Price>,
    sessions: map<string, Session>,
    subscriptions: map<string, Subscription>,
    faults: map<Operation, Failure>,
    minted: nat,
    log: seq<Call>)

  /** The answer to one call and the provider state after it. */
  datatype Reply<T> = Reply(result: Result<T, Failure>, state: State)

  /** What reading a method off the placeholder's missing namespace throws. */
  function PlaceholderAccess(property: string): Failure
  {
    Failure(TypeError, "Cannot read properties of undefined (reading '" + property + "')")
  }

  /** The state with `call` appended to the call log, everything else unchanged. */
  function Logged(s: State, call: Call): State
  {
    s.(log := s.log + [call])
  }

  /** The `n`-th identifier the provider hands out under `prefix`. */
  function IdOf(prefix: string, n: nat): string
  {
    prefix + NatToDigits(n)
  }

  /** The identifier the next object created under `prefix` receives. */
  function Mint(prefix: string, s: State): string
  {
    IdOf(prefix, s.minted)
  }

  /** Distinct counters give distinct identifiers under the same prefix. */
  lemma IdOfInjective(prefix: string, m: nat, n: nat)
    requires IdOf(prefix, m) == IdOf(prefix, n)
    ensures m == n
  {
    assert NatToDigits(m) == IdOf(prefix, m)[|prefix|..];
    assert NatToDigits(n) == IdOf(prefix, n)[|prefix|..];
    DigitsValueOfNatToDigits(m);
    DigitsValueOfNatToDigits(n);
  }

  /**
   * The provider's identifiers are fresh: no identifier it has yet to hand out names
   * an existing price, session or subscription.
   */
  ghost predicate FreshIds(s: State)
  {
    forall n: nat :: n >= s.minted ==>
      IdOf("price_", n) !in s.prices && IdOf("cs_", n) !in s.sessions && IdOf("sub_", n) !in s.subscriptions
  }

  /** `prices.retrieve(id)`. */
  function RetrievePrice(client: Client, s: State, priceId: string): (r: Reply<Price>)
    ensures client.Placeholder? ==> r.state == s && r.result.Err?
    ensures client.Live? ==> r.state == Logged(s, RetrievePriceCall(priceId))
    ensures r.result.Ok? ==> priceId in s.prices && r.result.value == s.prices[priceId]
  {
    if client.Placeholder? then Reply(Err(PlaceholderAccess("retrieve")), s)
    else
      var s' := Logged(s, RetrievePriceCall(priceId));
      if RetrievePriceOp in s.faults then Reply(Err(s.faults[RetrievePriceOp]), s')
      else if priceId in s.prices then Reply(Ok(s.prices[priceId]), s')
      else Reply(Err(Failure(InvalidRequestError, "No such price: '" + priceId + "'")), s')
  }

  /** `prices.create(params)`: mints a new recurring price and answers its id. */
  function CreatePrice(client: Client, s: State, params: PriceParams): (r: Reply<string>)
    ensures client.Placeholder? ==> r.state == s && r.result.Err?
    ensures client.Live? ==> r.state.log == s.log + [CreatePriceCall(params)]
    ensures r.result.Ok? <==> client.Live? && CreatePriceOp !in s.faults && params.unitAmount >= 0
    ensures r.result.Err? ==> r.state.prices == s.prices && r.state.minted == s.minted
    ensures r.result.Ok? ==>
      && r.result.value == Mint("price_", s) && r.state.minted == s.minted + 1
      && params.unitAmount >= 0
      && r.state.prices == s.prices[r.result.value := Price(r.result.value, ProductId(params.product), RecurringPrice,
                                                            Some(params.recurring), Some(params.unitAmount as nat), params.currency)]
    ensures r.state.sessions == s.sessions && r.state.subscriptions == s.subscriptions && r.state.faults == s.faults
  {
    if client.Placeholder? then Reply(Err(PlaceholderAccess("create")), s)
    else
      var s' := Logged(s, CreatePriceCall(params));
      if CreatePriceOp in s.faults then Reply(Err(s.faults[CreatePriceOp]), s')
      else if params.unitAmount < 0 then
        Reply(Err(Failure(InvalidRequestError, "Invalid non-negative integer")), s')
      else
        var id := Mint("price_", s);
        var price := Price(id, ProductId(params.product), RecurringPrice, Some(params.recurring),
                           Some(params.unitAmount), params.currency);
        Reply(Ok(id), s'.(prices := s'.prices[id := price], minted := s'.minted + 1))
  }

  /** `checkout.sessions.create(params)`: answers the new session. */
  function CreateSession(client: Client, s: State, params: SessionParams): (r: Reply<Session>)
    ensures client.Placeholder? ==> r.state == s && r.result.Err?
    ensures client.Live? ==> r.state.log == s.log + [CreateSessionCall(params)]
    ensures r.result.Ok? <==> client.Live? && CreateSessionOp !in s.faults
    ensures r.result.Ok? ==>
      && r.result.value.id == Mint("cs_", s) && r.state.minted == s.minted + 1
      && r.result.value.params == params && r.state.sessions == s.sessions[r.result.value.id := r.result.value]
    ensures r.result.Err? ==> r.state.sessions == s.sessions && r.state.minted == s.minted
    ensures r.state.prices == s.prices && r.state.subscriptions == s.subscriptions && r.state.faults == s.faults
  {
    if client.Placeholder? then Reply(Err(PlaceholderAccess("sessions")), s)
    else
      var s' := Logged(s, CreateSessionCall(params));
      if CreateSessionOp in s.faults then Reply(Err(s.faults[CreateSessionOp]), s')
      else
        var id := Mint("cs_", s);
        var session := Session(id, Some("https://checkout.stripe.com/c/pay/" + id), params);
        Reply(Ok(session), s'.(sessions := s'.sessions[id := session], minted := s'.minted + 1))
  }

  /** `subscriptions.retrieve(id)`. */
  function RetrieveSubscription(client: Client, s: State, subscriptionId: string): (r: Reply<Subscription>)
    ensures client.Placeholder? ==> r.state == s && r.result.Err?
    ensures client.Live? ==> r.state == Logged(s, RetrieveSubscriptionCall(subscriptionId))
    ensures r.result.Ok? ==> subscriptionId in s.subscriptions && r.result.value == s.subscriptions[subscriptionId]
  {
    if client.Placeholder? then Reply(Err(PlaceholderAccess("retrieve")), s)
    else
      var s' := Logged(s, RetrieveSubscriptionCall(subscriptionId));
      if RetrieveSubscriptionOp in s.faults then Reply(Err(s.faults[RetrieveSubscriptionOp]), s')
      else if subscriptionId in s.subscriptions then Reply(Ok(s.subscriptions[subscriptionId]), s')
      else Reply(Err(Failure(InvalidRequestError, "No such subscription: '" + subscriptionId + "'")), s')
  }

  /** `subscriptions.update(id, {cancel_at})`: sets the absolute end; NaN is not an integer and is refused. */
  function UpdateSubscription(client: Client, s: State, subscriptionId: string, cancelAt: JsNumber): (r: Reply<()>)
    ensures client.Placeholder? ==> r.state == s && r.result.Err?
    ensures client.Live? ==> r.state.log == s.log + [UpdateSubscriptionCall(subscriptionId, cancelAt)]
    ensures r.result.Ok? <==> client.Live? && UpdateSubscriptionOp !in s.faults && cancelAt.Finite? && subscriptionId in s.subscriptions
    ensures r.result.Ok? ==> r.state.subscriptions == s.subscriptions[subscriptionId := s.subscriptions[subscriptionId].(cancelAt := Some(cancelAt.value))]
    ensures r.result.Err? ==> r.state.subscriptions == s.subscriptions
    ensures r.state.prices == s.prices && r.state.sessions == s.sessions && r.state.faults == s.faults
    ensures r.state.minted == s.minted
  {
    if client.Placeholder? then Reply(Err(PlaceholderAccess("update")), s)
    else
      var s' := Logged(s, UpdateSubscriptionCall(subscriptionId, cancelAt));
      if UpdateSubscriptionOp in s.faults then Reply(Err(s.faults[UpdateSubscriptionOp]), s')
      else if cancelAt.NaN? then Reply(Err(Failure(InvalidRequestError, "Invalid integer: NaN")), s')
      else if subscriptionId !in s.subscriptions then
        Reply(Err(Failure(InvalidRequestError, "No such subscription: '" + subscriptionId + "'")), s')
      else
        var sub := s.subscriptions[subscriptionId];
        Reply(Ok(()), s'.(subscriptions := s'.subscriptions[subscriptionId := sub.(cancelAt := Some(cancelAt.value))]))
  }

  /** What the provider hands back when a customer completes a checkout session. */
  datatype Completion = Completion(subscriptionId: string, event: Event, state: State)

  /**
   * The customer pays: the provider creates the subscription, copying the session's
   * subscription metadata onto it, and emits `checkout.session.completed`.
   * This is the provider's own behaviour between the two handler invocations.
   */
  function CompleteCheckout(s: State, sessionId: string): (c: Completion)
    requires sessionId in s.sessions
    ensures c.subscriptionId in c.state.subscriptions
    ensures c.state.subscriptions[c.subscriptionId].metadata == s.sessions[sessionId].params.subscriptionMetadata
    ensures c.state.subscriptions[c.subscriptionId].cancelAt.None?
    ensures c.subscriptionId == Mint("sub_", s) && c.state.minted == s.minted + 1
    ensures c.state.subscriptions == s.subscriptions[c.subscriptionId := c.state.subscriptions[c.subscriptionId]]
    ensures c.state.prices == s.prices && c.state.sessions == s.sessions && c.state.faults == s.faults
  {
    var session := s.sessions[sessionId];
    var id := Mint("sub_", s);
    var sub := Subscription(id, session.params.subscriptionMetadata, None);
    var event := Event("checkout.session.completed", CheckoutSessionObject(session.params.mode, Some(SubscriptionId(id))));
    Completion(id, event, s.(subscriptions := s.subscriptions[id := sub], minted := s.minted + 1))
  }

  /** Minting a price never overwrites one: the new id is unused, and the remaining ids stay fresh. */
  lemma CreatePriceFresh(client: Client, s: State, params: PriceParams)
    requires FreshIds(s)
    ensures var r := CreatePrice(client, s, params);
      && (r.result.Ok? ==> r.result.value !in s.prices)
      && FreshIds(r.state)
  {
    var r := CreatePrice(client, s, params);
    if r.result.Ok? {
      forall n: nat | n >= r.state.minted
        ensures IdOf("price_", n) !in r.state.prices
      {
        if IdOf("price_", n) == r.result.value {
          IdOfInjective("price_", n, s.minted);
        }
      }
    }
  }

  /** Opening a session never overwrites one: the new id is unused, and the remaining ids stay fresh. */
  lemma CreateSessionFresh(client: Client, s: State, params: SessionParams)
    requires FreshIds(s)
    ensures var r := CreateSession(client, s, params);
      && (r.result.Ok? ==> r.result.value.id !in s.sessions)
      && FreshIds(r.state)
  {
    var r := CreateSession(client, s, params);
    if r.result.Ok? {
      forall n: nat | n >= r.state.minted
        ensures IdOf("cs_", n) !in r.state.sessions
      {
        if IdOf("cs_", n) == r.result.value.id {
          IdOfInjective("cs_", n, s.minted);
        }
      }
    }
  }

  /** A completed checkout creates a new subscription and replaces none; the remaining ids stay fresh. */
  lemma CompleteCheckoutFresh(s: State, sessionId: string)
    requires sessionId in s.sessions && FreshIds(s)
    ensures var c := CompleteCheckout(s, sessionId);
      && c.subscriptionId !in s.subscriptions
      && FreshIds(c.state)
  {
    var c := CompleteCheckout(s, sessionId);
    forall n: nat | n >= c.state.minted
      ensures IdOf("sub_", n) !in c.state.subscriptions
    {
      if IdOf("sub_", n) == c.subscriptionId {
        IdOfInjective("sub_", n, s.minted);
      }
    }
  }
}
