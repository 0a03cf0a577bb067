/**
 * `POST /api/create-checkout-session`: split a monthly recurring price into
 * `paymentsCount` equal installments, mint one ephemeral monthly price for the
 * installment amount, and open a subscription checkout whose metadata carries the
 * cancellation plan (cutoff instant, payment count, original price) for the
 * webhook to apply once the subscription exists.
 */
module Checkout {
  import opened Wrappers
  import opened Text
  import opened Decimal
  import opened Calendar
  import opened Minimums
  import opened StripeClient
  import opened Provider

  /** A member of the parsed JSON body, or `Absent` when the key is missing. */
  datatype Field =
    | Absent
    | JsonNull
    | JsonBool(flag: bool)
    | JsonNumber(number: int)
    | JsonString(text: string)
    | JsonArray
    | JsonObject

  /** The request body: either it failed to parse (or to destructure), or the two fields read from it. */
  datatype Body = Unparsable(reason: string) | Body(priceId: Field, paymentsCount: Field)

  datatype CheckoutError =
    | PriceIdRequired
    | PaymentsCountInvalid
    | NotMonthly
      /** The per-installment amount, the currency's minimum, and the lower-cased currency. */
    | BelowMinimum(amount: int, minimum: nat, currency: string)
      /** A provider `StripeInvalidRequestError`, with the provider's message. */
    | ProviderRejected(message: string)
      /** Anything else that was thrown, with its message or the default text. */
    | Unexpected(message: string)

  datatype Response =
    | Created(url: Option<string>, sessionId: string, amountPerPayment: int, totalAmount: nat)
    | Rejected(error: CheckoutError)

  datatype Outcome = Outcome(response: Response, state: State)

  const DefaultErrorText := "Error al crear sesión de checkout"
  const DefaultAppUrl := "http://localhost:3000"

  function ErrorStatus(e: CheckoutError): int
  {
    match e
    case Unexpected(_) => 500
    case _ => 400
  }

  function Status(r: Response): int
  {
    match r
    case Created(_, _, _, _) => 200
    case Rejected(e) => ErrorStatus(e)
  }

  /**
   * The `{error}` text, for every error whose text does not format amounts as decimals;
   * the below-minimum error keeps its two integers instead.
   */
  function ErrorText(e: CheckoutError): Option<string>
  {
    match e
    case PriceIdRequired => Some("priceId es requerido")
    case PaymentsCountInvalid => Some("paymentsCount debe ser un número mayor a 0")
    case NotMonthly => Some("El precio debe ser una suscripción mensual")
    case BelowMinimum(_, _, _) => None
    case ProviderRejected(m) => Some("Error de Stripe: " + m)
    case Unexpected(m) => Some(m)
  }

  /** The catch block: provider invalid-request errors are 400, anything else 500. */
  function FromFailure(f: Failure): (e: CheckoutError)
    ensures ErrorStatus(e) == 400 <==> f.errorType == InvalidRequestError
    ensures ErrorStatus(e) == 400 ==> ErrorText(e) == Some("Error de Stripe: " + f.message)
    ensures ErrorStatus(e) == 500 ==> ErrorText(e) == Some(if f.message == "" then DefaultErrorText else f.message)
  {
    if f.errorType == InvalidRequestError then ProviderRejected(f.message)
    else Unexpected(if f.message == "" then DefaultErrorText else f.message)
  }

  /** JavaScript's `typeof` of a parsed JSON value (`undefined` for a missing key). */
  function TypeOf(f: Field): string
  {
    match f
    case Absent => "undefined"
    case JsonBool(_) => "boolean"
    case JsonNumber(_) => "number"
    case JsonString(_) => "string"
    case _ => "object"
  }

  /** JavaScript falsiness of a parsed JSON value: `undefined`, `null`, `false`, `0` and `""`. */
  predicate Falsy(f: Field)
  {
    f == Absent || f == JsonNull || f == JsonBool(false) || f == JsonNumber(0) || f == JsonString("")
  }

  /** `!priceId || typeof priceId !== 'string'` rejects; otherwise the string is the price id. */
  function ValidatePriceId(f: Field): (r: Result<string, CheckoutError>)
    ensures r.Err? <==> Falsy(f) || TypeOf(f) != "string"
    ensures r.Ok? ==> r.value == f.text
    ensures r.Err? ==> r.error == PriceIdRequired
  {
    match f
    case JsonString(s) => if s == "" then Err(PriceIdRequired) else Ok(s)
    case _ => Err(PriceIdRequired)
  }

  /** `!paymentsCount || typeof paymentsCount !== 'number' || paymentsCount < 1` rejects. */
  function ValidatePaymentsCount(f: Field): (r: Result<int, CheckoutError>)
    ensures r.Err? <==> Falsy(f) || TypeOf(f) != "number" || f.number < 1
    ensures r.Ok? ==> r.value == f.number
    ensures r.Err? ==> r.error == PaymentsCountInvalid
  {
    match f
    case JsonNumber(n) => if n == 0 || n < 1 then Err(PaymentsCountInvalid) else Ok(n)
    case _ => Err(PaymentsCountInvalid)
  }

  /** The price must be recurring with a monthly interval. */
  predicate IsMonthlyRecurring(p: Price)
  {
    p.priceType == RecurringPrice && p.recurring.Some? && p.recurring.value.interval == Month
  }

  /** `unit_amount || 0`: a missing amount counts as zero. */
  function TotalAmount(p: Price): nat
  {
    match p.unitAmount
    case Some(a) => a
    case None => 0
  }

  /** `Math.ceil(total / count)` on integers: the least amount whose `count` payments cover `total`. */
  function AmountPerPayment(total: nat, count: int): (amount: nat)
    requires count >= 1
    ensures amount * count >= total
    ensures (amount - 1) * count < total
    ensures count == 1 ==> amount == total
  {
    var q := (total + count - 1) / count;
    CeilingBounds(total, count, q);
    q
  }

  lemma CeilingBounds(total: nat, count: int, q: int)
    requires count >= 1 && q == (total + count - 1) / count
    ensures q >= 0
    ensures q * count >= total
    ensures (q - 1) * count < total
  {
    var r := (total + count - 1) % count;
    assert total + count - 1 == q * count + r;
    assert 0 <= r < count;
    assert q * count == total + count - 1 - r;
    assert (q - 1) * count == q * count - count;
  }

  /** The price's product id, whether the product is expanded or not. */
  function ProductIdOf(ref: ProductRef): string
  {
    match ref
    case ProductId(id) => id
    case ExpandedProduct(id) => id
  }

  /** The ephemeral installment price: same product, the installment amount, monthly, every 1 month. */
  function EphemeralPrice(original: Price, amount: int): PriceParams
  {
    PriceParams(ProductIdOf(original.product), amount, Lower(original.currency), Recurring(Month, 1))
  }

  /** The cancellation plan, as decimal-string metadata for the subscription. */
  function PlanMetadata(cancelAt: JsNumber, count: int, priceId: string): map<string, string>
  {
    map["cancel_at_timestamp" := ToString(cancelAt), "payments_count" := ToString(Finite(count)), "original_price_id" := priceId]
  }

  /** The metadata has exactly the three plan keys, and the original price id verbatim. */
  lemma PlanMetadataKeys(cancelAt: JsNumber, count: int, priceId: string)
    ensures var m := PlanMetadata(cancelAt, count, priceId);
      && m.Keys == {"cancel_at_timestamp", "payments_count", "original_price_id"}
      && m["original_price_id"] == priceId
  {
  }

  /** `parseInt` reads back from the metadata the very cutoff that was written. */
  lemma PlannedCutoffReadsBack(cancelAt: JsNumber, count: int, priceId: string)
    ensures ParseInt(PlanMetadata(cancelAt, count, priceId)["cancel_at_timestamp"]) == cancelAt
  {
    assert PlanMetadata(cancelAt, count, priceId)["cancel_at_timestamp"] == ToString(cancelAt);
    ParseIntToString(cancelAt);
  }

  /** `parseInt` reads back from the metadata the very payment count that was written. */
  lemma PlannedCountReadsBack(cancelAt: JsNumber, count: int, priceId: string)
    ensures ParseInt(PlanMetadata(cancelAt, count, priceId)["payments_count"]) == Finite(count)
  {
    assert PlanMetadata(cancelAt, count, priceId)["payments_count"] == ToString(Finite(count));
    ParseIntToString(Finite(count));
  }

  /** `NEXT_PUBLIC_APP_URL || 'http://localhost:3000'`. */
  function AppUrl(setting: Option<string>): string
  {
    match setting
    case Some(u) => if u == "" then DefaultAppUrl else u
    case None => DefaultAppUrl
  }

  /** One subscription-mode line item of the new price, quantity 1, carrying the plan. */
  function CheckoutParams(newPriceId: string, metadata: map<string, string>, appUrl: string): SessionParams
  {
    SessionParams(SubscriptionMode, [LineItem(newPriceId, 1)], metadata,
                  appUrl + "/success?session_id={CHECKOUT_SESSION_ID}", appUrl + "/cancel")
  }

  /** Both body fields pass validation. */
  predicate WellFormed(body: Body)
  {
    && body.Body?
    && body.priceId.JsonString? && body.priceId.text != ""
    && body.paymentsCount.JsonNumber? && body.paymentsCount.number >= 1
  }

  /** What the checks before the first provider mutation settle on. */
  datatype Plan = Plan(priceId: string, count: int, original: Price, total: nat, amount: nat)

  /** A step that may fail, with the provider state after it. */
  datatype Step<T> = Step(result: Result<T, CheckoutError>, state: State)

  /**
   * Phase one, up to the first provider mutation: validate the body, read the
   * original price back, check it is monthly, split it and check the minimum.
   */
  function Prepare(body: Body, client: Client, s: State): (r: Step<Plan>)
    ensures r.result.Ok? ==>
      var plan := r.result.value;
      && WellFormed(body) && client.Live?
      && plan.priceId == body.priceId.text && plan.count == body.paymentsCount.number
      && plan.priceId in s.prices && plan.original == s.prices[plan.priceId]
      && IsMonthlyRecurring(plan.original)
      && plan.total == TotalAmount(plan.original)
      && plan.amount == AmountPerPayment(plan.total, plan.count)
      && plan.amount >= GetMinimumAmount(plan.original.currency)
      && r.state == Logged(s, RetrievePriceCall(plan.priceId))
    ensures r.state.prices == s.prices && r.state.sessions == s.sessions && r.state.subscriptions == s.subscriptions
    ensures r.state.faults == s.faults && r.state.minted == s.minted
  {
    match body
    case Unparsable(reason) => Step(Err(Unexpected(reason)), s)
    case Body(priceField, countField) =>
      match ValidatePriceId(priceField)
      case Err(e) => Step(Err(e), s)
      case Ok(priceId) =>
        match ValidatePaymentsCount(countField)
        case Err(e) => Step(Err(e), s)
        case Ok(count) =>
          var retrieved := RetrievePrice(client, s, priceId);
          match retrieved.result
          case Err(f) => Step(Err(FromFailure(f)), retrieved.state)
          case Ok(original) =>
            if !IsMonthlyRecurring(original) then Step(Err(NotMonthly), retrieved.state)
            else
              var total := TotalAmount(original);
              var currency := Lower(original.currency);
              var amount := AmountPerPayment(total, count);
              var minimum := GetMinimumAmount(currency);
              CaseInsensitive(original.currency);
              if amount < minimum then Step(Err(BelowMinimum(amount, minimum, currency)), retrieved.state)
              else Step(Ok(Plan(priceId, count, original, total, amount)), retrieved.state)
  }

  /**
   * Phase two: mint the installment price, open the checkout session carrying the
   * plan and its cutoff `cancelAt`, and answer its URL and id with the amounts.
   */
  function Place(plan: Plan, cancelAt: JsNumber, appUrlSetting: Option<string>, client: Client, s: State): (out: Outcome)
  {
    var minted := CreatePrice(client, s, EphemeralPrice(plan.original, plan.amount));
    match minted.result
    case Err(f) => Outcome(Rejected(FromFailure(f)), minted.state)
    case Ok(newPriceId) =>
      var metadata := PlanMetadata(cancelAt, plan.count, plan.priceId);
      var created := CreateSession(client, minted.state, CheckoutParams(newPriceId, metadata, AppUrl(appUrlSetting)));
      match created.result
      case Err(f) => Outcome(Rejected(FromFailure(f)), created.state)
      case Ok(session) => Outcome(Created(session.url, session.id, plan.amount, plan.total), created.state)
  }

  /**
   * The handler. `now` is the request instant (the clock), `appUrlSetting` the
   * `NEXT_PUBLIC_APP_URL` setting, `client` the module-level provider client.
   */
  function CreateCheckoutSession(body: Body, now: DateTime, appUrlSetting: Option<string>,
                                 client: Client, s: State): (out: Outcome)
  {
    var prepared := Prepare(body, client, s);
    match prepared.result
    case Err(e) => Outcome(Rejected(e), prepared.state)
    case Ok(plan) => Place(plan, CancelAtTimestamp(now, plan.count), appUrlSetting, client, prepared.state)
  }
}
