# Installment subscriptions on Stripe: a Dafny model

This project models the server side of a small admin tool. The tool sells a monthly
Stripe price in a fixed number of installments.

- **Checkout** (`POST /api/create-checkout-session`) reads the original price and
  splits its amount into `paymentsCount` installments, rounding up. It rejects an
  installment below the currency's minimum charge. Otherwise it mints one ephemeral
  monthly price for the installment. It then opens a subscription checkout whose
  metadata carries the cancellation plan: the cutoff instant as a decimal string of
  seconds, the payment count, and the original price id.
- **Webhook** (`POST /api/webhooks/stripe`) gates on the signature header, the signing
  secret and the signature check. On `checkout.session.completed` for a subscription,
  it reads the plan back from the subscription's metadata and sets `cancel_at`.
- **Auth gate** (`middleware.ts`): webhook paths pass, an unconfigured deployment passes
  only in development, a session cookie passes, and HTTP Basic credentials are compared
  with `ADMIN_USER` / `ADMIN_PASSWORD`. A success sets the session cookie; anything
  else gets a 401 challenge.
- **Key check and client** (`lib/stripe.ts`): a secret key must start with `sk_live_`,
  `sk_test_`, `rk_live_` or `rk_test_`. Otherwise the module exports an empty
  placeholder object, and every SDK access on it throws.
- **Minimums** (`lib/stripe-minimums.ts`): the per-currency minimum charge table, with a
  case-insensitive lookup and a default of 50.

## Modules

Each file holds one module. The order of the list follows the imports.

- `wrappers.dfy` `Wrappers`: `Option` and `Result`.
- `text.dfy` `Text`: `toLowerCase`/`toUpperCase` on ASCII letters, `startsWith`,
  `split` on one character, and `join` as its partner.
- `decimal.dfy` `Decimal`: JavaScript numbers as integers or `NaN`, `Number.prototype.toString`
  for integers, and `parseInt` with no radix argument.
- `minimums.dfy` `Minimums`: the table and `getMinimumAmount`.
- `calendar.dfy` `Calendar`: the civil calendar, ECMAScript `MakeDay`/`TimeClip`,
  `Date.prototype.setMonth`, and the cutoff `Math.floor(getTime() / 1000)`.
- `stripe_client.dfy` `StripeClient`: the key predicate and the live/placeholder client.
- `provider.dfy` `Provider`: the Stripe account as a state (prices, sessions,
  subscriptions, injected faults, an id counter and a call log), plus the five SDK
  calls the handlers make and the customer's payment that turns a session into a
  subscription.
- `checkout.dfy` `Checkout` and `checkout_properties.dfy` `CheckoutProperties`.
- `webhook.dfy` `Webhook` and `webhook_properties.dfy` `WebhookProperties`.
- `auth_gate.dfy` `AuthGate` and `auth_gate_properties.dfy` `AuthGateProperties`.
- `protocol.dfy` `Protocol`: the checkout and webhook together.

Each handler is a total function. It maps a request, the environment and the provider
state to a response and the new provider state. The call log records every SDK request
in order, so "no price or session is created" and "exactly these calls" are stated as
equations on the log. Wherever the code throws inside a `try`, the model returns the
error value the surrounding `catch` would produce. This includes the `RangeError` that
the webhook's log line raises when it formats a cutoff beyond the date range as an ISO
date. The placeholder client is modelled as throwing the `TypeError` from reading a
property of `undefined`. The provider hands out identifiers from a counter, so "no
existing price or session is overwritten" is a property that can be stated and proved.

Three facts about the code shape the model:

- The checkout reads only `priceId` and `paymentsCount`. There is no manual-price mode.
- The checkout response carries no `currency` field.
- `setMonth` does not clamp to the end of the month. January 31 plus one month is
  March 2 in a leap year (`Calendar.JanuaryThirtyFirstPlusOneMonth`).

## Model

| member | source | states |
|---|---|---|
| Text.Lower | lib/stripe-minimums.ts:27 | lower-casing keeps the length and maps every character by the ASCII case table |
| Text.LowerOfUpper | app/api/create-checkout-session/route.ts:51 | lower-casing an upper-cased code gives the lower-cased code, so the currency shown in upper case and the one charged in lower case name the same thing |
| Text.LowerIdempotent | lib/stripe-minimums.ts:27 | lower-casing twice is lower-casing once |
| Text.Split | middleware.ts:37-39 | `split` yields at least one field, and no field contains the separator |
| Text.JoinSplit | middleware.ts:37-39 | joining the fields of a split with the separator gives the original text back |
| Text.SplitJoin | middleware.ts:37-39 | splitting a join of separator-free fields gives those fields back |
| Text.SplitNoSeparator | middleware.ts:37 | text without the separator splits into itself alone |
| Text.SplitAfterField | middleware.ts:39 | a separator-free field followed by the separator splits off as the first field |
| Decimal.NatToDigits | app/api/create-checkout-session/route.ts:109-110 | the decimal digits of a natural number are non-empty, all digits, and have no leading zero unless the number is 0 |
| Decimal.ToString | app/api/create-checkout-session/route.ts:109-110 | `toString` of an integer is never empty and starts with `-` exactly for negatives |
| Decimal.ParseDigits | app/api/webhooks/stripe/route.ts:60 | the digit prefix is `NaN` exactly when the text is empty or does not start with a digit; otherwise it is non-negative |
| Decimal.ParseIntToString | app/api/create-checkout-session/route.ts:109 | `parseInt(x.toString())` is `x` for every integer and for `NaN`: the cutoff survives the trip through the metadata |
| Decimal.ToStringInjective | app/api/webhooks/stripe/route.ts:60 | distinct numbers are written as distinct strings |
| Decimal.TrimStartKeeps | app/api/webhooks/stripe/route.ts:60 | leading-whitespace trimming leaves text that starts with a digit, `-` or `N` unchanged |
| Minimums.GetMinimumAmount | lib/stripe-minimums.ts:26-29 | an unlisted currency gets 50, and every minimum lies between 10 and 2000 |
| Minimums.ListedCurrencyWins | lib/stripe-minimums.ts:5-19 | a currency whose lower-cased code is listed gets its table entry |
| Minimums.CaseInsensitive | lib/stripe-minimums.ts:27 | the lookup gives the same minimum for a code, its upper-case and its lower-case form |
| Minimums.TableEntries | lib/stripe-minimums.ts:5-19 | a code listed in the table, used as it is, gets its table entry: every key is already lower case |
| Minimums.TableExamples | lib/stripe-minimums.ts:6-17 | usd 50, gbp 30, mxn 10, cop 2000, pen 200 |
| Minimums.UnlistedDefault | lib/stripe-minimums.ts:28 | `chf` and the empty code get the default of 50 |
| Calendar.DaysInMonth | app/api/create-checkout-session/route.ts:88 | every month has 28 to 31 days |
| Calendar.NextMonthStart | app/api/create-checkout-session/route.ts:88 | the next month starts exactly one month length after this one, across year ends and leap years |
| Calendar.MonthStartGrows | app/api/create-checkout-session/route.ts:88 | `j` months on, a month starts at least 28·j days later |
| Calendar.SetMonthParts | app/api/create-checkout-session/route.ts:87-88 | `setMonth` keeps the time of day and the day-of-month offset from the target month's start |
| Calendar.OverflowRollsForward | app/api/create-checkout-session/route.ts:88 | a day past the end of the target month rolls into the next month instead of clamping |
| Calendar.CutoffIsFinite | app/api/create-checkout-session/route.ts:86-91 | from a valid instant of the years 1 to 200 000, any count up to 100 000 gives a real cutoff, never `NaN` |
| Calendar.CutoffSecondsInRange | app/api/webhooks/stripe/route.ts:67 | a real cutoff, turned back into milliseconds, is still a valid date |
| Calendar.CancelAtIsLater | app/api/create-checkout-session/route.ts:86-91 | from a valid date, the cutoff for one or more payments is at least 28 days after the request |
| Calendar.CancelAtMonotone | app/api/create-checkout-session/route.ts:86-91 | more payments never give an earlier cutoff |
| Calendar.EpochDay | app/api/create-checkout-session/route.ts:91 | January 1 1970, 00:00 is day 0 and time value 0 |
| Calendar.JanuaryThirtyFirstPlusOneMonth | app/api/create-checkout-session/route.ts:86-91 | January 31 2024 plus one month gives the cutoff 1709337600 (March 2 2024), not February 29 |
| StripeClient.IsValidStripeKey | lib/stripe.ts:19-23 | a key is valid exactly when it is present and starts with `sk_live_`, `sk_test_`, `rk_live_` or `rk_test_` |
| StripeClient.PatternIsPrefixChoice | lib/stripe.ts:22 | the anchored pattern (`sk` or `rk`, underscore, `live` or `test`, underscore) matches exactly the keys with one of the four prefixes |
| StripeClient.ValidKeyExtends | lib/stripe.ts:22 | appending anything to a valid key keeps it valid |
| StripeClient.RejectedKeys | lib/stripe.ts:20-22 | undefined, empty, `pk_live_abc`, `sk_abc` and `SK_live_abc` are rejected |
| StripeClient.AcceptedKeys | lib/stripe.ts:22 | one key of each of the four prefixes is accepted |
| StripeClient.MakeClient | lib/stripe.ts:25-30 | a live client is built exactly when the key is valid, and it holds that key; otherwise the placeholder |
| Provider.RetrievePrice | app/api/create-checkout-session/route.ts:40 | the placeholder throws and changes nothing; a live client logs one read, which returns the stored price or fails |
| Provider.CreatePrice | app/api/create-checkout-session/route.ts:74-82 | a live client logs the request; it succeeds exactly when no fault is injected and the amount is not negative; then the prices gain exactly one monthly price with the requested product, amount, currency and interval under the next id; a failure leaves the prices as they were; no session or subscription changes |
| Provider.CreateSession | app/api/create-checkout-session/route.ts:118-120 | a live client logs the request; it succeeds exactly when no fault is injected; the sessions then gain exactly one session, under the next id, carrying the parameters sent; a failure leaves the sessions as they were |
| Provider.IdOfInjective | app/api/create-checkout-session/route.ts:74-82 | different counter values give different identifiers under the same prefix |
| Provider.CreatePriceFresh | app/api/create-checkout-session/route.ts:74-82 | while identifiers are fresh, a new price never replaces an existing one, and identifiers stay fresh |
| Provider.CreateSessionFresh | app/api/create-checkout-session/route.ts:118-120 | while identifiers are fresh, a new session never replaces an existing one, and identifiers stay fresh |
| Provider.RetrieveSubscription | app/api/webhooks/stripe/route.ts:56 | the placeholder throws; a live client logs one read, which returns the stored subscription or fails |
| Provider.UpdateSubscription | app/api/webhooks/stripe/route.ts:63-65 | the update succeeds exactly when the client is live, the subscription exists, no fault is injected and `cancel_at` is a number; it then sets that subscription's `cancel_at` and nothing else |
| Provider.CompleteCheckout | app/api/create-checkout-session/route.ts:107-113 | paying a session adds exactly one subscription, under the next id, carrying the session's `subscription_data.metadata`, with no `cancel_at` yet; prices and sessions are unchanged |
| Provider.CompleteCheckoutFresh | app/api/create-checkout-session/route.ts:107-113 | while identifiers are fresh, the new subscription never replaces an existing one, and identifiers stay fresh |
| Checkout.FromFailure | app/api/create-checkout-session/route.ts:128-143 | provider invalid-request errors are 400 with `Error de Stripe: ` and the message; every other error is 500 with its message, or the default text when that is empty |
| Checkout.ValidatePriceId | app/api/create-checkout-session/route.ts:25-30 | `priceId` is rejected exactly when it is falsy in JavaScript (`undefined`, `null`, `false`, `0`, `""`) or its `typeof` is not `string`; otherwise the string is used |
| Checkout.ValidatePaymentsCount | app/api/create-checkout-session/route.ts:32-37 | `paymentsCount` is rejected exactly when it is falsy, its `typeof` is not `number`, or it is below 1; otherwise the number is used |
| Checkout.AmountPerPayment | app/api/create-checkout-session/route.ts:55 | the installment is the least amount whose `count` payments cover the total: `amount·count ≥ total` and `(amount−1)·count < total`; one payment is the total |
| Checkout.PlanMetadataKeys | app/api/create-checkout-session/route.ts:107-113 | the metadata has exactly the three keys, and holds the original price id verbatim |
| Checkout.PlannedCutoffReadsBack | app/api/create-checkout-session/route.ts:109 | `parseInt` reads back from the metadata the very cutoff written |
| Checkout.PlannedCountReadsBack | app/api/create-checkout-session/route.ts:110 | `parseInt` reads back from the metadata the very payment count written |
| Checkout.Prepare | app/api/create-checkout-session/route.ts:22-66 | a plan is produced only for a well-formed body, a live client and a stored monthly price whose installment meets the currency's minimum; it makes one read and nothing else |
| CheckoutProperties.UnparsableBodyFails | app/api/create-checkout-session/route.ts:20-22 | a body that does not parse is a 500 with the parser's message, and the provider is untouched |
| CheckoutProperties.MalformedInputRejected | app/api/create-checkout-session/route.ts:25-37 | a bad `priceId`, or else a bad `paymentsCount`, is a 400 with the matching error before any provider call |
| CheckoutProperties.PlaceholderClientFails | app/api/create-checkout-session/route.ts:40 | with the placeholder client the handler answers 500 with the `TypeError` message, and nothing reaches the provider |
| CheckoutProperties.RetrieveFailureMapped | app/api/create-checkout-session/route.ts:128-143 | a failing price read is mapped by the catch block, and nothing is created |
| CheckoutProperties.NonMonthlyPriceRejected | app/api/create-checkout-session/route.ts:42-47 | a price that is not monthly recurring is a 400, and no price or session is created |
| CheckoutProperties.BelowMinimumRejected | app/api/create-checkout-session/route.ts:58-66 | an installment below the minimum is a 400 naming the installment, the minimum and the lower-cased currency; no price or session is created |
| CheckoutProperties.PlaceSucceeded | app/api/create-checkout-session/route.ts:70-120 | a successful second phase made exactly two calls: the installment price, then a subscription session for it carrying the plan |
| CheckoutProperties.SuccessfulCheckout | app/api/create-checkout-session/route.ts:40-127 | a success made exactly three calls: read the original, create one monthly price with the original's product, the installment and the lower-cased currency, and open one session with the plan; the response echoes the installment and the total |
| CheckoutProperties.OrphanedPriceOnSessionFailure | app/api/create-checkout-session/route.ts:74-120 | when the session fails, the error is reported but the minted installment price stays: there is no rollback |
| CheckoutProperties.PrepareSucceeds | app/api/create-checkout-session/route.ts:22-66 | the converse of `Prepare`'s contract: a well-formed request for a stored monthly price whose installment meets the minimum gets a plan when the read succeeds |
| CheckoutProperties.AcceptableCheckoutSucceeds | app/api/create-checkout-session/route.ts:22-127 | the converse of the rejections: a well-formed request for a stored monthly price whose installment meets the minimum is a 200 with the installment and the total, when the provider answers all three calls |
| CheckoutProperties.CheckoutKeepsExistingObjects | app/api/create-checkout-session/route.ts:40-120 | while identifiers are fresh, every existing price and session survives unchanged, subscriptions are untouched, and identifiers stay fresh |
| CheckoutProperties.PlaceKeepsExistingObjects | app/api/create-checkout-session/route.ts:74-120 | the second phase mints at most one price and one session, both under fresh identifiers, and overwrites nothing |
| CheckoutProperties.ThirtyDollarsInThree | app/api/create-checkout-session/route.ts:50-66 | 3000 split in 3 is 1000 per installment, accepted, with `payments_count` "3" |
| CheckoutProperties.HundredCentsInFiveRejected | app/api/create-checkout-session/route.ts:55-66 | 100 split in 5 is 20, below the usd minimum of 50, so it is rejected with 400 and no price is created |
| Webhook.Reconcile | app/api/webhooks/stripe/route.ts:55-68 | reconciling one subscription never touches prices, sessions or faults, creates or deletes no subscription, and mints no identifier |
| Webhook.Process | app/api/webhooks/stripe/route.ts:47-78 | processing an event never touches prices, sessions or faults, creates or deletes no subscription, and mints no identifier |
| WebhookProperties.UnauthenticRejected | app/api/webhooks/stripe/route.ts:14-42 | no signature is 400, no secret is 500, and a failed verification is 400 with `Webhook Error: ` and the message; the provider is untouched |
| WebhookProperties.CompletedCheckoutSetsCancelAt | app/api/webhooks/stripe/route.ts:47-68 | a completed subscription checkout with a plan makes exactly one read and one update, which sets `cancel_at` to the parsed value; the answer is 200 when the cutoff is a valid date and otherwise the 500 of the `RangeError` from the log line, with the update already made |
| WebhookProperties.SubscriptionFormsAgree | app/api/webhooks/stripe/route.ts:50-53 | a session's subscription given as a non-empty id or as the expanded object is handled alike; an empty id string is skipped, an expanded object with an empty id is not |
| WebhookProperties.FarCutoffAnswers500 | app/api/webhooks/stripe/route.ts:60-67 | the metadata `9000000000000` is set as `cancel_at`, and the event is then answered with the `Invalid time value` error |
| WebhookProperties.UpdateFailureReported | app/api/webhooks/stripe/route.ts:63-65 | a refused update, after a successful read of a subscription with a plan, is a 500 with the provider's message, and no subscription changes |
| WebhookProperties.WebhookKeepsFreshIds | app/api/webhooks/stripe/route.ts:47-78 | the webhook creates and deletes no subscription, so identifiers stay fresh |
| WebhookProperties.ReconcileSettled | app/api/webhooks/stripe/route.ts:55-68 | reconciling a subscription whose `cancel_at` already holds its plan's cutoff changes no subscription, and without faults answers as the first time |
| WebhookProperties.ReconcileAgain | app/api/webhooks/stripe/route.ts:55-68 | reconciling twice: after an acknowledged first pass the second changes no subscription whatever faults it meets; with the same faults it answers the same |
| WebhookProperties.NothingToReconcile | app/api/webhooks/stripe/route.ts:50-59 | a non-subscription session, a missing subscription or a missing plan is acknowledged with no update |
| WebhookProperties.OtherEventsIgnored | app/api/webhooks/stripe/route.ts:47-78 | any other event type is acknowledged and the provider is untouched |
| WebhookProperties.InvoicePaidIgnored | app/api/webhooks/stripe/route.ts:73-78 | `invoice.paid` is acknowledged and the provider is untouched |
| WebhookProperties.ProviderFailureReported | app/api/webhooks/stripe/route.ts:79-85 | a failing subscription read is a 500 with the error's message, and no subscription changes |
| WebhookProperties.ProcessAgain | app/api/webhooks/stripe/route.ts:47-78 | processing the same verified event twice: after an acknowledged first pass the second changes no subscription whatever faults it meets; with the same faults it answers the same |
| WebhookProperties.RedeliveryIdempotent | app/api/webhooks/stripe/route.ts:47-78 | after an acknowledged delivery, delivering the same event again leaves every subscription, `cancel_at` included, as it was, whatever the provider fails on the second time; with the same faults the answer is also the same; prices and sessions never change |
| AuthGate.Decide | middleware.ts:8-61 | webhook paths pass; a 500 only on an unconfigured non-development deployment; the cookie is set only for a configured deployment, without the session cookie, with an `authorization` header; a throw only for a non-empty header without a space |
| AuthGateProperties.WebhooksBypass | middleware.ts:10-12 | `/api/webhooks` paths pass whatever the credentials, cookie or header |
| AuthGateProperties.UnconfiguredDeployment | middleware.ts:15-25 | without both credentials, development passes and anything else is a 500 |
| AuthGateProperties.SessionCookiePasses | middleware.ts:28-31 | the session cookie passes whatever the header, and sets no cookie |
| AuthGateProperties.CorrectCredentialsAccepted | middleware.ts:36-50 | `<scheme> <token>` whose token decodes to `user:password` with the configured values passes and sets `stripe_admin_auth=authenticated`, HTTP-only, secure in production, SameSite lax, max age 604800 s |
| AuthGateProperties.SplitTwoFields | middleware.ts:37 | a scheme and a token without spaces split into exactly those two words |
| AuthGateProperties.ColonPasswordNeverMatches | middleware.ts:39-41 | a configured password containing `:` never matches, although section 2 of RFC 7617 allows colons in the password |
| AuthGateProperties.TrailingFieldsIgnored | middleware.ts:39-41 | text after a second colon is ignored, so `user:password:extra` passes too |
| AuthGateProperties.CookieOnlyFromCredentials | middleware.ts:10-50 | the cookie is set exactly when the gate got to the header and the first two `:`-fields matched: never on the bypass or cookie branches |
| AuthGateProperties.OtherwiseChallenged | middleware.ts:54-60 | a configured deployment without the session cookie, with no header or with credentials that do not match, is a 401 with `Basic realm="Stripe Admin"` |
| AuthGateProperties.HeaderWithoutSpaceThrows | middleware.ts:37-38 | a non-empty header without a space has no token, and decoding it throws |
| Protocol.PlacedSession | app/api/create-checkout-session/route.ts:99-120 | a placed checkout leaves a subscription session whose metadata is the plan |
| Protocol.CheckoutLeavesSession | app/api/create-checkout-session/route.ts:86-120 | a successful checkout leaves that session at the provider with the cutoff computed from the request time |
| Protocol.PlanIsFound | app/api/webhooks/stripe/route.ts:59 | the cutoff is written as a non-empty string, so the webhook finds a plan |
| Protocol.PaidSessionReconciled | app/api/webhooks/stripe/route.ts:47-68 | paying such a session and delivering its completion sets the new subscription's `cancel_at` to the written cutoff, and is acknowledged when the cutoff is a valid date |
| Protocol.CheckoutThenWebhook | app/api/create-checkout-session/route.ts:86-113 | checkout, payment and webhook together give the new subscription a `cancel_at` equal to the cutoff the checkout computed, and the event is acknowledged |
| Protocol.DatedCheckoutThenWebhook | app/api/create-checkout-session/route.ts:86-113 | the same for every request made at a valid instant of the years 1 to 200 000 with at most 100 000 payments, without assuming the cutoff is real |

## Left out

- The pages and the read-only routes (`app/page.tsx`, the success and cancel pages, the
  layout, the theme, `app/api/products`, `app/api/prices/[productId]`) are user
  interface or plain listing and hold no logic of the core.
- `verify-stripe.js` is a developer script and is not part of this model.
- The Stripe SDK is abstracted as a provider state with injected faults. This covers
  the HTTP requests, retries, the real id formats and the HMAC signature check in
  `webhooks.constructEvent`. The signature check becomes a given verification outcome.
- Console logging, including the `invoice.paid` log line, is left out. Of the webhook's
  log line only its failure is modelled: formatting a cutoff beyond the date range
  throws, and the handler answers 500.
- Provider.IdOf: the provider's identifiers are a prefix and a counter. Stripe's real
  identifiers are random; the no-overwrite lemmas take `FreshIds` as a premise in place
  of that randomness.
- Checkout.ErrorText: the below-minimum message formats amounts with `/ 100` and
  `toFixed(2)`, which is floating point; the error keeps the two integers and the currency.
- Checkout.ValidatePaymentsCount: counts are integers. The code also accepts a
  fractional count such as 2.5, which would give fractional months and amounts.
- Checkout.Prepare: the request body is already parsed into the two fields. A body
  that fails to parse or destructure is one `Unparsable` case with its message.
- The date arithmetic runs in UTC. The code uses the host's
  local time zone, so daylight-saving shifts are not modelled.
- Decimal.ToString: numbers of magnitude 1e21 or more are written in exponent
  notation by JavaScript; the model writes all digits. Cutoffs are far below that.
- Decimal.ParseDigits: `parseInt` returns a double, which loses precision above 2^53;
  the model's value is exact.
- Text.Lower: only ASCII letters are mapped. Currency codes are ASCII; Unicode case
  mapping is not modelled.
- Minimums.GetMinimumAmount: the table is a plain object, so a key such as
  `constructor` finds an inherited function, which is truthy. The model treats every
  key outside the twelve codes as unlisted and returns 50.
- AuthGate.Decide: base64 decoding is a parameter `decode`. A throw inside the
  middleware is the `Crash` decision; the framework's answer to it is not modelled.
- The middleware's `matcher` configuration (which paths reach the gate at all) is
  framework routing and is not modelled.
- Webhook.Process: the update is sent even when `parseInt` gives `NaN`. The provider
  model rejects a non-number `cancel_at`; what Stripe's API does with it is not modelled.
- Webhook.Reconcile: the range check on the logged date uses the exact integer
  `cancelAt * 1000`. JavaScript multiplies doubles; up to the range limit of 8.64e15
  the product is below 2^53 and exact, and `parseInt` of a very long digit string
  gives `Infinity`, which is outside the range in either reading.
- Text.Split: only the one-character separators the code uses are modelled.
