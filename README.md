# Payment backend: request decisions

A model of the two routes of a small Express backend (`index.js`). The backend
hands every payment operation to Stripe. What it owns is the branching around
those calls:

- **POST /create-payment-intent** looks at the requested `plan` and the
  configured monthly and annual price ids. It then does one of three things:
  - refuses an unconfigured plan with 400;
  - creates a subscription, first reusing or creating a customer;
  - creates a one-off payment intent with a resolved amount and currency.

  A provider error answers 500 with the error's message.
- **POST /webhook** reads the event in one of two ways. When a signing secret is
  set, it verifies the signature. Otherwise it parses the body as JSON. A failed
  read answers `400 Webhook Error: <message>`. A successful read is classified
  by `event.type`. It is acknowledged with `{received: true}` when the branch
  for that type runs without throwing.

Modules:

- `Js` (json.dfy): JSON values, JavaScript truthiness, property access, `||`.
- `Provider` (provider.dfy): the Stripe objects the handlers read. It also has
  the outcome of an awaited call (a value or a thrown message) and a log of the
  calls made with their arguments.
- `Http` (http.dfy): the response bodies and statuses.
- `Payments` (payments.dfy): the /create-payment-intent route.
- `Webhook` (webhook.dfy): the /webhook route.

Configuration comes from the environment variables `STRIPE_MONTHLY_PRICE_ID`,
`STRIPE_ANNUAL_PRICE_ID` and `STRIPE_WEBHOOK_SECRET`.

Every Stripe call is an input. The handler receives the outcome each call would
have, and the model records in `calls` which calls were actually made and with
what arguments. JavaScript truthiness is explicit in the model:
- `undefined` (an absent property, `None`), `null`, `false`, `0` and `''` are
  falsy;
- an unset or empty environment variable is not `Present`.

The step-by-step parts of the source are methods. These are customer
resolution, amount resolution, the `try` that reads a webhook event, and the
two handlers. Each method is proved against the pure decision functions
(`Decide`, `IntentAmount`, `Classify`) or states its results outright.

## Model

| member | source | states |
|---|---|---|
| Payments.Decide | index.js:24-28 | Which path runs: the subscription path (or its 400) exactly when `plan` is truthy and some price id is configured. Otherwise one-off, including a plan with no price ids. 'annual' selects the annual price and any other plan the monthly one. The 400 happens exactly when the selected price is absent, even if the other price is configured. A one-off decision carries the resolved amount and currency. |
| Payments.DecisionIgnoresCustomerFields | index.js:19-28 | The decision depends only on the request's plan, amount and currency. Email, customerId and metadata never change it. |
| Payments.IntentAmount | index.js:64-69 | The resolved one-off amount is always truthy, so never 0 or absent. A truthy request amount is used unchanged. Otherwise the amount is 17990 for plan 'annual' and 1990 in every other case. |
| Payments.ResolveAmount | index.js:64-69 | The step-by-step updates of `intentAmount` compute exactly `IntentAmount`. |
| Payments.Currency | index.js:63 | The currency is 'brl' only when the property is absent. Any value that is given, including null and '', is passed on unchanged. |
| Payments.ResolveCustomer | index.js:31-44 | The existing customer is reused iff `customerId` is truthy, retrieval did not throw and the customer is not deleted. Otherwise exactly one customer is created with the request's email and metadata. The calls made are a retrieval (when an id was given) and then a creation (unless the customer is reused). A retrieval error never surfaces; only the creation's error can. |
| Payments.ClientSecret | index.js:55-56 | The client secret is null exactly when the latest invoice or its payment intent is missing. Otherwise it is that payment intent's secret. |
| Payments.CreatePaymentIntent | index.js:12-80 | A refused plan answers 400 "Requested plan not configured on server" with no provider call. One-off: one intent creation with the resolved amount and currency, then 200 `{clientSecret}` or 500 with the error. Subscription: customer calls as in ResolveCustomer, and one customer created unless reused. Then one subscription for the resolved customer, the chosen price and the request metadata, or `{}` when it is falsy. Then 200 with the null-tolerant secret, the subscription id and the resolved customer's id, or 500 with the message of the failed creation. A created customer stays in the call log when the subscription fails. Every 500 carries a creation error's message, and never happens when all creations succeed. |
| Webhook.Classify | index.js:103-124 | A handled kind is returned exactly when `event.type` is that kind's type string. Otherwise the kind is `Unhandled`, including a missing or non-string type. |
| Webhook.ReadEvent | index.js:88-100 | Signature verification runs iff the signing secret is set and non-empty. JSON parsing runs iff there is no secret and the body is truthy. The event read is the outcome of whichever one ran. |
| Webhook.HandleWebhook | index.js:86-127 | A failed verification or parse answers 400 `Webhook Error: <message>` and enters no branch. A non-null event enters the branch its type selects. It is answered 200 `{received: true}` exactly when that branch completes. A handled branch needs `data` to be an object whose `object` is present and not null. The default branch needs a type it can format as a string. When the branch throws, or the event is missing or null, the model gives no response. Every 200 comes after a branch was entered, and no 400 does. |

## Left out

- Process setup is not modelled (index.js:1-10, 129-130): dotenv, Express, CORS, the JSON and raw body parsers, the Stripe client construction and `app.listen`.
- What Stripe does inside `customers.retrieve/create`, `subscriptions.create`, `paymentIntents.create` and `webhooks.constructEvent` is not modelled. That includes the signature scheme. Each call is reduced to an outcome given as input. The constant arguments are not recorded (`payment_behavior`, `expand`, `automatic_payment_methods`).
- `JSON.parse` of the webhook body is an outcome given as input, like the Stripe calls.
- Logging (`console.log`, `console.error`) is left out. It has no effect on responses.
- `async`/`await` is modelled as a sequential program, because each request runs its calls in order and shares no mutable state.
- A webhook whose event is missing or `null` is not decided by the model (`response` is None). This happens when there is no secret and the body is falsy, or when the parsed body is `null`. In both cases `event.type` throws outside the `try`, and the answer comes from the framework's default error handler, which is not in this file.
- Webhook.HandleWebhook: the answer is not specified when the selected switch branch throws outside the `try` (index.js:103-124). A handled branch throws when `event.data` is not an object, or when `event.data.object` is missing or null (lines 105, 111, 117, then the `.id` reads at lines 106, 112, 118). The default branch throws when `event.type` is an object with its own `toString` property (line 123). The framework's default error handler then answers, and it is not in this file, so the model's `response` is None.
- The order of the body parsers is not modelled. `express.json()` is registered for every route at line 8, before the webhook route's `express.raw` at line 86. For an `application/json` delivery, which is the content type the provider sends, the JSON parser therefore consumes the body first and the raw parser skips it. The handler then receives a parsed object, not bytes. With a secret, `constructEvent` rejects that payload. Without one, `JSON.parse` of its string form `[object Object]` throws. Either way every such delivery answers 400. This rests on the body-parser library's behaviour, which is not in this file, so the model takes the reader's outcome as input.
- The request body is taken to be a JSON object whose properties are destructured, with absent ones `undefined`. The `req.body || {}` guards of lines 19 and 32 therefore agree with the unguarded line 63.
- Numbers are exact reals. Floating-point rounding of amounts is not modelled.
- The reused customer's id is the id on the retrieved customer object. The model does not equate it with the requested `customerId`, because that equality is Stripe's behaviour.

