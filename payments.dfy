/** The POST /create-payment-intent route: from the request and the configured
    price ids it either refuses the plan (400), creates a subscription for a new
    or reused customer, or creates a one-off payment intent. Provider errors
    answer 500 with the error's message. */
module Payments {
  import opened Js
  import opened Provider
  import opened Http

  /** The price ids configured in STRIPE_MONTHLY_PRICE_ID and STRIPE_ANNUAL_PRICE_ID
      (None when the variable is unset). */
  datatype Config = Config(monthlyPrice: Option<string>, annualPrice: Option<string>)

  /** The properties the handler destructures from the JSON request body; None
      stands for a property that is absent (`undefined`). */
  datatype Request = Request(
    plan: Option<Json>,
    email: Option<Json>,
    customerId: Option<Json>,
    metadata: Option<Json>,
    amount: Option<Json>,
    currency: Option<Json>)

  const NotConfiguredMessage: string := "Requested plan not configured on server"
  /** Amounts in minor currency units. */
  const AnnualPlanAmount: real := 17990.0
  const OtherPlanAmount: real := 1990.0
  const DefaultAmount: real := 1990.0
  const DefaultCurrency: string := "brl"

  /** `plan === 'annual'`: strict equality with the string. */
  predicate IsAnnual(plan: Option<Json>) {
    plan == Some(Str("annual"))
  }

  /** Plan-based pricing applies: a truthy plan and at least one configured price id. */
  predicate PlanPricing(cfg: Config, plan: Option<Json>) {
    TruthyOpt(plan) && (Present(cfg.monthlyPrice) || Present(cfg.annualPrice))
  }

  /** The price id for the requested plan: the annual price for 'annual', the
      monthly price for any other plan value. */
  function SelectedPrice(cfg: Config, plan: Option<Json>): Option<string> {
    if IsAnnual(plan) then cfg.annualPrice else cfg.monthlyPrice
  }

  /** What the handler does with a request before any provider call. */
  datatype Decision =
    | NotConfigured
    | Subscribe(priceId: string)
    | OneOff(amount: Json, currency: Json)

  function Decide(cfg: Config, req: Request): (d: Decision)
    // which path runs
    ensures d.OneOff? <==> !PlanPricing(cfg, req.plan)
    ensures !TruthyOpt(req.plan) ==> d.OneOff?
    ensures !Present(cfg.monthlyPrice) && !Present(cfg.annualPrice) ==> d.OneOff?
    // price selection
    ensures d.NotConfigured? <==> PlanPricing(cfg, req.plan) && !Present(SelectedPrice(cfg, req.plan))
    ensures d.Subscribe? ==> d.priceId != ""
    ensures d.Subscribe? && IsAnnual(req.plan) ==> cfg.annualPrice == Some(d.priceId)
    ensures d.Subscribe? && !IsAnnual(req.plan) ==> cfg.monthlyPrice == Some(d.priceId)
    // the other plan's price never stands in for the requested one
    ensures IsAnnual(req.plan) && !Present(cfg.annualPrice) && Present(cfg.monthlyPrice) ==> d.NotConfigured?
    ensures (TruthyOpt(req.plan) && !IsAnnual(req.plan) && !Present(cfg.monthlyPrice) && Present(cfg.annualPrice))
              ==> d.NotConfigured?
    // the one-off path takes the resolved amount and currency
    ensures d.OneOff? ==> d.amount == IntentAmount(req.amount, req.plan) && d.currency == Currency(req.currency)
  {
    if PlanPricing(cfg, req.plan) then
      var chosen := SelectedPrice(cfg, req.plan);
      if !Present(chosen) then NotConfigured else Subscribe(chosen.value)
    else
      OneOff(IntentAmount(req.amount, req.plan), Currency(req.currency))
  }

  /** The decision reads only the plan, the amount and the currency of a request. */
  lemma DecisionIgnoresCustomerFields(cfg: Config, r1: Request, r2: Request)
    requires r1.plan == r2.plan && r1.amount == r2.amount && r1.currency == r2.currency
    ensures Decide(cfg, r1) == Decide(cfg, r2)
  {
  }

  /** The amount of a one-off payment intent, in resolution order: a truthy
      amount from the request, else the fallback for a truthy plan, else the
      default. */
  function IntentAmount(amount: Option<Json>, plan: Option<Json>): (r: Json)
    ensures Truthy(r)
    ensures TruthyOpt(amount) ==> r == amount.value
    ensures !TruthyOpt(amount) && IsAnnual(plan) ==> r == Num(17990.0)
    ensures !TruthyOpt(amount) && !IsAnnual(plan) ==> r == Num(1990.0)
  {
    if TruthyOpt(amount) then amount.value
    else if TruthyOpt(plan) then Num(if IsAnnual(plan) then AnnualPlanAmount else OtherPlanAmount)
    else Num(DefaultAmount)
  }

  /** The handler's step-by-step update of `intentAmount`. */
  method ResolveAmount(amount: Option<Json>, plan: Option<Json>) returns (intentAmount: Json)
    ensures intentAmount == IntentAmount(amount, plan)
  {
    var current := amount;
    if !TruthyOpt(current) && TruthyOpt(plan) {
      current := Some(Num(if IsAnnual(plan) then AnnualPlanAmount else OtherPlanAmount));
    }
    intentAmount := Or(current, Num(DefaultAmount));
  }

  /** The destructuring default `currency = 'brl'`: it applies only to an absent
      property; null, '' or any other value is passed on unchanged. */
  function Currency(currency: Option<Json>): (r: Json)
    ensures currency.None? ==> r == Str("brl")
    ensures currency.Some? ==> r == currency.value
  {
    match currency
    case None => Str(DefaultCurrency)
    case Some(c) => c
  }

  /** The existing customer is reused when a truthy id was given, its retrieval
      did not throw, and the retrieved customer is not deleted. */
  predicate Reuses(req: Request, retrieved: Outcome<Customer>) {
    TruthyOpt(req.customerId) && retrieved.Ok? && !retrieved.value.deleted
  }

  /** The customer the subscription is created for, or the error creating it threw. */
  function ResolvedCustomer(req: Request, stripe: Stripe): Outcome<Customer> {
    if Reuses(req, stripe.retrieveCustomer) then Ok(stripe.retrieveCustomer.value)
    else stripe.createCustomer
  }

  /** The provider calls customer resolution makes. */
  function CustomerCalls(req: Request, retrieved: Outcome<Customer>): seq<Call> {
    (if TruthyOpt(req.customerId) then [RetrieveCustomer(req.customerId.value)] else [])
    + (if Reuses(req, retrieved) then [] else [CreateCustomer(req.email, req.metadata)])
  }

  /** Reuse the customer named in the request or create one; the `customer`
      variable is reassigned step by step and a failed retrieval is swallowed. */
  method ResolveCustomer(req: Request, retrieve: Outcome<Customer>, create: Outcome<Customer>)
    returns (customer: Outcome<Customer>, calls: seq<Call>)
    ensures customer == (if Reuses(req, retrieve) then Ok(retrieve.value) else create)
    ensures calls == CustomerCalls(req, retrieve)
    ensures CustomersCreated(calls) == (if Reuses(req, retrieve) then 0 else 1)
    ensures retrieve.Threw? ==> customer == create
  {
    var current: Option<Customer> := None;
    calls := [];
    if TruthyOpt(req.customerId) {
      calls := calls + [RetrieveCustomer(req.customerId.value)];
      match retrieve
      case Ok(c) => current := Some(c);
      case Threw(_) => current := None;
    }
    if current.None? || current.value.deleted {
      var createCall := CreateCustomer(req.email, req.metadata);
      CountAppend(calls, [createCall]);
      calls := calls + [createCall];
      customer := create;
    } else {
      customer := Ok(current.value);
    }
  }

  /** `latest_invoice && latest_invoice.payment_intent`, then its client secret,
      or null when either is missing. */
  function ClientSecret(sub: Subscription): (secret: Option<string>)
    ensures secret.Some? <==> sub.latestInvoice.Some? && sub.latestInvoice.value.paymentIntent.Some?
    ensures secret.Some? ==> secret.value == sub.latestInvoice.value.paymentIntent.value.clientSecret
  {
    match sub.latestInvoice
    case None => None
    case Some(invoice) =>
      match invoice.paymentIntent
      case None => None
      case Some(intent) => Some(intent.clientSecret)
  }

  predicate ThrewWith<T>(o: Outcome<T>, message: string) {
    o.Threw? && o.message == message
  }

  /** The route handler. */
  method CreatePaymentIntent(cfg: Config, req: Request, stripe: Stripe)
    returns (resp: Response, calls: seq<Call>)
    // a plan without its price is refused before any provider call
    ensures Decide(cfg, req).NotConfigured? ==>
              resp == Response(400, ErrorBody("Requested plan not configured on server")) && calls == []
    // the one-off path creates one payment intent with the resolved amount and currency
    ensures Decide(cfg, req).OneOff? ==>
              && calls == [CreateIntent(Decide(cfg, req).amount, Decide(cfg, req).currency)]
              && resp == (if stripe.createIntent.Threw? then Response(500, ErrorBody(stripe.createIntent.message))
                          else Response(200, IntentBody(stripe.createIntent.value.clientSecret)))
    // the subscription path: one customer created unless reused, then one subscription
    ensures Decide(cfg, req).Subscribe? ==>
              var customer := ResolvedCustomer(req, stripe);
              && CustomersCreated(calls) == (if Reuses(req, stripe.retrieveCustomer) then 0 else 1)
              && calls == CustomerCalls(req, stripe.retrieveCustomer)
                          + (if customer.Threw? then []
                             else [CreateSubscription(customer.value.id, Decide(cfg, req).priceId,
                                                      Or(req.metadata, EmptyObject))])
              && resp == (if customer.Threw? then Response(500, ErrorBody(customer.message))
                          else if stripe.createSubscription.Threw?
                          then Response(500, ErrorBody(stripe.createSubscription.message))
                          else Response(200, SubscriptionBody(ClientSecret(stripe.createSubscription.value),
                                                              stripe.createSubscription.value.id,
                                                              customer.value.id)))
    // a 500 carries the message of a failed creation, never of a failed retrieval
    ensures resp.status == 500 ==>
              && resp.body.ErrorBody?
              && (|| ThrewWith(stripe.createCustomer, resp.body.error)
                  || ThrewWith(stripe.createSubscription, resp.body.error)
                  || ThrewWith(stripe.createIntent, resp.body.error))
    ensures stripe.createCustomer.Ok? && stripe.createSubscription.Ok? && stripe.createIntent.Ok? ==>
              resp.status != 500
    ensures resp.status == 200 || resp.status == 400 || resp.status == 500
  {
    var plan := req.plan;
    var monthlyPrice, annualPrice := cfg.monthlyPrice, cfg.annualPrice;
    if TruthyOpt(plan) && (Present(monthlyPrice) || Present(annualPrice)) {
      var chosenPriceId := if IsAnnual(plan) then annualPrice else monthlyPrice;
      if !Present(chosenPriceId) {
        resp, calls := Response(400, ErrorBody(NotConfiguredMessage)), [];
        return;
      }
      var customer;
      customer, calls := ResolveCustomer(req, stripe.retrieveCustomer, stripe.createCustomer);
      if customer.Threw? {
        resp := Response(500, ErrorBody(customer.message));
        return;
      }
      var subscriptionCall := CreateSubscription(customer.value.id, chosenPriceId.value,
                                                 Or(req.metadata, EmptyObject));
      CountAppend(calls, [subscriptionCall]);
      calls := calls + [subscriptionCall];
      if stripe.createSubscription.Threw? {
        resp := Response(500, ErrorBody(stripe.createSubscription.message));
        return;
      }
      var subscription := stripe.createSubscription.value;
      var clientSecret := ClientSecret(subscription);
      resp := Response(200, SubscriptionBody(clientSecret, subscription.id, customer.value.id));
      return;
    }
    var intentAmount := ResolveAmount(req.amount, plan);
    var currency := Currency(req.currency);
    calls := [CreateIntent(intentAmount, currency)];
    if stripe.createIntent.Threw? {
      resp := Response(500, ErrorBody(stripe.createIntent.message));
    } else {
      resp := Response(200, IntentBody(stripe.createIntent.value.clientSecret));
    }
  }

  /** Requests the service is documented to handle, answered from the contracts alone. */
  method Scenarios(intent: PaymentIntent, sub: Subscription, existing: Customer, created: Customer, failure: string)
  {
    var monthlyOnly := Config(Some("price_monthly"), None);
    var noPrices := Config(None, None);
    var ok := Stripe(Threw(failure), Ok(created), Ok(sub), Ok(intent));

    // monthly plan, no customer id: a new customer and a subscription
    var monthly := Request(Some(Str("monthly")), Some(Str("a@b.c")), None, None, None, None);
    var resp, calls := CreatePaymentIntent(monthlyOnly, monthly, ok);
    assert resp == Response(200, SubscriptionBody(ClientSecret(sub), sub.id, created.id));
    assert CustomersCreated(calls) == 1;

    // annual plan with only a monthly price: refused, nothing called
    var annual := Request(Some(Str("annual")), None, None, None, None, None);
    resp, calls := CreatePaymentIntent(monthlyOnly, annual, ok);
    assert resp.status == 400 && calls == [];

    // an existing, live customer is reused, not duplicated
    var known := monthly.(customerId := Some(Str("cus_1")));
    var live := existing.(deleted := false);
    resp, calls := CreatePaymentIntent(monthlyOnly, known, ok.(retrieveCustomer := Ok(live)));
    assert CustomersCreated(calls) == 0 && resp.body.customerId == live.id;

    // no plan, no amount: a one-off intent of 1990 in brl
    var bare := Request(None, None, None, None, None, None);
    resp, calls := CreatePaymentIntent(monthlyOnly, bare, ok);
    assert calls == [CreateIntent(Num(1990.0), Str("brl"))];

    // an annual plan with no price configured at all: a one-off intent of 17990
    resp, calls := CreatePaymentIntent(noPrices, annual, ok);
    assert calls == [CreateIntent(Num(17990.0), Str("brl"))];
  }
}
