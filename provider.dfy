/** The payments provider as the handlers see it: the objects its calls return,
    the outcome of a call (a value or a thrown error), and the calls themselves.
    What the provider does inside a call is not modelled; each call's outcome is
    an input of the handler. */
module Provider {
  import opened Js

  /** A customer as `customers.retrieve` returns it; a deleted customer comes
      back with its `deleted` flag set. */
  datatype Customer = Customer(id: string, deleted: bool)

  /** A payment intent; only its client secret is read. */
  datatype PaymentIntent = PaymentIntent(clientSecret: string)

  /** An invoice whose `payment_intent` was expanded, when there is one. */
  datatype Invoice = Invoice(paymentIntent: Option<PaymentIntent>)

  /** A subscription and its (expanded) `latest_invoice`, when there is one. */
  datatype Subscription = Subscription(id: string, latestInvoice: Option<Invoice>)

  /** What an awaited provider call does: resolve with a value or throw an
      error carrying a message. */
  datatype Outcome<+T> = Ok(value: T) | Threw(message: string)

  /** The outcome each provider call would have if the handler made it. The
      handler makes each of them at most once per request. */
  datatype Stripe = Stripe(
    retrieveCustomer: Outcome<Customer>,
    createCustomer: Outcome<Customer>,
    createSubscription: Outcome<Subscription>,
    createIntent: Outcome<PaymentIntent>)

  /** A provider call with the arguments the handler passes. A subscription is
      always created with payment behaviour 'default_incomplete' and the latest
      invoice's payment intent expanded, and a payment intent always with
      automatic payment methods enabled; those constant arguments are left
      implicit. */
  datatype Call =
    | RetrieveCustomer(id: Json)
    | CreateCustomer(email: Option<Json>, metadata: Option<Json>)
    | CreateSubscription(customer: string, price: string, subscriptionMetadata: Json)
    | CreateIntent(amount: Json, currency: Json)

  /** How many customers a sequence of calls creates. */
  function CustomersCreated(calls: seq<Call>): nat {
    if calls == [] then 0
    else (if calls[0].CreateCustomer? then 1 else 0) + CustomersCreated(calls[1..])
  }

  lemma {:induction false} CountAppend(a: seq<Call>, b: seq<Call>)
    ensures CustomersCreated(a + b) == CustomersCreated(a) + CustomersCreated(b)
  {
    if a == [] {
      assert a + b == b;
    } else {
      assert (a + b)[1..] == a[1..] + b;
      CountAppend(a[1..], b);
    }
  }
}
