/** The HTTP responses the two routes send. `res.json(...)` without a status
    answers 200. */
module Http {
  import opened Js

  datatype Body =
    | ErrorBody(error: string)                 // {error}
    | IntentBody(clientSecret: string)         // {clientSecret}
    | SubscriptionBody(secret: Option<string>, subscriptionId: string, customerId: string)
                                               // {clientSecret: secret, subscriptionId, customerId}; None is null
    | Text(text: string)                       // a plain-text body sent with res.send
    | Received                                 // {received: true}

  datatype Response = Response(status: int, body: Body)
}
