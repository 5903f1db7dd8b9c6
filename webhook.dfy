/** The POST /webhook route: read the event (verifying its signature when a
    signing secret is configured, parsing the body as JSON otherwise), answer
    400 when that fails, else classify the event type and acknowledge receipt.
    The branches for the event types only log, so dispatch is modelled as the
    classification alone. */
module Webhook {
  import opened Js
  import opened Provider
  import opened Http

  const WebhookErrorPrefix: string := "Webhook Error: "

  /** The branches of the switch on `event.type`. */
  datatype EventKind =
    | InvoicePaymentSucceeded
    | SubscriptionUpdated
    | InvoicePaymentFailed
    | Unhandled

  /** The `type` string a handled kind is selected by. */
  function Name(kind: EventKind): string
    requires kind != Unhandled
  {
    match kind
    case InvoicePaymentSucceeded => "invoice.payment_succeeded"
    case SubscriptionUpdated => "customer.subscription.updated"
    case InvoicePaymentFailed => "invoice.payment_failed"
  }

  /** `event.type` of a non-null event: the `type` property of an object,
      undefined on any other value. */
  function TypeOf(event: Json): Option<Json> {
    if event.Obj? then Field(event.fields, "type") else None
  }

  /** The switch: strict equality against the three handled type strings. */
  function Classify(eventType: Option<Json>): (kind: EventKind)
    ensures kind != Unhandled ==> eventType == Some(Str(Name(kind)))
    ensures kind == Unhandled ==> forall k: EventKind :: k != Unhandled ==> eventType != Some(Str(Name(k)))
  {
    match eventType
    case Some(Str(t)) =>
      if t == "invoice.payment_succeeded" then InvoicePaymentSucceeded
      else if t == "customer.subscription.updated" then SubscriptionUpdated
      else if t == "invoice.payment_failed" then InvoicePaymentFailed
      else Unhandled
    case _ => Unhandled
  }

  /** Whether a template literal can turn a parsed JSON value into a string.
      An object with its own `toString` property has no callable `toString`,
      and the inherited `valueOf` returns the object itself, so the conversion
      throws. An array is joined element by element (null becomes ''). */
  predicate Stringifies(v: Json) {
    match v
    case Obj(fields) => "toString" !in fields
    case Arr(items) => forall i :: 0 <= i < |items| ==> Stringifies(items[i])
    case _ => true
  }

  /** `event.data.object` is an object-like value whose properties can be read:
      `data` must be an object (anything else yields undefined or throws at
      `.object`) and `object` must be present and not null (otherwise reading
      its `id` throws). */
  predicate DataObjectReadable(event: Json) {
    event.Obj? &&
    match Field(event.fields, "data")
    case Some(Obj(data)) => "object" in data && data["object"] != Null
    case _ => false
  }

  /** Whether the switch branch for `kind` runs to its `break` without throwing:
      a handled branch reads `event.data.object` and a property of it, the
      default branch formats `event.type` into its log line. */
  predicate BranchCompletes(kind: EventKind, event: Json) {
    if kind == Unhandled then TypeOf(event).None? || Stringifies(TypeOf(event).value)
    else DataObjectReadable(event)
  }

  /** What the `try` block leaves in `event`. NoEvent: no signing secret and a
      falsy body, which becomes the event unparsed. */
  datatype EventRead = Event(event: Json) | ReadFailed(message: string) | NoEvent

  function ReadOf(outcome: Outcome<Json>): EventRead {
    match outcome
    case Ok(e) => Event(e)
    case Threw(m) => ReadFailed(m)
  }

  /** The `try` block. `construct` is what signature verification would return
      or throw, `parse` what JSON.parse of the body would; at most one of the two
      runs. */
  method ReadEvent(secret: Option<string>, bodyTruthy: bool, construct: Outcome<Json>, parse: Outcome<Json>)
    returns (read: EventRead, verified: bool, parsed: bool)
    ensures verified <==> Present(secret)
    ensures parsed <==> !Present(secret) && bodyTruthy
    ensures verified ==> read == ReadOf(construct)
    ensures parsed ==> read == ReadOf(parse)
    ensures !verified && !parsed ==> read == NoEvent
  {
    verified, parsed := false, false;
    if !Present(secret) {
      if bodyTruthy {
        parsed := true;
        read := ReadOf(parse);
      } else {
        read := NoEvent;
      }
    } else {
      verified := true;
      read := ReadOf(construct);
    }
  }

  /** One webhook delivery: which reader ran, which switch branch was entered
      (None: none), and the response (None: reading `event.type` or the branch
      threw outside the `try`, so the answer is left to the framework's error
      handler). */
  datatype WebhookRun = WebhookRun(
    verified: bool,
    parsed: bool,
    dispatched: Option<EventKind>,
    response: Option<Response>)

  /** The route handler. */
  method HandleWebhook(secret: Option<string>, bodyTruthy: bool, construct: Outcome<Json>, parse: Outcome<Json>)
    returns (run: WebhookRun)
    // signature verification runs iff a signing secret is set
    ensures run.verified <==> Present(secret)
    ensures run.parsed <==> !Present(secret) && bodyTruthy
    // a failed read answers 400 with its message and skips the switch
    ensures var used := if Present(secret) then construct else parse;
              (run.verified || run.parsed) && used.Threw? ==>
                && run.response == Some(Response(400, Text(WebhookErrorPrefix + used.message)))
                && run.dispatched == None
    // a read event is classified by its type, and acknowledged whenever its branch completes
    ensures var used := if Present(secret) then construct else parse;
              (run.verified || run.parsed) && used.Ok? && used.value != Null ==>
                var kind := Classify(TypeOf(used.value));
                && run.dispatched == Some(kind)
                && run.response == (if BranchCompletes(kind, used.value) then Some(Response(200, Received)) else None)
    // an unread or null event has no response and no dispatch
    ensures var used := if Present(secret) then construct else parse;
              !(run.verified || run.parsed) || used == Ok(Null) ==> run.response == None && run.dispatched == None
    ensures run.response == Some(Response(200, Received)) ==> run.dispatched.Some?
    ensures run.response.Some? && run.response.value.status == 400 ==> run.dispatched == None
    ensures run.response.Some? ==> run.response.value.status == 200 || run.response.value.status == 400
  {
    var read, verified, parsed := ReadEvent(secret, bodyTruthy, construct, parse);
    match read
    case ReadFailed(m) =>
      run := WebhookRun(verified, parsed, None, Some(Response(400, Text(WebhookErrorPrefix + m))));
    case NoEvent =>
      run := WebhookRun(verified, parsed, None, None);
    case Event(event) =>
      if event == Null {
        run := WebhookRun(verified, parsed, None, None);
      } else {
        var kind := Classify(TypeOf(event));
        if BranchCompletes(kind, event) {
          run := WebhookRun(verified, parsed, Some(kind), Some(Response(200, Received)));
        } else {
          run := WebhookRun(verified, parsed, Some(kind), None);
        }
      }
  }

  /** Deliveries the service is documented to handle, answered from the contracts alone. */
  method Scenarios(failure: string)
  {
    var secret := Some("whsec_1");
    var invoice := Obj(map["object" := Obj(map["id" := Str("in_1")])]);
    var paid := Obj(map["type" := Str("invoice.payment_succeeded"), "data" := invoice]);

    // a correctly signed invoice.payment_succeeded event is acknowledged
    var run := HandleWebhook(secret, true, Ok(paid), Threw(failure));
    assert run.response == Some(Response(200, Received));
    assert run.dispatched == Some(InvoicePaymentSucceeded);

    // a bad signature answers 400 and nothing is dispatched
    run := HandleWebhook(secret, true, Threw(failure), Ok(paid));
    assert run.response == Some(Response(400, Text(WebhookErrorPrefix + failure)));
    assert run.dispatched == None;

    // an unknown type is acknowledged like any other
    run := HandleWebhook(None, true, Threw(failure), Ok(Obj(map["type" := Str("charge.refunded")])));
    assert !run.verified && run.dispatched == Some(Unhandled);
    assert run.response == Some(Response(200, Received));

    // a handled type without `data` throws in its branch: no acknowledgement
    run := HandleWebhook(None, true, Threw(failure), Ok(Obj(map["type" := Str("invoice.payment_failed")])));
    assert run.dispatched == Some(InvoicePaymentFailed) && run.response == None;
  }
}
