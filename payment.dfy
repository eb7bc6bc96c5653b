/** The payment routes: creating a payment intent behind an amount guard,
    and the provider's webhook, whose events move one order to paid or to
    failed. The payment provider is seen through its answers: the intent it
    creates for a request, and the event its signature check yields. */
module Payment {
  import opened Wrappers
  import opened Json
  import opened Records
  import opened Storefront

  // ---------------------------------------------------------------------
  // Responses

  datatype PaymentBody =
    | ClientSecret(clientSecret: string, paymentIntentId: string)
    | Error(error: string)
    | Received(mode: Option<string>)
    | WebhookError(text: string)

  datatype PaymentReply = PaymentReply(status: nat, body: PaymentBody)

  const InvalidAmount := "Invalid amount"
  const DefaultCurrency := "jpy"
  const DevelopmentMode := "development"
  const WebhookErrorPrefix := "Webhook Error: "

  // ---------------------------------------------------------------------
  // The amount guard

  /** `!amount || amount <= 0`. The comparison converts the amount as
      `Number(amount)` does, so a value that converts to NaN is neither falsy
      nor at most zero, and passes. */
  predicate AmountRejected(amount: Value) {
    !Truthy(amount) || (JsNumber(amount).Some? && JsNumber(amount).value <= 0)
  }

  /** What is asked of the provider: the amount as given, the currency and the metadata. */
  datatype IntentRequest = IntentRequest(amount: Value, currency: Value, metadata: Value)

  /** What the provider returns for a created intent. */
  datatype CreatedIntent = CreatedIntent(id: string, clientSecret: string)

  /** The request built from the body: `currency = 'jpy'` applies only to an
      undefined currency, `metadata || {}` to any falsy metadata; `None` when
      the amount guard rejects and nothing is asked. */
  function IntentRequestOf(body: Value): (r: Option<IntentRequest>)
    ensures r.None? <==> AmountRejected(Get(body, "amount"))
    ensures r.Some? ==> r.value.amount == Get(body, "amount")
    ensures r.Some? && Get(body, "currency").Undefined? ==> r.value.currency == Str(DefaultCurrency)
    ensures r.Some? && !Get(body, "currency").Undefined? ==> r.value.currency == Get(body, "currency")
    ensures r.Some? && !Truthy(Get(body, "metadata")) ==> r.value.metadata == Obj(map[])
    ensures r.Some? && Truthy(Get(body, "metadata")) ==> r.value.metadata == Get(body, "metadata")
  {
    var amount := Get(body, "amount");
    if AmountRejected(amount) then None
    else
      var currency := if Get(body, "currency").Undefined? then Str(DefaultCurrency) else Get(body, "currency");
      Some(IntentRequest(amount, currency, Or(Get(body, "metadata"), Obj(map[]))))
  }

  /** Missing and blank amounts are rejected. */
  lemma MissingAmountRejected()
    ensures AmountRejected(Undefined) && AmountRejected(Null) && AmountRejected(Str(""))
  {
  }

  /** A number is rejected exactly when it is zero or negative. */
  lemma NumericAmountGuard(n: int)
    ensures AmountRejected(Num(n)) <==> n <= 0
  {
  }

  /** The numeral of a number is rejected exactly when the number is. */
  lemma NumeralAmountGuard(n: int)
    ensures AmountRejected(Str(IntToString(n))) <==> n <= 0
  {
    NumberOfString(n);
    var t := IntToString(n);
    assert t != "";
    assert JsNumber(Str(t)) == StringToNumber(t);
  }

  /** A non-blank string that is not a numeral compares as NaN and gets past
      the guard. */
  lemma NonNumericAmountPasses(s: string)
    requires s != [] && !IsSpace(s[0]) && !IsSpace(s[|s| - 1])
    requires !IsDigit(s[0]) && s[0] != '-' && s[0] != '+'
    ensures !AmountRejected(Str(s))
  {
    NumberOfNonNumeral(s);
  }

  // ---------------------------------------------------------------------
  // Webhook events

  const Succeeded := "payment_intent.succeeded"
  const PaymentFailedEvent := "payment_intent.payment_failed"
  const ChargeRefunded := "charge.refunded"

  /** The event's object is the intent (or the charge, for a refund): its id and metadata. */
  datatype Event = Event(kind: string, objectId: string, metadata: Value)

  /** The order change an event asks for. */
  datatype Transition = MarkPaid(intentId: string) | MarkFailed | NoChange

  /** The order number the event addresses: `metadata && metadata.orderId`,
      cast to the schema's String for the query. */
  function TargetOf(e: Event): (r: Option<string>)
    ensures r.Some? ==> Truthy(e.metadata) && Truthy(Get(e.metadata, "orderId"))
    ensures Truthy(e.metadata) && Get(e.metadata, "orderId").Str? && Get(e.metadata, "orderId").s != "" ==>
      r == Some(Get(e.metadata, "orderId").s)
  {
    if Truthy(e.metadata) && Truthy(Get(e.metadata, "orderId")) then CastString(Get(e.metadata, "orderId"))
    else None
  }

  /** The event-type switch. */
  function TransitionOf(e: Event): (t: Transition)
    ensures t.MarkPaid? <==> e.kind == Succeeded && TargetOf(e).Some?
    ensures t.MarkPaid? ==> t.intentId == e.objectId
    ensures t.MarkFailed? <==> e.kind == PaymentFailedEvent && TargetOf(e).Some?
  {
    if TargetOf(e).None? then NoChange
    else if e.kind == Succeeded then MarkPaid(e.objectId)
    else if e.kind == PaymentFailedEvent then MarkFailed
    else NoChange
  }

  /** The update document of `findOneAndUpdate`, applied to one order. */
  function Applied(o: Order, t: Transition): (q: Order)
    ensures q.oid == o.oid && q.orderId == o.orderId && q.userId == o.userId && q.customer == o.customer
    ensures q.items == o.items && q.totalAmount == o.totalAmount && q.paymentMethod == o.paymentMethod
    ensures q.shippingMethod == o.shippingMethod && q.createdAt == o.createdAt
    ensures t.MarkPaid? ==> q.status == Processing && q.paymentStatus == Paid && q.paymentIntentId == Some(t.intentId)
    ensures t.MarkFailed? ==> q.status == Cancelled && q.paymentStatus == PaymentFailed && q.paymentIntentId == o.paymentIntentId
    ensures t.NoChange? ==> q == o
  {
    match t
    case MarkPaid(id) => o.(status := Processing, paymentIntentId := Some(id), paymentStatus := Paid)
    case MarkFailed => o.(status := Cancelled, paymentStatus := PaymentFailed)
    case NoChange => o
  }

  /** The orders after an event: the first order carrying the addressed
      order number gets the update; every other order is left as it was. */
  function UpdatedByEvent(orders: seq<Order>, e: Event): (r: seq<Order>)
    ensures |r| == |orders|
    ensures forall i :: 0 <= i < |r| && TargetOf(e) != Some(orders[i].orderId) ==> r[i] == orders[i]
    ensures TransitionOf(e).NoChange? ==> r == orders
    ensures UniqueOrderIds(orders) ==> UniqueOrderIds(r)
    ensures UniqueOrderOids(orders) ==> UniqueOrderOids(r)
    ensures (forall i :: 0 <= i < |orders| ==> ValidOrder(orders[i])) ==> forall i :: 0 <= i < |r| ==> ValidOrder(r[i])
  {
    var t := TransitionOf(e);
    if t.NoChange? then orders
    else match OrderWithOrderId(orders, TargetOf(e).value)
      case None => orders
      case Some(k) => orders[k := Applied(orders[k], t)]
  }

  /** A succeeded event for an existing order marks exactly that order paid. */
  lemma SucceededMarksPaid(orders: seq<Order>, e: Event, k: nat)
    requires UniqueOrderIds(orders) && k < |orders|
    requires e.kind == Succeeded && TargetOf(e) == Some(orders[k].orderId)
    ensures UpdatedByEvent(orders, e) == orders[k := orders[k].(status := Processing, paymentIntentId := Some(e.objectId), paymentStatus := Paid)]
  {
    OrderNumberLookup(orders, k);
  }

  /** A failed event for an existing order marks exactly that order cancelled and failed. */
  lemma FailedMarksCancelled(orders: seq<Order>, e: Event, k: nat)
    requires UniqueOrderIds(orders) && k < |orders|
    requires e.kind == PaymentFailedEvent && TargetOf(e) == Some(orders[k].orderId)
    ensures UpdatedByEvent(orders, e) == orders[k := orders[k].(status := Cancelled, paymentStatus := PaymentFailed)]
  {
    OrderNumberLookup(orders, k);
  }

  /** Refunds, other event types, events without an order number and
      events for an unknown order number change nothing. */
  lemma OtherEventsChangeNothing(orders: seq<Order>, e: Event)
    requires (e.kind != Succeeded && e.kind != PaymentFailedEvent) || TargetOf(e).None?
             || (forall i :: 0 <= i < |orders| ==> orders[i].orderId != TargetOf(e).value)
    ensures UpdatedByEvent(orders, e) == orders
  {
    if TargetOf(e).Some? && OrderWithOrderId(orders, TargetOf(e).value).Some? {
      var k := OrderWithOrderId(orders, TargetOf(e).value).value;
      assert orders[k].orderId == TargetOf(e).value;
    }
  }

  /** A payment outcome is final under a repeated delivery of the same event. */
  lemma RedeliveryIsHarmless(orders: seq<Order>, e: Event)
    ensures UpdatedByEvent(UpdatedByEvent(orders, e), e) == UpdatedByEvent(orders, e)
  {
    var t := TransitionOf(e);
    if !t.NoChange? {
      var id := TargetOf(e).value;
      var once := UpdatedByEvent(orders, e);
      match OrderWithOrderId(orders, id)
      case None =>
      case Some(k) =>
        var j := OrderWithOrderId(once, id);
        assert once[k].orderId == id;
        assert j.Some?;
        assert forall i :: 0 <= i < j.value ==> once[i].orderId == orders[i].orderId;
        assert j.value == k;
    }
  }

  // ---------------------------------------------------------------------
  // The service

  /** The provider's client, made from the secret key it was first asked with. */
  datatype StripeClient = StripeClient(secretKey: Option<string>)

  class PaymentService {
    /** `STRIPE_SECRET_KEY` and `STRIPE_WEBHOOK_SECRET` from the environment. */
    const secretKey: Option<string>
    const webhookSecret: Option<string>
    /** The module-level `stripe`, made on first use. */
    var stripe: Option<StripeClient>

    constructor(secretKey: Option<string>, webhookSecret: Option<string>)
      ensures this.secretKey == secretKey && this.webhookSecret == webhookSecret && stripe.None?
    {
      this.secretKey := secretKey;
      this.webhookSecret := webhookSecret;
      stripe := None;
    }

    /** `getStripe`: the client is made once and then reused. */
    method GetStripe() returns (c: StripeClient)
      modifies this
      ensures old(stripe).Some? ==> c == old(stripe).value
      ensures old(stripe).None? ==> c == StripeClient(secretKey)
      ensures stripe == Some(c)
    {
      if stripe.None? {
        stripe := Some(StripeClient(secretKey));
      }
      c := stripe.value;
    }

    /** POST /create-payment-intent. `created` is the provider's answer to
        the request in `asked`; a rejected amount asks nothing and does not
        touch the client. */
    method CreatePaymentIntent(body: Value, created: Result<CreatedIntent, string>)
      returns (r: PaymentReply, asked: Option<IntentRequest>)
      modifies this
      ensures asked == IntentRequestOf(body)
      ensures asked.None? ==> r == PaymentReply(400, Error(InvalidAmount)) && stripe == old(stripe)
      ensures asked.Some? ==> stripe == (if old(stripe).Some? then old(stripe) else Some(StripeClient(secretKey)))
      ensures asked.Some? ==> match created
        case Success(i) => r == PaymentReply(200, ClientSecret(i.clientSecret, i.id))
        case Failure(m) => r == PaymentReply(500, Error(m))
    {
      asked := IntentRequestOf(body);
      if asked.None? {
        return PaymentReply(400, Error(InvalidAmount)), asked;
      }
      var _ := GetStripe();
      match created
      case Success(i) =>
        r := PaymentReply(200, ClientSecret(i.clientSecret, i.id));
      case Failure(m) =>
        r := PaymentReply(500, Error(m));
    }

    /** POST /webhook. `verified` is what the signature check makes of the
        raw body, the signature header and the secret: the event, or the
        check's error message. */
    method Webhook(store: Store, verified: Result<Event, string>) returns (r: PaymentReply)
      requires store.Valid()
      modifies this, store
      ensures store.Valid() && store.products == old(store.products)
      ensures webhookSecret.None? || webhookSecret == Some("") ==>
        r == PaymentReply(200, Received(Some(DevelopmentMode))) && store.orders == old(store.orders) && stripe == old(stripe)
      ensures webhookSecret.Some? && webhookSecret != Some("") ==>
        stripe == (if old(stripe).Some? then old(stripe) else Some(StripeClient(secretKey)))
      ensures webhookSecret.Some? && webhookSecret != Some("") ==> match verified
        case Failure(m) => r == PaymentReply(400, WebhookError(WebhookErrorPrefix + m)) && store.orders == old(store.orders)
        case Success(e) => r == PaymentReply(200, Received(None)) && store.orders == UpdatedByEvent(old(store.orders), e)
    {
      if webhookSecret.None? || webhookSecret == Some("") {
        return PaymentReply(200, Received(Some(DevelopmentMode)));
      }
      var _ := GetStripe();
      match verified
      case Failure(m) =>
        r := PaymentReply(400, WebhookError(WebhookErrorPrefix + m));
      case Success(e) =>
        store.orders := UpdatedByEvent(store.orders, e);
        r := PaymentReply(200, Received(None));
    }
  }
}
