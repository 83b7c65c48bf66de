/** Payments (controllers/paymentController.js): the Stripe webhook that
    moves orders to `paid` or `cancelled`, the creation of a payment intent
    for an order, and the line items of a hosted checkout session.  Stripe
    itself is an oracle: its answers are parameters. */
module PaymentController {
  import opened Common

  const PAID := "paid"
  const CANCELLED := "cancelled"
  const PAYMENT_FAILED := "payment_failed"

  const INTENT_SUCCEEDED := "payment_intent.succeeded"
  const INTENT_FAILED := "payment_intent.payment_failed"
  const SESSION_COMPLETED := "checkout.session.completed"

  /** An order line as stored on the order: the price is frozen. */
  datatype OrderLine = OrderLine(product: ProductId, qty: int, priceCents: int)

  /** The order fields this controller reads or writes.  `paidAt` holds the
      clock reading passed in by the caller. */
  datatype Order = Order(
    id: OrderId,
    user: UserId,
    items: seq<OrderLine>,
    totalCents: int,
    status: string,
    stripePaymentIntentId: Option<string>,
    paidAt: Option<int>,
    cancellationReason: Option<string>)

  /** The `data.object` of a Stripe event, reduced to the fields used. */
  datatype EventObject = EventObject(id: string, lastPaymentErrorMessage: Option<string>, metadataOrderId: Option<string>)

  datatype StripeEvent = StripeEvent(kind: string, obj: EventObject)

  /** The first order (in store order) recorded with the payment intent id;
      this is the document `findOneAndUpdate` picks. */
  function FirstWithIntent(orders: seq<Order>, intentId: string): (r: Option<nat>)
    ensures r.None? <==> forall i :: 0 <= i < |orders| ==> orders[i].stripePaymentIntentId != Some(intentId)
    ensures r.Some? ==> r.value < |orders| && orders[r.value].stripePaymentIntentId == Some(intentId)
    ensures r.Some? ==> forall j :: 0 <= j < r.value ==> orders[j].stripePaymentIntentId != Some(intentId)
  {
    if orders == [] then None
    else if orders[0].stripePaymentIntentId == Some(intentId) then Some(0)
    else
      match FirstWithIntent(orders[1..], intentId)
      case None => None
      case Some(i) => Some(i + 1)
  }

  /** The position of the order with the given id. */
  function IndexOfId(orders: seq<Order>, id: OrderId): (r: Option<nat>)
    ensures r.None? <==> forall i :: 0 <= i < |orders| ==> orders[i].id != id
    ensures r.Some? ==> r.value < |orders| && orders[r.value].id == id
    ensures r.Some? ==> forall j :: 0 <= j < r.value ==> orders[j].id != id
  {
    if orders == [] then None
    else if orders[0].id == id then Some(0)
    else
      match IndexOfId(orders[1..], id)
      case None => None
      case Some(i) => Some(i + 1)
  }

  /** Order ids are unique in the store. */
  ghost predicate UniqueIds(orders: seq<Order>)
  {
    forall i, j :: 0 <= i < j < |orders| ==> orders[i].id != orders[j].id
  }

  /** `(last_payment_error && last_payment_error.message) || 'payment_failed'` */
  function FailureReason(obj: EventObject): (reason: string)
    ensures reason != ""
    ensures Present(obj.lastPaymentErrorMessage) ==> reason == obj.lastPaymentErrorMessage.value
    ensures !Present(obj.lastPaymentErrorMessage) ==> reason == PAYMENT_FAILED
  {
    if Present(obj.lastPaymentErrorMessage) then obj.lastPaymentErrorMessage.value else PAYMENT_FAILED
  }

  function MarkPaid(o: Order, now: int): Order
  {
    o.(status := PAID, paidAt := Some(now))
  }

  function MarkCancelled(o: Order, reason: string): Order
  {
    o.(status := CANCELLED, cancellationReason := Some(reason))
  }

  /** The change one verified event makes to the order store.  No branch
      looks at the order's current status.  Every event keeps the store's
      shape: the same orders in the same places, with the same ids, owners,
      items, totals and intent ids; only status, paidAt and
      cancellationReason may change, and only on one order. */
  function ApplyEvent(orders: seq<Order>, ev: StripeEvent, now: int): (r: seq<Order>)
    ensures |r| == |orders|
    ensures forall i :: 0 <= i < |orders| ==>
      && r[i].id == orders[i].id && r[i].user == orders[i].user && r[i].items == orders[i].items
      && r[i].totalCents == orders[i].totalCents
      && r[i].stripePaymentIntentId == orders[i].stripePaymentIntentId
    ensures forall i, j :: 0 <= i < j < |orders| ==> r[i] == orders[i] || r[j] == orders[j]
  {
    if ev.kind == INTENT_SUCCEEDED then
      match FirstWithIntent(orders, ev.obj.id)
      case None => orders
      case Some(k) => orders[k := MarkPaid(orders[k], now)]
    else if ev.kind == INTENT_FAILED then
      match FirstWithIntent(orders, ev.obj.id)
      case None => orders
      case Some(k) => orders[k := MarkCancelled(orders[k], FailureReason(ev.obj))]
    else if ev.kind == SESSION_COMPLETED && Present(ev.obj.metadataOrderId) then
      match IndexOfId(orders, ev.obj.metadataOrderId.value)
      case None => orders
      case Some(k) => orders[k := MarkPaid(orders[k], now)]
    else orders
  }

  /** `payment_intent.succeeded` marks the first order with that intent id
      paid; the other orders are untouched, and without a match nothing
      changes. */
  lemma SucceededMarksPaid(orders: seq<Order>, obj: EventObject, now: int)
    ensures var r := ApplyEvent(orders, StripeEvent(INTENT_SUCCEEDED, obj), now);
      match FirstWithIntent(orders, obj.id)
      case None => r == orders
      case Some(k) =>
        && r[k].status == PAID && r[k].paidAt == Some(now)
        && forall i :: 0 <= i < |orders| && i != k ==> r[i] == orders[i]
  {
  }

  /** `payment_intent.payment_failed` cancels the matching order with the
      error message, or `payment_failed` when there is none. */
  lemma FailedCancels(orders: seq<Order>, obj: EventObject, now: int)
    ensures var r := ApplyEvent(orders, StripeEvent(INTENT_FAILED, obj), now);
      match FirstWithIntent(orders, obj.id)
      case None => r == orders
      case Some(k) =>
        && r[k].status == CANCELLED
        && r[k].cancellationReason == Some(if Present(obj.lastPaymentErrorMessage)
                                           then obj.lastPaymentErrorMessage.value else PAYMENT_FAILED)
        && forall i :: 0 <= i < |orders| && i != k ==> r[i] == orders[i]
  {
  }

  /** `checkout.session.completed` marks the order named in the metadata paid
      and does nothing when no order id is given. */
  lemma SessionCompletedMarksPaid(orders: seq<Order>, obj: EventObject, now: int)
    requires UniqueIds(orders)
    ensures var r := ApplyEvent(orders, StripeEvent(SESSION_COMPLETED, obj), now);
      && (!Present(obj.metadataOrderId) ==> r == orders)
      && (Present(obj.metadataOrderId) ==>
            forall i :: 0 <= i < |orders| ==>
              r[i] == if orders[i].id == obj.metadataOrderId.value then MarkPaid(orders[i], now) else orders[i])
  {
  }

  /** Event types the handler does not know leave every order as it was. */
  lemma UnhandledChangesNothing(orders: seq<Order>, ev: StripeEvent, now: int)
    requires ev.kind !in {INTENT_SUCCEEDED, INTENT_FAILED, SESSION_COMPLETED}
    ensures ApplyEvent(orders, ev, now) == orders
  {
  }

  /** The updates do not consult the current status: a failure event that
      arrives after a success turns a paid order into a cancelled one. */
  lemma FailureAfterSuccessCancels(orders: seq<Order>, obj: EventObject, t1: int, t2: int, k: nat)
    requires FirstWithIntent(orders, obj.id) == Some(k)
    ensures var paid := ApplyEvent(orders, StripeEvent(INTENT_SUCCEEDED, obj), t1);
      paid[k].status == PAID &&
      ApplyEvent(paid, StripeEvent(INTENT_FAILED, obj), t2)[k].status == CANCELLED
  {
  }

  /** The first match is determined by the intent ids alone. */
  lemma FirstWithIntentIsFirst(orders: seq<Order>, intentId: string, k: nat)
    requires k < |orders| && orders[k].stripePaymentIntentId == Some(intentId)
    requires forall j :: 0 <= j < k ==> orders[j].stripePaymentIntentId != Some(intentId)
    ensures FirstWithIntent(orders, intentId) == Some(k)
  {
  }

  /** Sum of priceCents × qty over order lines. */
  function ItemsCents(items: seq<OrderLine>): int
  {
    if items == [] then 0 else items[0].priceCents * items[0].qty + ItemsCents(items[1..])
  }

  /** What the catalog gives a checkout session line: name and description. */
  datatype ProductInfo = ProductInfo(name: string, description: Option<string>)

  /** A Stripe checkout line item (`price_data` and `quantity`). */
  datatype LineItem = LineItem(name: string, description: string, unitAmount: int, quantity: int)

  predicate AllResolve(items: seq<OrderLine>, catalog: map<ProductId, ProductInfo>)
  {
    forall i :: 0 <= i < |items| ==> items[i].product in catalog
  }

  /** The `line_items` map of `createCheckoutSession`. */
  function LineItems(items: seq<OrderLine>, catalog: map<ProductId, ProductInfo>): (r: seq<LineItem>)
    requires AllResolve(items, catalog)
    ensures |r| == |items|
    ensures forall i :: 0 <= i < |items| ==>
      r[i].unitAmount == items[i].priceCents && r[i].quantity == items[i].qty
      && r[i].name == catalog[items[i].product].name
      && r[i].description == (if Present(catalog[items[i].product].description)
                              then catalog[items[i].product].description.value else "")
  {
    if items == [] then []
    else
      var p := catalog[items[0].product];
      [LineItem(p.name, if Present(p.description) then p.description.value else "", items[0].priceCents, items[0].qty)]
        + LineItems(items[1..], catalog)
  }

  function LineItemsCents(lines: seq<LineItem>): int
  {
    if lines == [] then 0 else lines[0].unitAmount * lines[0].quantity + LineItemsCents(lines[1..])
  }

  /** A checkout session charges the sum of the order's lines at their frozen
      prices. */
  lemma {:induction false} SessionChargesItemSum(items: seq<OrderLine>, catalog: map<ProductId, ProductInfo>)
    requires AllResolve(items, catalog)
    ensures LineItemsCents(LineItems(items, catalog)) == ItemsCents(items)
  {
    if items != [] {
      SessionChargesItemSum(items[1..], catalog);
    }
  }

  /** The request sent to Stripe to create a payment intent. */
  datatype IntentRequest = IntentRequest(amount: int, orderId: OrderId)

  /** The part of a Stripe checkout session the controller stores. */
  datatype Session = Session(id: string, paymentIntent: Option<string>)

  class OrderStore {
    /** The order collection in its natural order. */
    var orders: seq<Order>

    ghost predicate Valid()
      reads this
    {
      UniqueIds(orders)
    }

    constructor (initial: seq<Order>)
      requires UniqueIds(initial)
      ensures Valid() && orders == initial
    {
      orders := initial;
    }

    /** `stripeWebhookHandler`: an event that fails verification is refused
        with 400; a verified one is applied and acknowledged. */
    method HandleWebhook(verified: Option<StripeEvent>, now: int) returns (status: int)
      requires Valid()
      modifies this
      ensures Valid()
      ensures verified.None? ==> status == BAD_REQUEST && orders == old(orders)
      ensures verified.Some? ==> status == OK && orders == ApplyEvent(old(orders), verified.value, now)
    {
      if verified.None? {
        return BAD_REQUEST;
      }
      var ev := verified.value;
      if ev.kind == INTENT_SUCCEEDED {
        var k := FirstWithIntent(orders, ev.obj.id);
        if k.Some? {
          orders := orders[k.value := orders[k.value].(status := PAID, paidAt := Some(now))];
        }
      } else if ev.kind == INTENT_FAILED {
        var k := FirstWithIntent(orders, ev.obj.id);
        if k.Some? {
          orders := orders[k.value := orders[k.value].(status := CANCELLED,
                                                         cancellationReason := Some(FailureReason(ev.obj)))];
        }
      } else if ev.kind == SESSION_COMPLETED {
        var orderId := ev.obj.metadataOrderId;
        if Present(orderId) {
          var k := IndexOfId(orders, orderId.value);
          if k.Some? {
            orders := orders[k.value := orders[k.value].(status := PAID, paidAt := Some(now))];
          }
        }
      }
      status := OK;
    }

    /** `createPaymentIntent`: checks the order id, the order and its owner,
        then asks Stripe for an intent of exactly the order's total and
        records the intent id on the order.  The order is looked up under the
        ObjectId cast of the id (`cast`).  `intentId` is Stripe's answer;
        None stands for a failed call. */
    method CreatePaymentIntent(orderId: Option<OrderId>, caller: Option<UserId>, stripeConfigured: bool,
                               intentId: Option<string>, cast: OrderId -> OrderId)
      returns (status: int, request: Option<IntentRequest>)
      requires Valid()
      modifies this
      ensures Valid()
      ensures !Present(orderId) ==> status == BAD_REQUEST
      ensures Present(orderId) && IndexOfId(old(orders), cast(orderId.value)).None? ==> status == NOT_FOUND
      ensures Present(orderId) && IndexOfId(old(orders), cast(orderId.value)).Some? ==>
        var o := old(orders)[IndexOfId(old(orders), cast(orderId.value)).value];
        if caller.Some? && caller.value != o.user then status == FORBIDDEN
        else if !stripeConfigured then status == SERVER_ERROR
        else request == Some(IntentRequest(o.totalCents, o.id)) &&
             status == (if intentId.Some? then CREATED else SERVER_ERROR)
      ensures request.Some? <==>
        (&& status in {CREATED, SERVER_ERROR} && Present(orderId) && stripeConfigured
         && IndexOfId(old(orders), cast(orderId.value)).Some?
         && (caller.Some? ==> caller.value == old(orders)[IndexOfId(old(orders), cast(orderId.value)).value].user))
      ensures status != CREATED ==> orders == old(orders)
      ensures status == CREATED ==>
        var k := IndexOfId(old(orders), cast(orderId.value)).value;
        orders == old(orders)[k := old(orders)[k].(stripePaymentIntentId := intentId)]
    {
      request := None;
      if !Present(orderId) {
        return BAD_REQUEST, None;
      }
      var k := IndexOfId(orders, cast(orderId.value));
      if k.None? {
        return NOT_FOUND, None;
      }
      var order := orders[k.value];
      if caller.Some? && caller.value != order.user {
        return FORBIDDEN, None;
      }
      var amount := order.totalCents;
      if !stripeConfigured {
        return SERVER_ERROR, None;
      }
      request := Some(IntentRequest(amount, order.id));
      if intentId.None? {
        return SERVER_ERROR, request;
      }
      orders := orders[k.value := order.(stripePaymentIntentId := intentId)];
      status := CREATED;
    }

    /** `createCheckoutSession`: one line item per order line, then the
        session's payment intent (or, failing that, its id) is stored on the
        order.  The order is looked up under the ObjectId cast of the id
        (`cast`).  A line whose product no longer exists makes the map
        throw. */
    method CreateCheckoutSession(orderId: Option<OrderId>, catalog: map<ProductId, ProductInfo>,
                                 stripeConfigured: bool, session: Option<Session>, cast: OrderId -> OrderId)
      returns (status: int, lines: seq<LineItem>)
      requires Valid()
      modifies this
      ensures Valid()
      ensures !Present(orderId) ==> status == BAD_REQUEST
      ensures Present(orderId) && IndexOfId(old(orders), cast(orderId.value)).None? ==> status == NOT_FOUND
      ensures Present(orderId) && IndexOfId(old(orders), cast(orderId.value)).Some? ==>
        var o := old(orders)[IndexOfId(old(orders), cast(orderId.value)).value];
        if !stripeConfigured || !AllResolve(o.items, catalog) then status == SERVER_ERROR
        else lines == LineItems(o.items, catalog) && status == (if session.Some? then CREATED else SERVER_ERROR)
      ensures status != CREATED ==> orders == old(orders)
      ensures status == CREATED ==>
        var k := IndexOfId(old(orders), cast(orderId.value)).value;
        orders == old(orders)[k := old(orders)[k].(stripePaymentIntentId := Some(
          if Present(session.value.paymentIntent) then session.value.paymentIntent.value else session.value.id))]
    {
      lines := [];
      if !Present(orderId) {
        return BAD_REQUEST, [];
      }
      var k := IndexOfId(orders, cast(orderId.value));
      if k.None? {
        return NOT_FOUND, [];
      }
      var order := orders[k.value];
      if !stripeConfigured || !AllResolve(order.items, catalog) {
        return SERVER_ERROR, [];
      }
      lines := LineItems(order.items, catalog);
      if session.None? {
        return SERVER_ERROR, lines;
      }
      var s := session.value;
      var stored := if Present(s.paymentIntent) then s.paymentIntent.value else s.id;
      orders := orders[k.value := order.(stripePaymentIntentId := Some(stored))];
      status := CREATED;
    }
  }
}
