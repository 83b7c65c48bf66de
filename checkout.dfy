/** The checkout page of the frontend (components/Checkout.jsx): the delivery
    details check, the price summary shown before paying, and the item list
    sent to the order API.  Amounts are in major currency units, as the page
    computes them, and are exact reals here. */
module Checkout {
  import opened Common

  /** An option chosen for a cart item; its price may be absent. */
  datatype ItemOption = ItemOption(name: string, priceCents: Option<int>)

  /** A cart item as the checkout page receives it. */
  datatype CheckoutItem = CheckoutItem(
    product: ProductId,
    quantity: int,
    priceCents: int,
    itemNote: Option<string>,
    options: Option<seq<ItemOption>>)

  /** The delivery form fields that the page checks. */
  datatype DeliveryInfo = DeliveryInfo(
    kind: string,
    contactName: string,
    contactPhone: string,
    trainNo: string,
    coach: string,
    seat: string,
    stationName: string,
    address: string)

  datatype Verdict = Accepted | Rejected(message: string)

  const CONTACT_MESSAGE := "Contact name and phone are required"
  const TRAIN_MESSAGE := "Train number, coach, and seat are required for train delivery"
  const STATION_MESSAGE := "Station name is required for station pickup"
  const HOME_MESSAGE := "Address is required for home delivery"

  // ---------------------------------------------------------------------
  // Delivery details

  /** The form fields, named so that the required set of each delivery type
      can be written down on its own. */
  datatype Field = ContactName | ContactPhone | TrainNo | Coach | Seat | StationName | Address

  function FieldValue(info: DeliveryInfo, f: Field): string
  {
    match f
    case ContactName => info.contactName
    case ContactPhone => info.contactPhone
    case TrainNo => info.trainNo
    case Coach => info.coach
    case Seat => info.seat
    case StationName => info.stationName
    case Address => info.address
  }

  /** Which fields a delivery type needs filled in. */
  function RequiredFields(kind: string): set<Field>
  {
    {ContactName, ContactPhone} +
    (if kind == "train" then {TrainNo, Coach, Seat}
     else if kind == "station" then {StationName}
     else if kind == "home" then {Address}
     else {})
  }

  /** `validateDeliveryInfo`: the contact details first, then the fields of
      the chosen delivery type.  Accepted exactly when every required field
      is non-empty; otherwise the message of the first group that failed. */
  function ValidateDeliveryInfo(info: DeliveryInfo): (r: Verdict)
    ensures r.Accepted? <==> forall f :: f in RequiredFields(info.kind) ==> FieldValue(info, f) != ""
    ensures info.contactName == "" || info.contactPhone == "" ==> r == Rejected(CONTACT_MESSAGE)
    ensures r.Rejected? && info.contactName != "" && info.contactPhone != "" ==>
      r.message == (if info.kind == "train" then TRAIN_MESSAGE
                    else if info.kind == "station" then STATION_MESSAGE
                    else HOME_MESSAGE)
  {
    if info.contactName == "" || info.contactPhone == "" then
      assert FieldValue(info, ContactName) == "" || FieldValue(info, ContactPhone) == "";
      Rejected(CONTACT_MESSAGE)
    else if info.kind == "train" then
      if info.trainNo == "" || info.coach == "" || info.seat == "" then
        assert FieldValue(info, TrainNo) == "" || FieldValue(info, Coach) == "" || FieldValue(info, Seat) == "";
        Rejected(TRAIN_MESSAGE)
      else Accepted
    else if info.kind == "station" then
      if info.stationName == "" then
        assert FieldValue(info, StationName) == "";
        Rejected(STATION_MESSAGE)
      else Accepted
    else if info.kind == "home" then
      if info.address == "" then
        assert FieldValue(info, Address) == "";
        Rejected(HOME_MESSAGE)
      else Accepted
    else Accepted
  }

  /** Any delivery type outside train, station and home passes once the
      contact details are there. */
  lemma OtherTypesNeedOnlyContact(info: DeliveryInfo)
    requires info.kind !in {"train", "station", "home"}
    ensures ValidateDeliveryInfo(info).Accepted? <==> info.contactName != "" && info.contactPhone != ""
  {
  }

  // ---------------------------------------------------------------------
  // Price summary

  /** The delivery fee by type: 30 for train, 40 for home, 20 otherwise. */
  function DeliveryFee(kind: string): (fee: real)
    ensures fee == 30.0 <==> kind == "train"
    ensures fee == 40.0 <==> kind == "home"
    ensures fee == 20.0 <==> kind != "train" && kind != "home"
  {
    if kind == "train" then 30.0 else if kind == "home" then 40.0 else 20.0
  }

  /** The coupon `FIRST10` grants the smaller of 10% of the subtotal and 10;
      any other code grants nothing. */
  function Discount(subtotal: real, couponCode: string): (d: real)
    ensures couponCode != "FIRST10" ==> d == 0.0
    ensures couponCode == "FIRST10" ==>
      d <= 10.0 && d <= subtotal / 10.0 && (d == 10.0 || d == subtotal / 10.0)
  {
    if couponCode == "FIRST10" then
      if subtotal * 0.1 <= 10.0 then subtotal * 0.1 else 10.0
    else 0.0
  }

  datatype Totals = Totals(subtotal: real, tax: real, delivery: real, discount: real, final: real)

  /** The summary computed from a subtotal: 5% tax on the discounted amount,
      then the delivery fee on top. */
  function ComputeTotals(subtotal: real, couponCode: string, kind: string): (t: Totals)
    ensures t.subtotal == subtotal && t.delivery == DeliveryFee(kind)
    ensures t.discount == Discount(subtotal, couponCode)
    ensures t.tax == (t.subtotal - t.discount) / 20.0
    ensures t.final == (t.subtotal - t.discount) * 21.0 / 20.0 + t.delivery
  {
    var deliveryFee := DeliveryFee(kind);
    var discount := Discount(subtotal, couponCode);
    var tax := (subtotal - discount) * 0.05;
    Totals(subtotal, tax, deliveryFee, discount, subtotal - discount + tax + deliveryFee)
  }

  /** With a non-negative subtotal the coupon never raises the final amount,
      and the final amount never falls below the delivery fee. */
  lemma CouponBounds(subtotal: real, couponCode: string, kind: string)
    requires subtotal >= 0.0
    ensures ComputeTotals(subtotal, "FIRST10", kind).final <= ComputeTotals(subtotal, couponCode, kind).final
    ensures ComputeTotals(subtotal, couponCode, kind).final >= DeliveryFee(kind)
  {
  }

  /** An option price counts when it is there and non-zero. */
  function OptionAmount(o: ItemOption): real
  {
    if o.priceCents.Some? && o.priceCents.value != 0 then o.priceCents.value as real / 100.0 else 0.0
  }

  /** The sum of the option prices of one item, in major units. */
  function OptionsAmount(options: seq<ItemOption>): real
  {
    if options == [] then 0.0
    else OptionsAmount(options[..|options| - 1]) + OptionAmount(options[|options| - 1])
  }

  /** One item's share of the subtotal: its price times its quantity, plus
      each of its option prices once (not multiplied by the quantity). */
  function LineAmount(item: CheckoutItem): real
  {
    (item.priceCents as real / 100.0) * item.quantity as real
      + (if item.options.Some? then OptionsAmount(item.options.value) else 0.0)
  }

  /** The subtotal of a list of items. */
  function Subtotal(items: seq<CheckoutItem>): real
  {
    if items == [] then 0.0 else Subtotal(items[..|items| - 1]) + LineAmount(items[|items| - 1])
  }

  /** An item whose price, quantity and option prices are all non-negative. */
  predicate NonNegativeItem(item: CheckoutItem)
  {
    && item.priceCents >= 0
    && item.quantity >= 0
    && (item.options.Some? ==>
          forall j :: 0 <= j < |item.options.value| && item.options.value[j].priceCents.Some? ==>
            item.options.value[j].priceCents.value >= 0)
  }

  lemma {:induction false} OptionsAmountNonNegative(options: seq<ItemOption>)
    requires forall i :: 0 <= i < |options| && options[i].priceCents.Some? ==> options[i].priceCents.value >= 0
    ensures OptionsAmount(options) >= 0.0
  {
    if options != [] {
      OptionsAmountNonNegative(options[..|options| - 1]);
    }
  }

  /** Items with non-negative prices, quantities and option prices give a
      non-negative subtotal. */
  lemma {:induction false} SubtotalNonNegative(items: seq<CheckoutItem>)
    requires forall i :: 0 <= i < |items| ==> NonNegativeItem(items[i])
    ensures Subtotal(items) >= 0.0
  {
    if items != [] {
      var last := items[|items| - 1];
      assert NonNegativeItem(last);
      SubtotalNonNegative(items[..|items| - 1]);
      if last.options.Some? {
        OptionsAmountNonNegative(last.options.value);
      }
      assert (last.priceCents as real / 100.0) * last.quantity as real >= 0.0;
    }
  }

  /** The nested accumulation of `calculateTotals`: for each item its price
      times quantity, then each truthy option price. */
  method CalculateSubtotal(items: seq<CheckoutItem>) returns (subtotal: real)
    ensures subtotal == Subtotal(items)
  {
    subtotal := 0.0;
    var i := 0;
    while i < |items|
      invariant 0 <= i <= |items|
      invariant subtotal == Subtotal(items[..i])
    {
      var item := items[i];
      ghost var before := subtotal;
      subtotal := subtotal + (item.priceCents as real / 100.0) * item.quantity as real;
      if item.options.Some? {
        var options := item.options.value;
        var j := 0;
        while j < |options|
          invariant 0 <= j <= |options|
          invariant subtotal == before + (item.priceCents as real / 100.0) * item.quantity as real + OptionsAmount(options[..j])
        {
          if options[j].priceCents.Some? && options[j].priceCents.value != 0 {
            subtotal := subtotal + options[j].priceCents.value as real / 100.0;
          }
          assert options[..j + 1][..j] == options[..j];
          j := j + 1;
        }
        assert options[..j] == options;
      }
      assert items[..i + 1][..i] == items[..i];
      i := i + 1;
    }
    assert items[..i] == items;
  }

  /** `calculateTotals`: the summary for the current items, coupon and
      delivery type. */
  method CalculateTotals(items: seq<CheckoutItem>, couponCode: string, kind: string) returns (t: Totals)
    ensures t == ComputeTotals(Subtotal(items), couponCode, kind)
  {
    var subtotal := CalculateSubtotal(items);
    var deliveryFee := DeliveryFee(kind);
    var discount := Discount(subtotal, couponCode);
    var tax := (subtotal - discount) * 0.05;
    t := Totals(subtotal, tax, deliveryFee, discount, subtotal - discount + tax + deliveryFee);
  }

  // ---------------------------------------------------------------------
  // Items sent to the order API

  /** One entry of the `items` list posted with the order. */
  datatype OrderItem = OrderItem(productId: ProductId, qty: int, itemNote: string, options: seq<ItemOption>)

  /** The entry for one cart item: note defaults to '' and options to []. */
  function ToOrderItem(item: CheckoutItem): (o: OrderItem)
    ensures o.productId == item.product && o.qty == item.quantity
    ensures o.itemNote == (if item.itemNote.Some? then item.itemNote.value else "")
    ensures o.options == (if item.options.Some? then item.options.value else [])
  {
    OrderItem(
      item.product,
      item.quantity,
      if item.itemNote.Some? && item.itemNote.value != "" then item.itemNote.value else "",
      if item.options.Some? then item.options.value else [])
  }

  /** The `orderItems` mapping in `handlePayment`: one entry per cart item,
      in the same order. */
  function ToOrderItems(items: seq<CheckoutItem>): (r: seq<OrderItem>)
    ensures |r| == |items|
    ensures forall i :: 0 <= i < |items| ==> r[i] == ToOrderItem(items[i])
  {
    seq(|items|, i requires 0 <= i < |items| => ToOrderItem(items[i]))
  }
}
