/**
 * The order handlers over an order table and the users' carts. Payment
 * gateways and mail are outside the model: what the handlers send to them is
 * computed, and what they answer comes in as parameters.
 */
module OrderController {
  import opened Wrappers
  import Decimal
  import opened JsValues

  /** The currency of Stripe line items. */
  const Currency: string := "inr"
  /** `currency.toUpperCase()`, the currency of a Razorpay order. */
  const RazorpayCurrency: string := "INR"
  /** The delivery charge, in rupees. */
  const DeliveryCharge: int := 10

  const OrderPlaced: string := "Order Placed"
  const StatusCancelled: string := "Cancelled"
  const StatusDelivered: string := "Delivered"

  datatype PaymentMethod = COD | Stripe | Razorpay

  /** A cart entry as the client sends it; prices are whole rupees. */
  datatype Item = Item(name: string, price: int, quantity: int)

  datatype Order = Order(
    userId: string,
    items: seq<Item>,
    address: map<string, string>,
    amount: int,
    paymentMethod: PaymentMethod,
    payment: bool,
    date: int,
    status: string)

  /** A user's `cartData`: item id to size to quantity. */
  type Cart = map<string, map<string, int>>

  /** A Stripe checkout line: currency, product name, unit amount in paise, quantity. */
  datatype LineItem = LineItem(currency: string, name: string, unitAmount: int, quantity: int)

  /** The options of a Razorpay order: amount in paise, currency, and the order id as receipt. */
  datatype RazorpayOptions = RazorpayOptions(amount: int, currency: string, receipt: string)

  /** The order document every `placeOrder*` handler saves before anything else happens. */
  function NewOrder(userId: string, items: seq<Item>, address: map<string, string>, amount: int,
                    paymentMethod: PaymentMethod, now: int): Order
  {
    Order(userId, items, address, amount, paymentMethod, false, now, OrderPlaced)
  }

  /** `findByIdAndUpdate(userId, { cartData: {} })`: empties the cart of an existing user, else nothing. */
  function ClearCart(carts: map<string, Cart>, userId: string): (r: map<string, Cart>)
    ensures r.Keys == carts.Keys
    ensures userId in r ==> r[userId] == map[]
    ensures forall u :: u in carts && u != userId ==> r[u] == carts[u]
  {
    if userId in carts then carts[userId := map[]] else carts
  }

  /** `findByIdAndUpdate(orderId, { payment: true })`: sets `payment` on an existing order, else nothing. */
  function SetPaid(orders: map<nat, Order>, id: nat): (r: map<nat, Order>)
    ensures r.Keys == orders.Keys
    ensures id in r ==> r[id] == orders[id].(payment := true)
    ensures forall j :: j in orders && j != id ==> r[j] == orders[j]
  {
    if id in orders then orders[id := orders[id].(payment := true)] else orders
  }

  // ---------------------------------------------------------------------------
  // What is sent to the payment gateways.

  /** `items.map(...)`: one Stripe line per item, priced in paise. */
  function ItemLines(items: seq<Item>): (lines: seq<LineItem>)
    ensures |lines| == |items|
    ensures forall i :: 0 <= i < |items| ==>
      lines[i] == LineItem(Currency, items[i].name, items[i].price * 100, items[i].quantity)
    decreases |items|
  {
    if items == [] then []
    else
      var p := items[..|items| - 1];
      var it := items[|items| - 1];
      assert forall i :: 0 <= i < |p| ==> p[i] == items[i];
      ItemLines(p) + [LineItem(Currency, it.name, it.price * 100, it.quantity)]
  }

  /** The line pushed after the items. */
  function DeliveryLine(): LineItem {
    LineItem(Currency, "Delivery Charges", DeliveryCharge * 100, 1)
  }

  /** The cost of the items, in rupees. */
  function Subtotal(items: seq<Item>): int
    decreases |items|
  {
    if items == [] then 0
    else Subtotal(items[..|items| - 1]) + items[|items| - 1].price * items[|items| - 1].quantity
  }

  /** What a Stripe session with these lines charges, in paise. */
  function Charged(lines: seq<LineItem>): int
    decreases |lines|
  {
    if lines == [] then 0
    else Charged(lines[..|lines| - 1]) + lines[|lines| - 1].unitAmount * lines[|lines| - 1].quantity
  }

  lemma {:induction false} ChargedItems(items: seq<Item>)
    ensures Charged(ItemLines(items)) == 100 * Subtotal(items)
    decreases |items|
  {
    if items != [] {
      var p := items[..|items| - 1];
      ChargedItems(p);
      var lines := ItemLines(items);
      assert lines[..|lines| - 1] == ItemLines(p);
    }
  }

  /**
   * The Stripe checkout charges, in paise, the items' subtotal plus the
   * delivery charge; the `amount` of the request plays no part in it.
   */
  lemma StripeCharge(items: seq<Item>)
    ensures Charged(ItemLines(items) + [DeliveryLine()]) == 100 * (Subtotal(items) + DeliveryCharge)
  {
    var lines := ItemLines(items) + [DeliveryLine()];
    assert lines[..|lines| - 1] == ItemLines(items);
    ChargedItems(items);
  }

  /** `newOrder._id.toString()`, with order ids as natural numbers. */
  function Receipt(id: nat): (r: string)
    ensures r != "" && Decimal.AllDigits(r)
    ensures id >= 1 ==> r[0] != '0'
  {
    Decimal.NatToString(id)
  }

  /** The order a Razorpay receipt names; None when it is not an order id. */
  function ReceiptOrder(receipt: string): Option<nat> {
    if receipt != "" && Decimal.AllDigits(receipt) then Some(Decimal.ParseDigits(receipt)) else None
  }

  /** The receipt of a Razorpay order leads `verifyRazorpay` back to the order it was made for. */
  lemma ReceiptRoundTrip(id: nat)
    ensures ReceiptOrder(Receipt(id)) == Some(id)
  {
    Decimal.ParsePrinted(id);
  }

  /** No order that was paid for loses its payment. */
  ghost predicate PaymentKept(before: map<nat, Order>, after: map<nat, Order>) {
    forall id :: id in before && id in after && before[id].payment ==> after[id].payment
  }

  datatype CancelOrderError = OrderNotFound | AlreadyCancelled | AlreadyDelivered | MailFailed

  datatype VerifyError = PaymentFailed | InvalidReceipt

  class OrderStore {
    /** The order table, keyed by order id. */
    var orders: map<nat, Order>
    /** The id the next saved order receives. */
    var nextId: nat
    /** The users' carts, keyed by user id. */
    var carts: map<string, Cart>

    ghost predicate Valid()
      reads this
    {
      forall id :: id in orders ==> id < nextId
    }

    constructor (carts0: map<string, Cart>)
      ensures Valid() && orders == map[] && carts == carts0
    {
      orders := map[];
      nextId := 0;
      carts := carts0;
    }

    /** `new orderModel(orderData).save()`: stores an unpaid order under a fresh id. */
    method Save(o: Order) returns (id: nat)
      requires Valid()
      modifies this
      ensures Valid()
      ensures id !in old(orders) && id == old(nextId)
      ensures orders == old(orders)[id := o] && carts == old(carts)
    {
      id := nextId;
      orders := orders[id := o];
      nextId := nextId + 1;
    }

    /** placeOrder (lines 29-55): a cash-on-delivery order, then the user's cart is emptied. */
    method PlaceOrder(userId: string, items: seq<Item>, amount: int, address: map<string, string>, now: int)
      returns (id: nat)
      requires Valid()
      modifies this
      ensures Valid()
      ensures id !in old(orders)
      ensures orders == old(orders)[id := NewOrder(userId, items, address, amount, COD, now)]
      ensures carts == ClearCart(old(carts), userId)
      ensures PaymentKept(old(orders), orders)
    {
      id := Save(NewOrder(userId, items, address, amount, COD, now));
      carts := ClearCart(carts, userId);
    }

    /**
     * placeOrderStripe (lines 58-112): the order is saved unpaid before the
     * checkout session is requested with `lines`; the cart is kept.
     */
    method PlaceOrderStripe(userId: string, items: seq<Item>, amount: int, address: map<string, string>, now: int)
      returns (id: nat, lines: seq<LineItem>)
      requires Valid()
      modifies this
      ensures Valid()
      ensures id !in old(orders)
      ensures orders == old(orders)[id := NewOrder(userId, items, address, amount, Stripe, now)]
      ensures carts == old(carts)
      ensures |lines| == |items| + 1
      ensures forall i :: 0 <= i < |items| ==>
        lines[i] == LineItem(Currency, items[i].name, items[i].price * 100, items[i].quantity)
      ensures lines[|items|] == LineItem(Currency, "Delivery Charges", 1000, 1)
      ensures Charged(lines) == 100 * (Subtotal(items) + DeliveryCharge)
      ensures PaymentKept(old(orders), orders)
    {
      id := Save(NewOrder(userId, items, address, amount, Stripe, now));
      lines := ItemLines(items);
      lines := lines + [DeliveryLine()];
      StripeCharge(items);
    }

    /**
     * placeOrderRazorpay (lines 135-171): the order is saved unpaid before the
     * gateway order is requested with `options`; the cart is kept, and a
     * gateway failure leaves the order in place.
     */
    method PlaceOrderRazorpay(userId: string, items: seq<Item>, amount: int, address: map<string, string>, now: int)
      returns (id: nat, options: RazorpayOptions)
      requires Valid()
      modifies this
      ensures Valid()
      ensures id !in old(orders)
      ensures orders == old(orders)[id := NewOrder(userId, items, address, amount, Razorpay, now)]
      ensures carts == old(carts)
      ensures options.amount == amount * 100 && options.currency == RazorpayCurrency
      ensures ReceiptOrder(options.receipt) == Some(id)
      ensures PaymentKept(old(orders), orders)
    {
      id := Save(NewOrder(userId, items, address, amount, Razorpay, now));
      options := RazorpayOptions(amount * 100, RazorpayCurrency, Receipt(id));
      ReceiptRoundTrip(id);
    }

    /**
     * verifyStripe (lines 115-132): only the string "true" marks the order
     * paid and empties the cart; any other `success`, the boolean `true`
     * included, deletes the order.
     */
    method VerifyStripe(orderId: nat, success: JsValue, userId: string) returns (paid: bool)
      requires Valid()
      modifies this
      ensures Valid()
      ensures paid <==> success == Str("true")
      ensures paid ==> orders == SetPaid(old(orders), orderId) && carts == ClearCart(old(carts), userId)
      ensures !paid ==> orders == old(orders) - {orderId} && carts == old(carts)
      ensures PaymentKept(old(orders), orders)
    {
      if success == Str("true") {
        orders := SetPaid(orders, orderId);
        carts := ClearCart(carts, userId);
        paid := true;
      } else {
        orders := orders - {orderId};
        paid := false;
      }
    }

    /**
     * verifyRazorpay (lines 173-190), given the status and receipt of the
     * fetched gateway order: 'paid' marks the receipt's order paid and empties
     * the cart; anything else changes nothing.
     */
    method VerifyRazorpay(gatewayStatus: string, receipt: string, userId: string) returns (r: Result<(), VerifyError>)
      requires Valid()
      modifies this
      ensures Valid()
      ensures gatewayStatus != "paid" ==> r == Err(PaymentFailed) && orders == old(orders) && carts == old(carts)
      ensures gatewayStatus == "paid" && ReceiptOrder(receipt).None? ==>
        r == Err(InvalidReceipt) && orders == old(orders) && carts == old(carts)
      ensures gatewayStatus == "paid" && ReceiptOrder(receipt).Some? ==>
        && r == Ok(())
        && orders == SetPaid(old(orders), ReceiptOrder(receipt).value)
        && carts == ClearCart(old(carts), userId)
      ensures PaymentKept(old(orders), orders)
    {
      if gatewayStatus != "paid" {
        return Err(PaymentFailed);
      }
      var id := ReceiptOrder(receipt);
      if id.None? {
        return Err(InvalidReceipt);
      }
      orders := SetPaid(orders, id.value);
      carts := ClearCart(carts, userId);
      r := Ok(());
    }

    /** updateStatus (lines 219-230): any status, on any order, with no guard; nothing else changes. */
    method UpdateStatus(orderId: nat, status: string)
      requires Valid()
      modifies this
      ensures Valid()
      ensures orderId in old(orders) ==> orders == old(orders)[orderId := old(orders)[orderId].(status := status)]
      ensures orderId !in old(orders) ==> orders == old(orders)
      ensures carts == old(carts)
      ensures PaymentKept(old(orders), orders)
    {
      if orderId in orders {
        orders := orders[orderId := orders[orderId].(status := status)];
      }
    }

    /**
     * cancelOrder (lines 233-284); `mailSent` is whether the confirmation
     * email went out. A mail failure is reported as an error after the
     * cancellation has been saved.
     */
    method CancelOrder(orderId: nat, mailSent: bool) returns (r: Result<(), CancelOrderError>)
      requires Valid()
      modifies this
      ensures Valid()
      ensures carts == old(carts)
      ensures orderId !in old(orders) ==> r == Err(OrderNotFound) && orders == old(orders)
      ensures orderId in old(orders) && old(orders)[orderId].status == StatusCancelled ==>
        r == Err(AlreadyCancelled) && orders == old(orders)
      ensures orderId in old(orders) && old(orders)[orderId].status == StatusDelivered ==>
        r == Err(AlreadyDelivered) && orders == old(orders)
      ensures orderId in old(orders) && old(orders)[orderId].status !in {StatusCancelled, StatusDelivered} ==>
        && orders == old(orders)[orderId := old(orders)[orderId].(status := StatusCancelled)]
        && (r == if mailSent then Ok(()) else Err(MailFailed))
      ensures PaymentKept(old(orders), orders)
    {
      if orderId !in orders {
        return Err(OrderNotFound);
      }
      var o := orders[orderId];
      if o.status == StatusCancelled {
        return Err(AlreadyCancelled);
      }
      if o.status == StatusDelivered {
        return Err(AlreadyDelivered);
      }
      orders := orders[orderId := o.(status := StatusCancelled)];
      if !mailSent {
        return Err(MailFailed);
      }
      r := Ok(());
    }
  }
}
