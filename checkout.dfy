/**
 * Checkout: the guards of the submit handler, the order request built from the
 * cart, and how the cart is reconciled with the remote service's answer.
 */
module Checkout {
  import opened Wrappers
  import opened Backend
  import opened Cart
  import opened Sums

  /** The shipping form. Name, email and address are required; the rest is optional. */
  datatype ShippingForm = ShippingForm(
    name: string,
    email: string,
    address: string,
    city: string,
    postalCode: string,
    country: string)

  /** Why a submission was stopped before any order was requested. */
  datatype CheckoutError = NotAuthenticated | EmptyCart | MissingRequiredFields

  /** What `createOrder` is sent. */
  datatype OrderRequest = OrderRequest(items: seq<OrderItem>, total: int)

  /** What the remote `createOrder` answers: a new order id, or a failure with a message. */
  datatype GatewayResponse = Created(orderId: OrderId) | Rejected(message: string)

  /** How a submission ends. */
  datatype SubmitOutcome =
    | Blocked(reason: CheckoutError)
    | Placed(orderId: OrderId)
    | OrderFailed(message: string)

  predicate HasRequiredFields(form: ShippingForm) {
    form.name != "" && form.email != "" && form.address != ""
  }

  function ToOrderItem(line: CartItem): OrderItem {
    OrderItem(line.product.id, line.quantity, line.size, line.color)
  }

  /** One order item per cart line, in cart order, copying id, quantity, size and color. */
  function ToOrderItems(lines: seq<CartItem>): (r: seq<OrderItem>)
    ensures |r| == |lines|
    ensures forall i :: 0 <= i < |lines| ==>
              r[i].productId == lines[i].product.id && r[i].quantity == lines[i].quantity
              && r[i].size == lines[i].size && r[i].color == lines[i].color
    decreases |lines|
  {
    if |lines| == 0 then [] else [ToOrderItem(lines[0])] + ToOrderItems(lines[1..])
  }

  /** The order's lines carry the cart's keys, so a cart with unique keys gives an order with unique keys. */
  lemma OrderKeysUnique(lines: seq<CartItem>)
    requires UniqueKeys(lines)
    ensures var r := ToOrderItems(lines);
            forall i, j :: 0 <= i < j < |r| ==>
              (r[i].productId, r[i].size, r[i].color) != (r[j].productId, r[j].size, r[j].color)
  {
    var r := ToOrderItems(lines);
    forall i, j | 0 <= i < j < |r|
      ensures (r[i].productId, r[i].size, r[i].color) != (r[j].productId, r[j].size, r[j].color)
    {
      assert KeyOf(lines[i]) != KeyOf(lines[j]);
    }
  }

  /**
   * The request the handler would send, or the first guard that fails:
   * authentication, then a non-empty cart, then the required fields.
   */
  function ComposeOrder(authenticated: bool, lines: seq<CartItem>, form: ShippingForm): (r: Result<OrderRequest, CheckoutError>)
    ensures !authenticated ==> r == Failure(NotAuthenticated)
    ensures authenticated && |lines| == 0 ==> r == Failure(EmptyCart)
    ensures authenticated && |lines| > 0 && !HasRequiredFields(form) ==> r == Failure(MissingRequiredFields)
    ensures r.Success? <==> authenticated && |lines| > 0 && HasRequiredFields(form)
    ensures r.Success? ==> r.value.items == ToOrderItems(lines) && |r.value.items| == |lines|
    ensures r.Success? ==> r.value.total == Sum(lines, LineTotal)
  {
    if !authenticated then Failure(NotAuthenticated)
    else if |lines| == 0 then Failure(EmptyCart)
    else if !HasRequiredFields(form) then Failure(MissingRequiredFields)
    else Success(OrderRequest(ToOrderItems(lines), Total(lines)))
  }

  /** City, postal code and country never decide the outcome of the guards. */
  lemma OptionalFieldsIgnored(authenticated: bool, lines: seq<CartItem>, form: ShippingForm,
                              city: string, postalCode: string, country: string)
    ensures ComposeOrder(authenticated, lines, form)
         == ComposeOrder(authenticated, lines, form.(city := city, postalCode := postalCode, country := country))
  {
  }

  /**
   * The submit handler. Returns how it ended and the one request sent to
   * `createOrder`, if any; the cart is cleared exactly when an order was placed.
   */
  method HandleSubmit(cart: CartStore, authenticated: bool, form: ShippingForm,
                      createOrder: OrderRequest -> GatewayResponse)
    returns (outcome: SubmitOutcome, sent: Option<OrderRequest>)
    modifies cart
    ensures outcome.Blocked? <==> ComposeOrder(authenticated, old(cart.items), form).Failure?
    ensures outcome.Blocked? ==> outcome.reason == ComposeOrder(authenticated, old(cart.items), form).error
    ensures sent.Some? <==> ComposeOrder(authenticated, old(cart.items), form).Success?
    ensures sent.Some? ==> sent.value == ComposeOrder(authenticated, old(cart.items), form).value
    ensures sent.Some? ==> sent.value.items == ToOrderItems(old(cart.items))
                           && sent.value.total == Sum(old(cart.items), LineTotal)
    ensures outcome.Placed? <==> sent.Some? && createOrder(sent.value).Created?
    ensures outcome.Placed? ==> outcome.orderId == createOrder(sent.value).orderId
    ensures outcome.OrderFailed? ==> sent.Some? && outcome.message == createOrder(sent.value).message
    ensures outcome.Placed? ==> cart.items == []
    ensures !outcome.Placed? ==> cart.items == old(cart.items)
  {
    var total := cart.GetTotal();
    if !authenticated {
      return Blocked(NotAuthenticated), None;
    }
    if |cart.items| == 0 {
      return Blocked(EmptyCart), None;
    }
    if form.name == "" || form.email == "" || form.address == "" {
      return Blocked(MissingRequiredFields), None;
    }
    var orderItems := ToOrderItems(cart.items);
    var request := OrderRequest(orderItems, total);
    sent := Some(request);
    match createOrder(request) {
      case Created(orderId) =>
        cart.ClearCart();
        outcome := Placed(orderId);
      case Rejected(message) =>
        outcome := OrderFailed(message);
    }
  }

  /** Each summary row shows price × quantity for its line. */
  function SummaryAmounts(lines: seq<CartItem>): (r: seq<int>)
    ensures |r| == |lines|
    ensures forall i :: 0 <= i < |lines| ==> r[i] == lines[i].product.price * lines[i].quantity
    decreases |lines|
  {
    if |lines| == 0 then [] else [LineTotal(lines[0])] + SummaryAmounts(lines[1..])
  }

  /** The summary rows add up to the total shown below them and sent with the order. */
  lemma {:induction false} SummaryAddsUpToTotal(lines: seq<CartItem>)
    ensures SumOf(SummaryAmounts(lines)) == Total(lines)
    decreases |lines|
  {
    if |lines| > 0 {
      SummaryAddsUpToTotal(lines[1..]);
      assert SummaryAmounts(lines)[1..] == SummaryAmounts(lines[1..]);
    }
  }

  /**
   * The worked case, run through the store and the handler: a fresh cart gets one
   * line priced 2999 with quantity 2, and submitting sends a total of 5998.
   * On success the cart is left empty; on failure it still holds that line.
   */
  method OneLineCheckout(product: Product, form: ShippingForm, createOrder: OrderRequest -> GatewayResponse)
    returns (outcome: SubmitOutcome, sent: Option<OrderRequest>, remaining: seq<CartItem>)
    requires product.price == 2999 && HasRequiredFields(form)
    ensures sent == Some(OrderRequest([OrderItem(product.id, 2, None, None)], 5998))
    ensures outcome.Placed? <==> createOrder(sent.value).Created?
    ensures outcome.Placed? ==> remaining == []
    ensures !outcome.Placed? ==> remaining == [CartItem(product, 2, None, None)] && Total(remaining) == 5998
  {
    var cart := new CartStore();
    cart.AddItem(product, 2, None, None);
    var line := CartItem(product, 2, None, None);
    assert cart.items == [line];
    assert [line][1..] == [];
    assert Sum([line], LineTotal) == 5998;
    assert ToOrderItems([line]) == [OrderItem(product.id, 2, None, None)];
    outcome, sent := HandleSubmit(cart, true, form, createOrder);
    remaining := cart.items;
  }
}
