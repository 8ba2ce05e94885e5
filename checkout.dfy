/**
 * The checkout page: the twelve-field completeness check, the coupon input and the applied
 * coupon, the total to charge, and the submit handler that resolves a server-side cart by
 * e-mail (creating one and pushing the lines when the lookup fails) and then creates the order
 * from that cart, falling back to a direct order. Every backend call is an input function from
 * the request to its reply; the handler returns the calls it made, in order.
 */
module Checkout {
  import opened Wrappers
  import Text
  import Seqs
  import Cart

  // ---- the form ----

  datatype Form = Form(firstName: string, lastName: string, email: string, phone: string,
                       address: string, city: string, zipCode: string, country: string,
                       cardNumber: string, cardName: string, expiryDate: string, cvv: string)

  datatype FormField = FirstName | LastName | Email | Phone | Address | City | ZipCode | Country
                     | CardNumber | CardName | ExpiryDate | Cvv

  const EmptyForm := Form("", "", "", "", "", "", "", "", "", "", "", "")

  function FieldValue(f: Form, field: FormField): string {
    match field
    case FirstName => f.firstName
    case LastName => f.lastName
    case Email => f.email
    case Phone => f.phone
    case Address => f.address
    case City => f.city
    case ZipCode => f.zipCode
    case Country => f.country
    case CardNumber => f.cardNumber
    case CardName => f.cardName
    case ExpiryDate => f.expiryDate
    case Cvv => f.cvv
  }

  /** `handleChange`: the form with one field replaced. */
  function WithField(f: Form, field: FormField, value: string): (r: Form)
    ensures FieldValue(r, field) == value
    ensures forall other :: other != field ==> FieldValue(r, other) == FieldValue(f, other)
  {
    match field
    case FirstName => f.(firstName := value)
    case LastName => f.(lastName := value)
    case Email => f.(email := value)
    case Phone => f.(phone := value)
    case Address => f.(address := value)
    case City => f.(city := value)
    case ZipCode => f.(zipCode := value)
    case Country => f.(country := value)
    case CardNumber => f.(cardNumber := value)
    case CardName => f.(cardName := value)
    case ExpiryDate => f.(expiryDate := value)
    case Cvv => f.(cvv := value)
  }

  /** The fields in declaration order. */
  const AllFields: seq<FormField> := [FirstName, LastName, Email, Phone, Address, City, ZipCode,
                                      Country, CardNumber, CardName, ExpiryDate, Cvv]

  function FieldIndex(field: FormField): (i: nat)
    ensures i < |AllFields| && AllFields[i] == field
  {
    match field
    case FirstName => 0
    case LastName => 1
    case Email => 2
    case Phone => 3
    case Address => 4
    case City => 5
    case ZipCode => 6
    case Country => 7
    case CardNumber => 8
    case CardName => 9
    case ExpiryDate => 10
    case Cvv => 11
  }

  /** `Object.entries(formData)`: the twelve values in declaration order. */
  function Fields(f: Form): seq<string> {
    seq(|AllFields|, i requires 0 <= i < |AllFields| => FieldValue(f, AllFields[i]))
  }

  /** A value that is empty after `trim`. */
  predicate Blank(v: string) {
    Text.Trim(v) == ""
  }

  /** The values that are empty after `trim`. */
  function EmptyFields(f: Form): seq<string> {
    Seqs.Filter(Fields(f), Blank)
  }

  /** Some value of `values` is empty after `trim`. */
  predicate SomeBlank(values: seq<string>)
    decreases |values|
  {
    |values| > 0 && (Blank(values[0]) || SomeBlank(values[1..]))
  }

  /** The "Missing Information" condition. */
  predicate MissingInformation(f: Form) {
    SomeBlank(Fields(f))
  }

  lemma {:induction false} SomeBlankIffIndex(values: seq<string>)
    ensures SomeBlank(values) <==> exists i :: 0 <= i < |values| && Blank(values[i])
    decreases |values|
  {
    if |values| > 0 {
      var rest := values[1..];
      SomeBlankIffIndex(rest);
      if Blank(values[0]) {
        assert 0 <= 0 < |values| && Blank(values[0]);
      } else {
        if SomeBlank(rest) {
          var j :| 0 <= j < |rest| && Blank(rest[j]);
          assert rest[j] == values[j + 1];
        }
        if exists i :: 0 <= i < |values| && Blank(values[i]) {
          var i :| 0 <= i < |values| && Blank(values[i]);
          assert rest[i - 1] == values[i];
        }
      }
    }
  }

  /** The condition is the code's `emptyFields.length > 0`. */
  lemma MissingIffEmptyFields(f: Form)
    ensures MissingInformation(f) <==> |EmptyFields(f)| > 0
  {
    SomeBlankIffIndex(Fields(f));
    Seqs.FilterNonEmpty(Fields(f), Blank);
  }

  /** The submission is refused exactly when some field is blank after trimming. */
  lemma MissingIffBlankField(f: Form)
    ensures MissingInformation(f) <==> exists field :: Text.Trim(FieldValue(f, field)) == ""
  {
    var fs := Fields(f);
    SomeBlankIffIndex(fs);
    if MissingInformation(f) {
      var i :| 0 <= i < |fs| && Blank(fs[i]);
      FieldAt(f, i);
    }
    if exists field :: Text.Trim(FieldValue(f, field)) == "" {
      var field :| Text.Trim(FieldValue(f, field)) == "";
      FieldAt(f, FieldIndex(field));
    }
  }

  lemma FieldAt(f: Form, i: nat)
    requires i < |AllFields|
    ensures Fields(f)[i] == FieldValue(f, AllFields[i])
  {
  }

  /** The address string sent with every order call. */
  function ShippingAddress(f: Form): string {
    f.address + ", " + f.city + ", " + f.zipCode + ", " + f.country
  }

  // ---- coupons ----

  /** The applied coupon as taken from a valid validation reply. */
  datatype AppliedCoupon = AppliedCoupon(code: string, discount: int, finalAmount: int)

  /** The reply of the coupon validation endpoint; `ValidationThrew` is a rejected request. */
  datatype CouponReply =
    | ValidationThrew
    | Checked(valid: bool, couponCode: string, discount: int, finalAmount: int)

  /** The code sent for validation: `couponCode.trim().toUpperCase()`. */
  function NormalizedCode(code: string): string {
    Text.ToUpper(Text.Trim(code))
  }

  /** Normalising the code a second time changes nothing. */
  lemma NormalizedCodeIdempotent(code: string)
    ensures NormalizedCode(NormalizedCode(code)) == NormalizedCode(code)
  {
    var t := Text.Trim(code);
    Text.TrimToUpper(t);
    Text.TrimIdempotent(code);
    Text.ToUpperIdempotent(t);
  }

  /** `finalTotal`: the applied coupon's final amount, otherwise the cart subtotal. */
  function FinalTotal(applied: Option<AppliedCoupon>, subtotal: int): int {
    match applied
    case Some(c) => c.finalAmount
    case None => subtotal
  }

  // ---- the backend ----

  /** A cart record as returned by the lookup or the creation; its `cartId` may be absent. */
  datatype CartRecord = CartRecord(cartId: Option<int>)

  datatype FromCartPayload = FromCartPayload(address: string, phoneNum: string, paymentMethod: string,
                                             orderStatus: string, paymentStatus: string, clearCart: bool)

  datatype DirectPayload = DirectPayload(email: string, address: string, phoneNum: string, totalPrice: int,
                                         orderStatus: string, paymentStatus: string, paymentMethod: string)

  /** The reply of an order call: a rejection, or an order whose `totalPrice` may be absent. */
  datatype OrderReply = OrderThrew | OrderReturned(totalPrice: Option<int>)

  /** Calls to the backend. The variant id of a pushed line is not part of the model. The
      cart-total recalculation and the order fetch exist as endpoints but are never called. */
  datatype ApiCall =
    | ValidateCoupon(code: string, cartTotal: int)
    | GetCartByEmail(email: string)
    | CreateCart(email: string, totalPrice: int, isActive: bool)
    | AddCartProduct(cartId: Option<int>, quantity: int)
    | CalculateCartTotal(id: int)
    | CreateOrderFromCart(fromCartId: int, fromCart: FromCartPayload)
    | CreateOrder(direct: DirectPayload)
    | GetOrder(orderId: int)

  /** The replies of the endpoints `handleSubmit` awaits; `None` is a rejected request. The
      replies to pushed lines are not inputs: whatever they are, the handler goes on. */
  datatype Backend = Backend(cartByEmail: string -> Option<CartRecord>,
                             createCart: (string, int) -> Option<CartRecord>,
                             createFromCart: (int, FromCartPayload) -> OrderReply,
                             createOrder: DirectPayload -> OrderReply)

  datatype Outcome = MissingInfo | OrderPlaced(total: int) | OrderFailed

  datatype Run = Run(calls: seq<ApiCall>, outcome: Outcome)

  // ---- the specification of handleSubmit ----

  function FromCartPayloadOf(f: Form): FromCartPayload {
    FromCartPayload(ShippingAddress(f), f.phone, "Credit Card", "pending", "pending", true)
  }

  function DirectPayloadOf(f: Form, finalTotal: int): DirectPayload {
    DirectPayload(f.email, ShippingAddress(f), f.phone, finalTotal, "pending", "pending", "Credit Card")
  }

  /** One add call per line, in cart order. */
  function PushCalls(items: seq<Cart.CartItem>, cartId: Option<int>): seq<ApiCall> {
    seq(|items|, i requires 0 <= i < |items| => AddCartProduct(cartId, items[i].quantity))
  }

  /** `if (cartId)`: present and non-zero. */
  predicate Truthy(cartId: Option<int>) {
    cartId.Some? && cartId.value != 0
  }

  /** What the user is told once an order call has answered: the success toast reads
      `order.totalPrice`, so an answer without it ends in "Order Failed" as well. */
  function Reported(reply: OrderReply): Outcome {
    match reply
    case OrderReturned(Some(t)) => OrderPlaced(t)
    case _ => OrderFailed
  }

  /** The order step: from the cart first, directly only if that is rejected; directly at once
      when there is no usable cart id. */
  function OrderStep(f: Form, cartId: Option<int>, finalTotal: int, b: Backend): Run {
    var direct := DirectPayloadOf(f, finalTotal);
    if Truthy(cartId) then
      match b.createFromCart(cartId.value, FromCartPayloadOf(f))
      case OrderThrew =>
        Run([CreateOrderFromCart(cartId.value, FromCartPayloadOf(f)), CreateOrder(direct)],
            Reported(b.createOrder(direct)))
      case returned =>
        Run([CreateOrderFromCart(cartId.value, FromCartPayloadOf(f))], Reported(returned))
    else
      Run([CreateOrder(direct)], Reported(b.createOrder(direct)))
  }

  /** The whole of `handleSubmit`: the calls in order and the outcome. */
  function Submission(f: Form, items: seq<Cart.CartItem>, subtotal: int, finalTotal: int, b: Backend): Run {
    if MissingInformation(f) then Run([], MissingInfo)
    else
      match b.cartByEmail(f.email)
      case Some(existing) =>
        var o := OrderStep(f, existing.cartId, finalTotal, b);
        Run([GetCartByEmail(f.email)] + o.calls, o.outcome)
      case None =>
        var head := [GetCartByEmail(f.email), CreateCart(f.email, subtotal, true)];
        match b.createCart(f.email, subtotal)
        case None => Run(head, OrderFailed)
        case Some(created) =>
          var o := OrderStep(f, created.cartId, finalTotal, b);
          Run(head + PushCalls(items, created.cartId) + o.calls, o.outcome)
  }

  /** `handleSubmit`, step by step: the reassigned `cartId` and `order`, and the loop that
      pushes each line while ignoring the replies. */
  method PlaceOrder(f: Form, items: seq<Cart.CartItem>, subtotal: int, finalTotal: int, b: Backend)
    returns (calls: seq<ApiCall>, outcome: Outcome)
    ensures Run(calls, outcome) == Submission(f, items, subtotal, finalTotal, b)
  {
    if MissingInformation(f) {
      return [], MissingInfo;
    }
    var cartId: Option<int> := None;
    calls := [GetCartByEmail(f.email)];
    var existing := b.cartByEmail(f.email);
    if existing.Some? {
      cartId := existing.value.cartId;
    } else {
      calls := calls + [CreateCart(f.email, subtotal, true)];
      var created := b.createCart(f.email, subtotal);
      if created.None? {
        return calls, OrderFailed;
      }
      cartId := created.value.cartId;
      for i := 0 to |items|
        invariant calls == [GetCartByEmail(f.email), CreateCart(f.email, subtotal, true)]
                           + PushCalls(items[..i], cartId)
      {
        assert PushCalls(items[..i + 1], cartId) == PushCalls(items[..i], cartId) + [AddCartProduct(cartId, items[i].quantity)];
        calls := calls + [AddCartProduct(cartId, items[i].quantity)];
      }
      assert items[..|items|] == items;
    }
    var direct := DirectPayloadOf(f, finalTotal);
    var order: OrderReply;
    if Truthy(cartId) {
      calls := calls + [CreateOrderFromCart(cartId.value, FromCartPayloadOf(f))];
      order := b.createFromCart(cartId.value, FromCartPayloadOf(f));
      if order.OrderThrew? {
        calls := calls + [CreateOrder(direct)];
        order := b.createOrder(direct);
      }
    } else {
      calls := calls + [CreateOrder(direct)];
      order := b.createOrder(direct);
    }
    outcome := Reported(order);
  }

  // ---- properties of handleSubmit ----

  /** A blank field stops the submission before any backend call, and the cart stays. */
  lemma BlankFieldMakesNoCall(f: Form, items: seq<Cart.CartItem>, subtotal: int, finalTotal: int, b: Backend)
    requires exists field :: Text.Trim(FieldValue(f, field)) == ""
    ensures Submission(f, items, subtotal, finalTotal, b) == Run([], MissingInfo)
  {
    MissingIffBlankField(f);
  }

  predicate IsOrderCall(c: ApiCall) {
    c.CreateOrderFromCart? || c.CreateOrder?
  }

  /** The answer the backend gives to an order call. */
  function AnswerTo(b: Backend, c: ApiCall): OrderReply
    requires IsOrderCall(c)
  {
    if c.CreateOrderFromCart? then b.createFromCart(c.fromCartId, c.fromCart) else b.createOrder(c.direct)
  }

  /** The calls of an order step: one or two order calls, the from-cart call first and only
      with a usable cart id, the direct call only when there is none or the first was rejected. */
  lemma OrderStepCalls(f: Form, cartId: Option<int>, finalTotal: int, b: Backend)
    ensures var o := OrderStep(f, cartId, finalTotal, b);
      && 1 <= |o.calls| <= 2
      && (forall i :: 0 <= i < |o.calls| ==> IsOrderCall(o.calls[i]))
      && (Truthy(cartId) ==> o.calls[0] == CreateOrderFromCart(cartId.value, FromCartPayloadOf(f)))
      && (Truthy(cartId) ==> (|o.calls| == 2 <==> b.createFromCart(cartId.value, FromCartPayloadOf(f)).OrderThrew?))
      && (|o.calls| == 2 ==> o.calls[1] == CreateOrder(DirectPayloadOf(f, finalTotal)))
      && (!Truthy(cartId) ==> o.calls == [CreateOrder(DirectPayloadOf(f, finalTotal))])
      && o.outcome == Reported(AnswerTo(b, o.calls[|o.calls| - 1]))
  {
  }

  /** An existing server cart is reused: no cart is created and no line is pushed. */
  lemma LookupHitPushesNothing(f: Form, items: seq<Cart.CartItem>, subtotal: int, finalTotal: int, b: Backend)
    requires !MissingInformation(f) && b.cartByEmail(f.email).Some?
    ensures var r := Submission(f, items, subtotal, finalTotal, b);
      && r.calls[0] == GetCartByEmail(f.email)
      && r.calls[1..] == OrderStep(f, b.cartByEmail(f.email).value.cartId, finalTotal, b).calls
      && forall i :: 0 <= i < |r.calls| ==> !r.calls[i].CreateCart? && !r.calls[i].AddCartProduct?
  {
    OrderStepCalls(f, b.cartByEmail(f.email).value.cartId, finalTotal, b);
  }

  /** A failed lookup creates a cart for the e-mail with the subtotal, then makes exactly one
      add call per line in cart order, whatever those calls answer, before the order step. */
  lemma LookupMissPushesEveryLine(f: Form, items: seq<Cart.CartItem>, subtotal: int, finalTotal: int, b: Backend)
    requires !MissingInformation(f) && b.cartByEmail(f.email).None? && b.createCart(f.email, subtotal).Some?
    ensures var r := Submission(f, items, subtotal, finalTotal, b);
      var cartId := b.createCart(f.email, subtotal).value.cartId;
      && r.calls[..2] == [GetCartByEmail(f.email), CreateCart(f.email, subtotal, true)]
      && |r.calls| >= 2 + |items|
      && (forall i :: 0 <= i < |items| ==> r.calls[2 + i] == AddCartProduct(cartId, items[i].quantity))
      && r.calls[2 + |items|..] == OrderStep(f, cartId, finalTotal, b).calls
  {
    var cartId := b.createCart(f.email, subtotal).value.cartId;
    var r := Submission(f, items, subtotal, finalTotal, b);
    var head := [GetCartByEmail(f.email), CreateCart(f.email, subtotal, true)];
    assert r.calls == head + PushCalls(items, cartId) + OrderStep(f, cartId, finalTotal, b).calls;
    assert r.calls[2 + |items|..] == OrderStep(f, cartId, finalTotal, b).calls;
  }

  /** A rejected cart creation aborts the submission: no order call, "Order Failed". */
  lemma CartCreationFailureAborts(f: Form, items: seq<Cart.CartItem>, subtotal: int, finalTotal: int, b: Backend)
    requires !MissingInformation(f) && b.cartByEmail(f.email).None? && b.createCart(f.email, subtotal).None?
    ensures Submission(f, items, subtotal, finalTotal, b)
         == Run([GetCartByEmail(f.email), CreateCart(f.email, subtotal, true)], OrderFailed)
  {
  }

  /** The cart id the order step works with, once a cart has been found or created. */
  function ResolvedCartId(f: Form, subtotal: int, b: Backend): Option<int>
    requires b.cartByEmail(f.email).Some? || b.createCart(f.email, subtotal).Some?
  {
    if b.cartByEmail(f.email).Some? then b.cartByEmail(f.email).value.cartId
    else b.createCart(f.email, subtotal).value.cartId
  }

  /** Once a cart is resolved, a submission is some cart calls followed by the order step,
      and its outcome is the order step's. */
  lemma SubmissionEndsWithOrderStep(f: Form, items: seq<Cart.CartItem>, subtotal: int, finalTotal: int, b: Backend)
    requires !MissingInformation(f)
    requires b.cartByEmail(f.email).Some? || b.createCart(f.email, subtotal).Some?
    ensures var r := Submission(f, items, subtotal, finalTotal, b);
      var o := OrderStep(f, ResolvedCartId(f, subtotal, b), finalTotal, b);
      var k := |r.calls| - |o.calls|;
      && k >= 1
      && r.calls == r.calls[..k] + o.calls
      && (forall i :: 0 <= i < k ==> IsCartCall(r.calls[i]))
      && r.outcome == o.outcome
  {
    var r := Submission(f, items, subtotal, finalTotal, b);
    var o := OrderStep(f, ResolvedCartId(f, subtotal, b), finalTotal, b);
    var k := |r.calls| - |o.calls|;
    if b.cartByEmail(f.email).Some? {
      assert r.calls == [GetCartByEmail(f.email)] + o.calls;
    } else {
      var cartId := ResolvedCartId(f, subtotal, b);
      var pre := [GetCartByEmail(f.email), CreateCart(f.email, subtotal, true)] + PushCalls(items, cartId);
      assert r.calls == pre + o.calls;
      assert r.calls[..k] == pre;
    }
  }

  /** Each call of an order step is the from-cart order with the form's payload or the
      direct order with the form's payload and the final total. */
  lemma OrderStepPayloads(f: Form, cartId: Option<int>, finalTotal: int, b: Backend)
    ensures var o := OrderStep(f, cartId, finalTotal, b);
      forall i :: 0 <= i < |o.calls| ==>
        (o.calls[i].CreateOrderFromCart? && o.calls[i].fromCart == FromCartPayloadOf(f))
        || o.calls[i] == CreateOrder(DirectPayloadOf(f, finalTotal))
  {
  }

  /** What the code puts in an order request: every order call carries the shipping address
      string, the phone, "Credit Card" and the two "pending" statuses; a direct order also
      carries the e-mail and the final total. */
  predicate CarriesOrderPayload(c: ApiCall, f: Form, finalTotal: int) {
    && (c.CreateOrderFromCart? ==>
          var p := c.fromCart;
          p.address == ShippingAddress(f) && p.phoneNum == f.phone && p.paymentMethod == "Credit Card"
          && p.orderStatus == "pending" && p.paymentStatus == "pending" && p.clearCart)
    && (c.CreateOrder? ==>
          var p := c.direct;
          p.email == f.email && p.address == ShippingAddress(f) && p.phoneNum == f.phone
          && p.totalPrice == finalTotal && p.paymentMethod == "Credit Card"
          && p.orderStatus == "pending" && p.paymentStatus == "pending")
  }

  /** A call of the submission that is no order, coupon, total or order-fetch request. */
  predicate IsCartCall(c: ApiCall) {
    c.GetCartByEmail? || c.CreateCart? || c.AddCartProduct?
  }

  /** A list of cart calls followed by an order step's calls: every call is a cart call or an
      order call with the code's payload. */
  lemma SplitCalls(calls: seq<ApiCall>, k: nat, o: Run, f: Form, finalTotal: int)
    requires k <= |calls| && calls == calls[..k] + o.calls
    requires forall i :: 0 <= i < k ==> IsCartCall(calls[i])
    requires forall i :: 0 <= i < |o.calls| ==>
      (o.calls[i].CreateOrderFromCart? && o.calls[i].fromCart == FromCartPayloadOf(f))
      || o.calls[i] == CreateOrder(DirectPayloadOf(f, finalTotal))
    ensures forall i :: 0 <= i < |calls| ==>
      CarriesOrderPayload(calls[i], f, finalTotal) && (IsCartCall(calls[i]) || IsOrderCall(calls[i]))
  {
    forall i | 0 <= i < |calls|
      ensures CarriesOrderPayload(calls[i], f, finalTotal) && (IsCartCall(calls[i]) || IsOrderCall(calls[i]))
    {
      if i >= k {
        assert calls[i] == o.calls[i - k];
      }
    }
  }

  /** Every order call of a submission carries the payload the code builds. */
  lemma OrderPayloads(f: Form, items: seq<Cart.CartItem>, subtotal: int, finalTotal: int, b: Backend)
    ensures var r := Submission(f, items, subtotal, finalTotal, b);
      forall i :: 0 <= i < |r.calls| ==> CarriesOrderPayload(r.calls[i], f, finalTotal)
  {
    if !MissingInformation(f) && (b.cartByEmail(f.email).Some? || b.createCart(f.email, subtotal).Some?) {
      SubmissionEndsWithOrderStep(f, items, subtotal, finalTotal, b);
      OrderStepPayloads(f, ResolvedCartId(f, subtotal, b), finalTotal, b);
      var r := Submission(f, items, subtotal, finalTotal, b);
      var o := OrderStep(f, ResolvedCartId(f, subtotal, b), finalTotal, b);
      SplitCalls(r.calls, |r.calls| - |o.calls|, o, f, finalTotal);
    }
  }




  /** An order call answered with an order whose total is present. */
  predicate Answered(b: Backend, c: ApiCall) {
    IsOrderCall(c) && AnswerTo(b, c).OrderReturned? && AnswerTo(b, c).totalPrice.Some?
  }

  lemma StepPlacedIffAnswered(f: Form, cartId: Option<int>, finalTotal: int, b: Backend)
    ensures var o := OrderStep(f, cartId, finalTotal, b);
      o.outcome.OrderPlaced? <==> exists i :: 0 <= i < |o.calls| && Answered(b, o.calls[i])
  {
    var o := OrderStep(f, cartId, finalTotal, b);
    OrderStepCalls(f, cartId, finalTotal, b);
    if o.outcome.OrderPlaced? {
      assert Answered(b, o.calls[|o.calls| - 1]);
    }
  }

  /** Cart calls followed by an order step's calls: some call is answered with an order
      exactly when one of the order step's calls is. */
  lemma SplitAnswered(calls: seq<ApiCall>, k: nat, o: Run, b: Backend)
    requires k <= |calls| && calls == calls[..k] + o.calls
    requires forall i :: 0 <= i < k ==> IsCartCall(calls[i])
    ensures (exists i :: 0 <= i < |calls| && Answered(b, calls[i]))
        <==> (exists j :: 0 <= j < |o.calls| && Answered(b, o.calls[j]))
  {
    if exists i :: 0 <= i < |calls| && Answered(b, calls[i]) {
      var i :| 0 <= i < |calls| && Answered(b, calls[i]);
      assert i >= k;
      assert o.calls[i - k] == calls[i];
    }
    if exists j :: 0 <= j < |o.calls| && Answered(b, o.calls[j]) {
      var j :| 0 <= j < |o.calls| && Answered(b, o.calls[j]);
      assert calls[k + j] == o.calls[j];
    }
  }

  /** The cart is cleared exactly when some order call answered with an order whose total is
      present. */
  lemma PlacedIffAnswered(f: Form, items: seq<Cart.CartItem>, subtotal: int, finalTotal: int, b: Backend)
    ensures var r := Submission(f, items, subtotal, finalTotal, b);
      r.outcome.OrderPlaced? <==> exists i :: 0 <= i < |r.calls| && Answered(b, r.calls[i])
  {
    if !MissingInformation(f) && (b.cartByEmail(f.email).Some? || b.createCart(f.email, subtotal).Some?) {
      SubmissionEndsWithOrderStep(f, items, subtotal, finalTotal, b);
      var cartId := ResolvedCartId(f, subtotal, b);
      var r := Submission(f, items, subtotal, finalTotal, b);
      var o := OrderStep(f, cartId, finalTotal, b);
      StepPlacedIffAnswered(f, cartId, finalTotal, b);
      SplitAnswered(r.calls, |r.calls| - |o.calls|, o, b);
    }
  }



  /** Every call of a submission is the cart lookup, the cart creation, a line push or an
      order request: none validates a coupon, recalculates the cart total or fetches the order. */
  lemma NoOtherCalls(f: Form, items: seq<Cart.CartItem>, subtotal: int, finalTotal: int, b: Backend)
    ensures var r := Submission(f, items, subtotal, finalTotal, b);
      forall i :: 0 <= i < |r.calls| ==> IsCartCall(r.calls[i]) || IsOrderCall(r.calls[i])
  {
    if !MissingInformation(f) && (b.cartByEmail(f.email).Some? || b.createCart(f.email, subtotal).Some?) {
      SubmissionEndsWithOrderStep(f, items, subtotal, finalTotal, b);
      OrderStepPayloads(f, ResolvedCartId(f, subtotal, b), finalTotal, b);
      var r := Submission(f, items, subtotal, finalTotal, b);
      var o := OrderStep(f, ResolvedCartId(f, subtotal, b), finalTotal, b);
      SplitCalls(r.calls, |r.calls| - |o.calls|, o, f, finalTotal);
    }
  }





  /** The fallback: once a cart with a usable id is resolved and the from-cart call is
      rejected, the last call is a direct order with the shipping string and the final total,
      and its answer alone decides the outcome; when it is rejected too, nothing is placed. */
  lemma FallbackAfterRejection(f: Form, items: seq<Cart.CartItem>, subtotal: int, finalTotal: int, b: Backend,
                               cartId: Option<int>)
    requires !MissingInformation(f) && Truthy(cartId)
    requires b.cartByEmail(f.email) == Some(CartRecord(cartId))
             || (b.cartByEmail(f.email).None? && b.createCart(f.email, subtotal) == Some(CartRecord(cartId)))
    requires b.createFromCart(cartId.value, FromCartPayloadOf(f)).OrderThrew?
    ensures var r := Submission(f, items, subtotal, finalTotal, b);
      && |r.calls| >= 2
      && r.calls[|r.calls| - 2] == CreateOrderFromCart(cartId.value, FromCartPayloadOf(f))
      && r.calls[|r.calls| - 1] == CreateOrder(DirectPayload(f.email, ShippingAddress(f), f.phone, finalTotal,
                                                             "pending", "pending", "Credit Card"))
      && r.outcome == Reported(b.createOrder(DirectPayloadOf(f, finalTotal)))
      && (b.createOrder(DirectPayloadOf(f, finalTotal)).OrderThrew? ==> r.outcome == OrderFailed)
  {
    var r := Submission(f, items, subtotal, finalTotal, b);
    var o := OrderStep(f, cartId, finalTotal, b);
    assert r.calls[|r.calls| - |o.calls|..] == o.calls;
  }

  // ---- scenarios ----

  /** A shirt at 50.00, variant 7. */
  const Shirt := Cart.NewItem(7, 1, "Shirt", 5000, "shirt.png", "Men", None)

  /** Adding the shirt twice gives one line of quantity 2 and a subtotal of 100.00; with no
      coupon a complete form's order is created from the existing cart 3, which answers with total 100.00,
      and that is the whole run: there is no order fetch afterwards. */
  lemma ExampleEndToEnd(f: Form)
    requires !MissingInformation(f)
    ensures var items := Cart.Added(Cart.Added([], Shirt), Shirt);
      var b := Backend((e: string) => Some(CartRecord(Some(3))), (e: string, t: int) => None,
                       (id: int, p: FromCartPayload) => OrderReturned(Some(10000)), (p: DirectPayload) => OrderThrew);
      && items == [Cart.WithQuantity(Shirt, 2)]
      && Cart.PriceSum(items) == 10000
      && Submission(f, items, Cart.PriceSum(items), FinalTotal(None, Cart.PriceSum(items)), b)
         == Run([GetCartByEmail(f.email), CreateOrderFromCart(3, FromCartPayloadOf(f))],
                OrderPlaced(10000))
  {
    Cart.SharedKeyMerges(Shirt, Shirt);
  }

  /** With a coupon whose final amount is 90.00 on the 100.00 subtotal, a rejected from-cart
      call falls back to a direct order carrying 90.00, and that order is placed. */
  lemma ExampleCouponFallback(f: Form)
    requires !MissingInformation(f)
    ensures var total := FinalTotal(Some(AppliedCoupon("SAVE20", 1000, 9000)), 10000);
      var b := Backend((e: string) => Some(CartRecord(Some(3))), (e: string, t: int) => None,
                       (id: int, p: FromCartPayload) => OrderThrew, (p: DirectPayload) => OrderReturned(Some(p.totalPrice)));
      var r := Submission(f, [Cart.WithQuantity(Shirt, 2)], 10000, total, b);
      && total == 9000
      && r.calls[|r.calls| - 1].CreateOrder? && r.calls[|r.calls| - 1].direct.totalPrice == 9000
      && r.outcome == OrderPlaced(9000)
  {
  }

  // ---- the page ----

  class CheckoutPage {
    const cart: Cart.CartStore
    var form: Form
    var couponCode: string
    var appliedCoupon: Option<AppliedCoupon>
    var validatingCoupon: bool

    constructor (cart: Cart.CartStore)
      ensures this.cart == cart && form == EmptyForm && couponCode == ""
      ensures appliedCoupon == None && !validatingCoupon
    {
      this.cart := cart;
      form := EmptyForm;
      couponCode := "";
      appliedCoupon := None;
      validatingCoupon := false;
    }

    /** `finalTotal`, recomputed from the current coupon and cart. */
    function Total(): int
      reads this, cart
    {
      FinalTotal(appliedCoupon, cart.TotalPrice())
    }

    /** `handleChange`. */
    method HandleChange(field: FormField, value: string)
      modifies this`form
      ensures form == WithField(old(form), field, value)
    {
      form := WithField(form, field, value);
    }

    /** The coupon input's change handler, which upper-cases what is typed. */
    method TypeCouponCode(value: string)
      modifies this`couponCode
      ensures couponCode == Text.ToUpper(value)
    {
      couponCode := Text.ToUpper(value);
    }

    /** `handleApplyCoupon`: a blank code makes no call; otherwise the normalised code is sent
        with the cart subtotal, and only a valid reply changes the applied coupon. */
    method HandleApplyCoupon(validate: (string, int) -> CouponReply) returns (request: Option<ApiCall>)
      modifies this`couponCode, this`appliedCoupon, this`validatingCoupon
      ensures Text.Trim(old(couponCode)) == "" ==>
        request == None && couponCode == old(couponCode) && appliedCoupon == old(appliedCoupon)
        && validatingCoupon == old(validatingCoupon)
      ensures Text.Trim(old(couponCode)) != "" ==>
        var code := NormalizedCode(old(couponCode));
        var reply := validate(code, cart.TotalPrice());
        && request == Some(ValidateCoupon(code, cart.TotalPrice()))
        && !validatingCoupon
        && (reply.Checked? && reply.valid ==>
              appliedCoupon == Some(AppliedCoupon(reply.couponCode, reply.discount, reply.finalAmount))
              && couponCode == "")
        && (!(reply.Checked? && reply.valid) ==>
              appliedCoupon == old(appliedCoupon) && couponCode == old(couponCode))
    {
      if Text.Trim(couponCode) == "" {
        return None;
      }
      validatingCoupon := true;
      var code := NormalizedCode(couponCode);
      var subtotal := cart.TotalPrice();
      request := Some(ValidateCoupon(code, subtotal));
      var reply := validate(code, subtotal);
      if reply.Checked? && reply.valid {
        appliedCoupon := Some(AppliedCoupon(reply.couponCode, reply.discount, reply.finalAmount));
        couponCode := "";
      }
      validatingCoupon := false;
    }

    /** `handleRemoveCoupon`. */
    method HandleRemoveCoupon()
      modifies this`couponCode, this`appliedCoupon
      ensures appliedCoupon == None && couponCode == ""
      ensures Total() == cart.TotalPrice()
    {
      appliedCoupon := None;
      couponCode := "";
    }

    /** `handleSubmit` on the page: the run of `Submission` on the current form, lines, subtotal
        and final total, and `clearCart` exactly when an order was placed. */
    method HandleSubmit(b: Backend) returns (calls: seq<ApiCall>, outcome: Outcome)
      modifies cart
      ensures Run(calls, outcome) == Submission(form, old(cart.items), old(cart.TotalPrice()), old(Total()), b)
      ensures cart.items == if outcome.OrderPlaced? then [] else old(cart.items)
    {
      calls, outcome := PlaceOrder(form, cart.items, cart.TotalPrice(), Total(), b);
      if outcome.OrderPlaced? {
        cart.ClearCart();
      }
    }
  }
}
