/** The checkout page (`src/features/orders/pages/CheckoutPage.tsx`): the total it
    shows, the redirect on an empty cart, and `onSubmit`, which refuses a cart
    holding an expired line, sends one batched order request copying every line,
    and clears the cart only once that request has resolved. The order service
    (`ordersApi.create`) is the parameter `create`: `Some(id)` when the request
    resolves with the created order's id, `None` when it rejects. */
module CheckoutPage {
  import opened Wrappers
  import opened Domain
  import opened Seqs
  import opened CartStore
  import opened Validators

  /** The route `onSubmit` navigates to after an order is created. */
  const OrdersRoute: string := "/orders"

  /** The `onSubmit` guard's filter: lines whose reservation has run out. */
  function ExpiredItems(items: seq<CartItem>, now: int): (r: seq<CartItem>)
    ensures forall k :: 0 <= k < |r| ==> r[k].expiresAt <= now && r[k] in items
    ensures forall k :: 0 <= k < |items| && items[k].expiresAt <= now ==> items[k] in r
    ensures IsSubsequence(r, items)
    ensures forall i :: i in items ==> multiset(r)[i] == if i.expiresAt <= now then multiset(items)[i] else 0
  {
    FilterMultiset((i: CartItem) => i.expiresAt <= now, items);
    Filter((i: CartItem) => i.expiresAt <= now, items)
  }

  /** `expiredItems.length > 0`: some line expires at or before `now`. */
  predicate HasExpired(items: seq<CartItem>, now: int) {
    |ExpiredItems(items, now)| > 0
  }

  lemma HasExpiredIff(items: seq<CartItem>, now: int)
    ensures HasExpired(items, now) <==> exists k :: 0 <= k < |items| && items[k].expiresAt <= now
  {
    var r := ExpiredItems(items, now);
    if |r| > 0 {
      assert r[0] in items;
    }
  }

  /** The checkout guard and the store's sweep use complementary comparisons:
      checkout refuses a cart exactly when a sweep at the same instant would
      remove some line from it. */
  lemma GuardAgreesWithSweep(items: seq<CartItem>, now: int)
    ensures HasExpired(items, now) <==> Unexpired(items, now) != items
  {
    HasExpiredIff(items, now);
    if HasExpired(items, now) {
      var k :| 0 <= k < |items| && items[k].expiresAt <= now;
      assert items[k] !in Unexpired(items, now);
    }
  }

  /** One request line: the cart line's batch, project, quantity and price snapshot. */
  function PayloadItem(item: CartItem): OrderItemPayload {
    OrderItemPayload(item.batchId, item.projectId, item.qtyTons, item.pricePerTon)
  }

  /** The request body `onSubmit` sends for the cart `items`. */
  function BuildPayload(buyerName: string, items: seq<CartItem>): (r: CreateOrderPayload)
    ensures r.buyerName == buyerName
    ensures |r.items| == |items|
    ensures forall k :: 0 <= k < |items| ==>
      && r.items[k].batchId == items[k].batchId
      && r.items[k].projectId == items[k].projectId
      && r.items[k].qtyTons == items[k].qtyTons
      && r.items[k].pricePerTon == items[k].pricePerTon
  {
    CreateOrderPayload(buyerName, Map(PayloadItem, items))
  }

  /** The request built from a cart passes the order-creation schema exactly when
      the buyer name passes the checkout form, the cart is not empty and every line
      has quantity and price of at least 0.01. */
  lemma PayloadValidity(buyerName: string, items: seq<CartItem>)
    ensures OrderCreateValid(BuildPayload(buyerName, items)) <==>
      && CheckoutValid(buyerName)
      && |items| >= 1
      && forall k :: 0 <= k < |items| ==> items[k].qtyTons >= MinAmount && items[k].pricePerTon >= MinAmount
  {
    var r := BuildPayload(buyerName, items);
    if OrderCreateValid(r) {
      forall k | 0 <= k < |items| ensures items[k].qtyTons >= MinAmount && items[k].pricePerTon >= MinAmount {
        assert OrderItemValid(r.items[k]);
      }
    }
  }

  /** What the page renders. */
  datatype View =
    | RedirectToCart
    | CheckoutForm(lines: seq<CartItem>, total: real)

  /** `if (items.length === 0) navigate('/cart')`, otherwise the form with the
      summary and `items.reduce((sum, item) => sum + item.subtotal, 0)`. */
  function Render(items: seq<CartItem>): (v: View)
    ensures v.RedirectToCart? <==> items == []
    ensures v.CheckoutForm? ==> v.lines == items && v.total == Total(items)
  {
    if |items| == 0 then RedirectToCart else CheckoutForm(items, Total(items))
  }

  /** How a submission ended. */
  datatype SubmitOutcome =
    | InvalidForm      // the form schema refused the buyer name; `onSubmit` never ran
    | RejectedExpired  // the guard refused the cart
    | Ordered(orderId: string)
    | CreateFailed     // the request rejected; the error is reported by the HTTP layer

  /** The page's state: the cart it reads, the `submitting` flag, the payloads it has
      sent to the order service, and the route it last navigated to. */
  class Checkout {
    const cart: Cart
    var submitting: bool
    var createCalls: seq<CreateOrderPayload>
    var navigatedTo: Option<string>

    constructor (cart: Cart)
      ensures this.cart == cart && !submitting && createCalls == [] && navigatedTo == None
    {
      this.cart := cart;
      submitting := false;
      createCalls := [];
      navigatedTo := None;
    }

    /** `onSubmit(data)` at time `now`. */
    method OnSubmit(buyerName: string, now: int, create: CreateOrderPayload -> Option<string>) returns (outcome: SubmitOutcome)
      modifies this, cart
      // an expired line: nothing is sent and nothing changes
      ensures HasExpired(old(cart.items), now) ==>
        && outcome == RejectedExpired
        && cart.items == old(cart.items)
        && createCalls == old(createCalls)
        && submitting == old(submitting)
        && navigatedTo == old(navigatedTo)
      // otherwise exactly one request, copying the cart, is sent
      ensures !HasExpired(old(cart.items), now) ==>
        && createCalls == old(createCalls) + [BuildPayload(buyerName, old(cart.items))]
        && !submitting
      // the cart is cleared only when the request resolved
      ensures !HasExpired(old(cart.items), now) && create(BuildPayload(buyerName, old(cart.items))).Some? ==>
        && outcome == Ordered(create(BuildPayload(buyerName, old(cart.items))).value)
        && cart.items == []
        && navigatedTo == Some(OrdersRoute)
      ensures !HasExpired(old(cart.items), now) && create(BuildPayload(buyerName, old(cart.items))).None? ==>
        && outcome == CreateFailed
        && cart.items == old(cart.items)
        && navigatedTo == old(navigatedTo)
    {
      if HasExpired(cart.items, now) {
        return RejectedExpired;
      }
      submitting := true;
      var payload := BuildPayload(buyerName, cart.items);
      createCalls := createCalls + [payload];
      var response := create(payload);
      if response.Some? {
        cart.ClearCart();
        navigatedTo := Some(OrdersRoute);
        outcome := Ordered(response.value);
      } else {
        outcome := CreateFailed;
      }
      submitting := false;
    }

    /** `handleSubmit(onSubmit)`: the form schema is checked first. */
    method Submit(buyerName: string, now: int, create: CreateOrderPayload -> Option<string>) returns (outcome: SubmitOutcome)
      modifies this, cart
      ensures !CheckoutValid(buyerName) ==>
        outcome == InvalidForm && cart.items == old(cart.items) && createCalls == old(createCalls)
      ensures outcome.Ordered? ==>
        && CheckoutValid(buyerName)
        && cart.items == []
        && createCalls == old(createCalls) + [BuildPayload(buyerName, old(cart.items))]
      ensures !outcome.Ordered? ==> cart.items == old(cart.items)
    {
      if !CheckoutValid(buyerName) {
        return InvalidForm;
      }
      outcome := OnSubmit(buyerName, now, create);
    }
  }
}
