/** The checkout page (src/routes/checkout/index.tsx): its totals and the place-order handler,
    which guards on the selected address, creates the order through the order hook and empties the
    cart only when an order came back. */
module Checkout {
  import opened Wrappers
  import opened Types
  import opened CartProvider
  import CartSheet
  import opened UseOrder

  const DeliveryFee: real := 3.90
  const DemoRestaurantId: string := "restaurant-demo-id"
  const EstimatedDeliveryMinutes: int := 35

  /** subtotal + 3.90 + 10% of the subtotal. */
  function Total(items: seq<CartItem>): (total: real)
    ensures total == Subtotal(items) * 1.1 + 3.90
  {
    var subtotal := Subtotal(items);
    subtotal + DeliveryFee + subtotal * 0.1
  }

  /** The page, the cart sheet with the same fee, and the hook's default total all agree. */
  lemma TotalsAgree(items: seq<CartItem>)
    ensures Total(items) == CalculateTotal(items, None, None)
    ensures Total(items) == CartSheet.Summarize(items, DeliveryFee).total
  {
  }

  /** One line of two at 14.00 gives 28.00 + 3.90 + 2.80 = 34.70. */
  lemma ExampleTotal(menuItem: MenuItem)
    requires menuItem.price == 14.0
    ensures Total([CartItem(menuItem, 2, None)]) == 34.70
  {
    SumsOfSingleton(CartItem(menuItem, 2, None));
  }

  /** The order the page submits. */
  function OrderToSubmit(items: seq<CartItem>, address: Address, paymentMethod: string, now: string): (o: OrderDetails)
    ensures o.status == PENDING && o.totalPrice == Total(items) && o.cartItems == items
    ensures o.deliveryAddress == Some(address) && o.restaurantId == DemoRestaurantId
  {
    OrderDetails(None, "", DemoRestaurantId, items, Total(items), Some(address), Some(paymentMethod),
                 PENDING, now, Some(EstimatedDeliveryMinutes))
  }

  /** The place-order button is disabled while processing or loading, or without an address. */
  function PlaceOrderDisabled(isProcessing: bool, orderLoading: bool, selectedAddress: Option<Address>): (disabled: bool)
    ensures disabled <==> isProcessing || orderLoading || selectedAddress.None?
  {
    isProcessing || orderLoading || selectedAddress.None?
  }

  class CheckoutPage {
    var isProcessing: bool
    var paymentMethod: string

    constructor ()
      ensures !isProcessing && paymentMethod == "card"
    {
      isProcessing := false;
      paymentMethod := "card";
    }

    /** `handlePlaceOrder`. `user` is the signed-in user, `now` the creation timestamp and
        `answer` the service's reply to the creation request. */
    method PlaceOrder(cart: CartStore, hook: OrderHook, selectedAddress: Option<Address>,
                      user: Option<AuthUser>, now: string, answer: Result<Commande, Thrown>)
      returns (placed: Option<Commande>, sent: Option<CreateCommandeRequest>)
      modifies this, cart, hook
      ensures paymentMethod == old(paymentMethod)
      ensures selectedAddress.Some? ==> !isProcessing
      ensures selectedAddress.None? ==>
        isProcessing == old(isProcessing) && placed.None? && sent.None? &&
        cart.items == old(cart.items) && cart.isOpen == old(cart.isOpen) &&
        hook.loading == old(hook.loading) && hook.error == old(hook.error) &&
        hook.currentOrder == old(hook.currentOrder)
      ensures sent.Some? ==>
        sent.value.statut == Some(PENDING) && sent.value.prixTotal == ToCents(Total(old(cart.items))) &&
        sent.value.produits == ConvertLines(old(cart.items)) && sent.value.restaurantId == DemoRestaurantId
      ensures placed.Some? ==> cart.items == []
      ensures placed.None? ==> cart.items == old(cart.items)
      ensures selectedAddress.Some? && user.Some? && answer.Ok? ==> placed == Some(answer.value)
      ensures cart.isOpen == old(cart.isOpen)
    {
      if selectedAddress.None? {
        return None, None;
      }
      isProcessing := true;
      hook.ClearError();
      var order := OrderToSubmit(cart.items, selectedAddress.value, paymentMethod, now);
      placed, sent := hook.CreateOrder(user, order, answer);
      if placed.Some? {
        cart.ClearCart();
      }
      isProcessing := false;
    }
  }
}
