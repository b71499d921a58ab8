/** The cart side sheet (src/components/CartSheet.tsx): the reductions it displays, its labels, and
    the quantity requests its ± buttons send back to the cart store. */
module CartSheet {
  import opened Wrappers
  import opened Text
  import opened Types
  import opened CartProvider

  /** The figures the sheet shows. */
  datatype Summary = Summary(subtotal: real, taxes: real, total: real, totalItems: int)

  /** The tax rate the sheet applies (10%). */
  const TaxRate: real := 0.1

  function Summarize(items: seq<CartItem>, deliveryFee: real): (s: Summary)
    ensures s.subtotal == Subtotal(items) && s.totalItems == ItemCount(items)
    ensures s.total == s.subtotal + deliveryFee + s.subtotal / 10.0
  {
    var subtotal := Subtotal(items);
    var taxes := subtotal * TaxRate;
    Summary(subtotal, taxes, subtotal + deliveryFee + taxes, ItemCount(items))
  }

  /** The header badge: shown iff there is at least one item, plural iff more than one. */
  function Badge(totalItems: int): (r: Option<string>)
    ensures r.Some? <==> totalItems > 0
    ensures r.Some? ==> |r.value| > 0 && (r.value[|r.value| - 1] == 's' <==> totalItems > 1)
  {
    if totalItems > 0 then Some(NatToString(totalItems) + " article" + (if totalItems > 1 then "s" else ""))
    else None
  }

  /** What the delivery line shows: the word "Gratuit", or the fee in euros. */
  datatype DeliveryLabel = Gratuit | Euros(amount: real)

  function DeliveryLine(deliveryFee: real): (r: DeliveryLabel)
    ensures r == Gratuit <==> deliveryFee == 0.0
    ensures r.Euros? ==> r.amount == deliveryFee
  {
    if deliveryFee == 0.0 then Gratuit else Euros(deliveryFee)
  }

  /** The empty state replaces the line list exactly when there is no line. */
  predicate ShowsEmptyState(items: seq<CartItem>)
  {
    |items| == 0
  }

  /** A call `onUpdateQuantity(id, quantity, instructions)`. */
  datatype QuantityRequest = QuantityRequest(key: CartKey, quantity: int)

  function MinusRequest(item: CartItem): (r: QuantityRequest)
    ensures r.key == KeyOf(item) && r.quantity == item.quantity - 1
  {
    QuantityRequest(KeyOf(item), item.quantity - 1)
  }

  function PlusRequest(item: CartItem): (r: QuantityRequest)
    ensures r.key == KeyOf(item) && r.quantity == item.quantity + 1
  {
    QuantityRequest(KeyOf(item), item.quantity + 1)
  }

  /** The store's answer to a request. */
  function Apply(items: seq<CartItem>, request: QuantityRequest): seq<CartItem>
  {
    WithQuantity(items, request.key, request.quantity)
  }

  /** Minus on a line of quantity one removes that line, and only lines with its key. */
  lemma MinusOnOneRemoves(items: seq<CartItem>, k: int)
    requires 0 <= k < |items| && items[k].quantity == 1
    ensures Apply(items, MinusRequest(items[k])) == Removed(items, KeyOf(items[k]))
    ensures !HasKey(Apply(items, MinusRequest(items[k])), KeyOf(items[k]))
  {
    RemoveExactly(items, KeyOf(items[k]), [], []);
  }

  /** On a cart with unique keys, plus on a line raises the count by one and the subtotal by the
      line's unit price; minus on a line above one lowers them alike. */
  lemma StepperSums(items: seq<CartItem>, k: int)
    requires UniqueKeys(items) && 0 <= k < |items| && items[k].quantity >= 1
    ensures ItemCount(Apply(items, PlusRequest(items[k]))) == ItemCount(items) + 1
    ensures Subtotal(Apply(items, PlusRequest(items[k]))) == Subtotal(items) + Cost(items[k].menuItem, 1)
    ensures items[k].quantity > 1 ==>
      ItemCount(Apply(items, MinusRequest(items[k]))) == ItemCount(items) - 1 &&
      Subtotal(Apply(items, MinusRequest(items[k]))) == Subtotal(items) + Cost(items[k].menuItem, -1)
  {
    var key := KeyOf(items[k]);
    UniqueKeyAt(items, key, k);
    ChangeAt(items, Apply(items, PlusRequest(items[k])), k, 1);
    if items[k].quantity > 1 {
      ChangeAt(items, Apply(items, MinusRequest(items[k])), k, -1);
    }
  }
}
