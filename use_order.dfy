/** The order hook (src/hooks/useOrder.ts): totals, the conversion of cart lines into order lines
    priced in cents, the mapping between the checkout's order and the service's records, and the
    `loading` / `error` / `currentOrder` state around the service calls. The service's answers
    are parameters. */
module UseOrder {
  import opened Wrappers
  import opened Seqs
  import opened Types
  import opened CartProvider

  const DefaultDeliveryFee: real := 3.90
  const DefaultTaxRate: real := 0.1

  /** `calculateTotal(cartItems, deliveryFee = 3.90, taxRate = 0.1)`. */
  function CalculateTotal(items: seq<CartItem>, deliveryFee: Option<real>, taxRate: Option<real>): (total: real)
    ensures total == Subtotal(items) + deliveryFee.GetOr(3.90) + Subtotal(items) * taxRate.GetOr(0.1)
  {
    var subtotal := Subtotal(items);
    subtotal + deliveryFee.GetOr(DefaultDeliveryFee) + subtotal * taxRate.GetOr(DefaultTaxRate)
  }

  /** `Math.round(x * 100)`: the nearest integer number of cents, halves rounded up. */
  function ToCents(x: real): (c: int)
    ensures c as real - 0.5 <= x * 100.0 < c as real + 0.5
  {
    (x * 100.0 + 0.5).Floor
  }

  /** An amount with at most two decimals is a whole number of cents. */
  predicate TwoDecimals(x: real)
  {
    (x * 100.0).Floor as real == x * 100.0
  }

  /** For an amount with at most two decimals the rounding is exact. */
  lemma ToCentsExact(x: real)
    requires TwoDecimals(x)
    ensures ToCents(x) as real == x * 100.0
  {
    var n := (x * 100.0).Floor;
    assert (x * 100.0 + 0.5).Floor == n;
  }

  /** Cents converted back to euros and rounded again give the same cents. */
  lemma CentsRoundTrip(c: int)
    ensures TwoDecimals(c as real / 100.0)
    ensures ToCents(c as real / 100.0) == c
  {
    assert c as real / 100.0 * 100.0 == c as real;
    assert (c as real + 0.5).Floor == c;
  }

  /** One cart line as an order line: same product and quantity, unit price in cents. */
  function ToLigne(item: CartItem): (l: LigneCommande)
    ensures l.produitId == item.menuItem.id && l.quantite == item.quantity
    ensures l.prixUnitaire == ToCents(item.menuItem.price)
  {
    LigneCommande(item.menuItem.id, item.quantity, ToCents(item.menuItem.price))
  }

  /** `convertCartItemsToLignesCommande`: one order line per cart line, in order. */
  function ConvertLines(items: seq<CartItem>): (lines: seq<LigneCommande>)
    ensures |lines| == |items|
    ensures forall i :: 0 <= i < |items| ==>
      lines[i].produitId == items[i].menuItem.id && lines[i].quantite == items[i].quantity &&
      lines[i].prixUnitaire == ToCents(items[i].menuItem.price)
  {
    Map(ToLigne, items)
  }

  /** Σ unit cents × quantity over order lines. */
  function CentsSubtotal(lines: seq<LigneCommande>): int
  {
    if lines == [] then 0 else CentsSubtotal(lines[..|lines| - 1]) + lines[|lines| - 1].prixUnitaire * lines[|lines| - 1].quantite
  }

  lemma LineCents(item: CartItem)
    requires TwoDecimals(item.menuItem.price)
    ensures (ToLigne(item).prixUnitaire * item.quantity) as real == LineTotal(item) * 100.0
  {
    ToCentsExact(item.menuItem.price);
    var c, q, p := ToCents(item.menuItem.price), item.quantity, item.menuItem.price;
    assert (c * q) as real == c as real * q as real;
    assert c as real * q as real == p * 100.0 * q as real;
    assert p * 100.0 * q as real == (p * q as real) * 100.0;
  }

  /** When every unit price has at most two decimals, the order lines add up to exactly the
      cart subtotal in cents. */
  lemma {:induction false} LinesMatchSubtotal(items: seq<CartItem>)
    requires forall i :: 0 <= i < |items| ==> TwoDecimals(items[i].menuItem.price)
    ensures CentsSubtotal(ConvertLines(items)) as real == Subtotal(items) * 100.0
  {
    if items != [] {
      var n := |items|;
      var lines := ConvertLines(items);
      assert lines[..n - 1] == ConvertLines(items[..n - 1]);
      LinesMatchSubtotal(items[..n - 1]);
      LineCents(items[n - 1]);
      assert lines[n - 1] == ToLigne(items[n - 1]);
    }
  }

  /** `formatOrderForApi`. */
  function FormatOrderForApi(details: OrderDetails): (request: CreateCommandeRequest)
    ensures request.clientId == details.clientId && request.restaurantId == details.restaurantId
    ensures request.statut == Some(details.status)
    ensures request.produits == ConvertLines(details.cartItems)
    ensures request.prixTotal == ToCents(details.totalPrice)
  {
    CreateCommandeRequest(details.clientId, details.restaurantId, ConvertLines(details.cartItems),
                          ToCents(details.totalPrice), Some(details.status))
  }

  /** `parseOrderFromApi`: the record itself, no reconstructed cart lines, the total in euros. */
  function ParseOrderFromApi(commande: Commande): (details: CommandeDetails)
    ensures details.commande == commande && details.parsedCartItems == []
    ensures details.totalPriceEuros * 100.0 == commande.prixTotal as real
    ensures details.deliveryAddress.None?
  {
    CommandeDetails(commande, [], commande.prixTotal as real / 100.0, None)
  }

  /** Sending an order and reading back the stored one gives the same euro total, whenever that
      total has at most two decimals. */
  lemma TotalRoundTrip(details: OrderDetails, stored: Commande)
    requires TwoDecimals(details.totalPrice)
    requires stored.prixTotal == FormatOrderForApi(details).prixTotal
    ensures ParseOrderFromApi(stored).totalPriceEuros == details.totalPrice
  {
    ToCentsExact(details.totalPrice);
  }

  /** Reading a stored order and converting its total back to cents gives the stored cents. */
  lemma CentsSurviveParse(stored: Commande)
    ensures ToCents(ParseOrderFromApi(stored).totalPriceEuros) == stored.prixTotal
  {
    CentsRoundTrip(stored.prixTotal);
  }

  /** The hook's state slots. */
  class OrderHook {
    var loading: bool
    var error: Option<string>
    var currentOrder: Option<CommandeDetails>

    constructor ()
      ensures !loading && error.None? && currentOrder.None?
    {
      loading := false;
      error := None;
      currentOrder := None;
    }

    method ClearError()
      modifies this
      ensures error.None? && loading == old(loading) && currentOrder == old(currentOrder)
    {
      error := None;
    }

    /** `createOrder`. Without a user the error is set and nothing is sent. Otherwise the request
        is the formatted order with the user's id as client; `answer` is what the service
        returned for it. */
    method CreateOrder(user: Option<AuthUser>, details: OrderDetails, answer: Result<Commande, Thrown>)
      returns (created: Option<Commande>, sent: Option<CreateCommandeRequest>)
      modifies this
      ensures user.None? ==>
        sent.None? && created.None? && error == Some("Utilisateur non connecté") &&
        loading == old(loading) && currentOrder == old(currentOrder)
      ensures user.Some? ==>
        sent == Some(FormatOrderForApi(details.(clientId := user.value.id))) && !loading
      ensures user.Some? && answer.Ok? ==>
        created == Some(answer.value) && error.None? && currentOrder == Some(ParseOrderFromApi(answer.value))
      ensures user.Some? && answer.Err? ==>
        created.None? && currentOrder == old(currentOrder) &&
        error == Some(MessageOr(answer.error, "Erreur lors de la création de la commande"))
      ensures sent.Some? && user.Some? ==> sent.value.clientId == user.value.id
    {
      if user.None? {
        error := Some("Utilisateur non connecté");
        return None, None;
      }
      loading := true;
      error := None;
      var request := FormatOrderForApi(details.(clientId := user.value.id));
      sent := Some(request);
      match answer {
        case Ok(commande) =>
          currentOrder := Some(ParseOrderFromApi(commande));
          created := Some(commande);
        case Err(thrown) =>
          error := Some(MessageOr(thrown, "Erreur lors de la création de la commande"));
          created := None;
      }
      loading := false;
    }

    /** `getOrderById`, with `answer` the service's reply for `orderId`. */
    method GetOrderById(orderId: string, answer: Result<Commande, Thrown>) returns (found: Option<CommandeDetails>)
      modifies this
      ensures !loading
      ensures answer.Ok? ==>
        found == Some(ParseOrderFromApi(answer.value)) && currentOrder == found && error.None?
      ensures answer.Err? ==>
        found.None? && currentOrder == old(currentOrder) &&
        error == Some(MessageOr(answer.error, "Erreur lors de la récupération de la commande"))
    {
      loading := true;
      error := None;
      match answer {
        case Ok(commande) =>
          found := Some(ParseOrderFromApi(commande));
          currentOrder := found;
        case Err(thrown) =>
          error := Some(MessageOr(thrown, "Erreur lors de la récupération de la commande"));
          found := None;
      }
      loading := false;
    }

    /** `updateOrderStatus`: on success the current order's status changes only when its id is
        `orderId`; every other field of it is kept. */
    method UpdateOrderStatus(orderId: string, status: string, answer: Outcome<Thrown>) returns (ok: bool)
      modifies this
      ensures !loading
      ensures ok <==> answer.Pass?
      ensures answer.Pass? ==> error.None?
      ensures answer.Pass? && old(currentOrder).Some? && old(currentOrder).value.commande.id == orderId ==>
        currentOrder == Some(old(currentOrder).value.(commande := old(currentOrder).value.commande.(statut := status)))
      ensures !(answer.Pass? && old(currentOrder).Some? && old(currentOrder).value.commande.id == orderId) ==>
        currentOrder == old(currentOrder)
      ensures answer.Fail? ==>
        error == Some(MessageOr(answer.error, "Erreur lors de la mise à jour du statut"))
    {
      loading := true;
      error := None;
      match answer {
        case Pass =>
          if currentOrder.Some? && currentOrder.value.commande.id == orderId {
            currentOrder := Some(currentOrder.value.(commande := currentOrder.value.commande.(statut := status)));
          }
          ok := true;
        case Fail(thrown) =>
          error := Some(MessageOr(thrown, "Erreur lors de la mise à jour du statut"));
          ok := false;
      }
      loading := false;
    }
  }
}
