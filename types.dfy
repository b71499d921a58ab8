/** The shared data model of the storefront (src/types/index.ts): the unified order status, the
    catalogue, the cart line, the order records of the ordering service, addresses, search
    filters and the authenticated user. Euro amounts are exact `real`s; amounts the source
    keeps in cents are `int`s. */
module Types {
  import opened Wrappers

  /** The unified status of an order or a delivery. The eight enumeration members, plus
      `PickedUp` (referred to by several components but absent from the enumeration), plus any
      other string, since `Commande.statut` is free text. */
  datatype Status =
    | Pending | Confirmed | Preparing | Ready | OnTheWay | Delivered | Cancelled | Failed
    | PickedUp
    | Other(raw: string)

  /** The spellings of the enumeration members. */
  const PENDING: string := "pending"
  const CONFIRMED: string := "confirmed"
  const PREPARING: string := "preparing"
  const READY: string := "ready"
  const ON_THE_WAY: string := "on-the-way"
  const DELIVERED: string := "delivered"
  const CANCELLED: string := "cancelled"
  const FAILED: string := "failed"
  /** The spelling the model gives to the missing `PICKED_UP` member. */
  const PICKED_UP: string := "picked_up"

  /** The eight values of `UnifiedOrderStatus`, in declaration order. */
  const EnumValues: seq<string> :=
    [PENDING, CONFIRMED, PREPARING, READY, ON_THE_WAY, DELIVERED, CANCELLED, FAILED]

  /** A spelling the model reserves for a named constructor. */
  predicate IsReserved(s: string)
  {
    s in EnumValues || s == PICKED_UP
  }

  /** A status value in normal form: free text never spells a named member. */
  predicate Canonical(st: Status)
  {
    st.Other? ==> !IsReserved(st.raw)
  }

  /** The string a status is stored and compared as. */
  function Wire(st: Status): (s: string)
    ensures st.Other? ==> s == st.raw
    ensures !st.Other? ==> IsReserved(s)
  {
    match st
    case Pending => PENDING
    case Confirmed => CONFIRMED
    case Preparing => PREPARING
    case Ready => READY
    case OnTheWay => ON_THE_WAY
    case Delivered => DELIVERED
    case Cancelled => CANCELLED
    case Failed => FAILED
    case PickedUp => PICKED_UP
    case Other(raw) => raw
  }

  /** Reading a stored status string; total over all strings. */
  function Parse(s: string): (st: Status)
    ensures Canonical(st)
    ensures st.Other? <==> !IsReserved(s)
  {
    if s == PENDING then Pending
    else if s == CONFIRMED then Confirmed
    else if s == PREPARING then Preparing
    else if s == READY then Ready
    else if s == ON_THE_WAY then OnTheWay
    else if s == DELIVERED then Delivered
    else if s == CANCELLED then Cancelled
    else if s == FAILED then Failed
    else if s == PICKED_UP then PickedUp
    else Other(s)
  }

  /** Reading and writing back a status string loses nothing. */
  lemma WireParse(s: string)
    ensures Wire(Parse(s)) == s
  {
  }

  /** Writing and reading back a status in normal form gives it back. */
  lemma ParseWire(st: Status)
    requires Canonical(st)
    ensures Parse(Wire(st)) == st
  {
    if st.Other? {
      assert !IsReserved(st.raw);
    }
  }

  /** Distinct statuses in normal form are stored as distinct strings; in particular the eight
      enumeration values are pairwise distinct. */
  lemma WireInjective(a: Status, b: Status)
    requires Canonical(a) && Canonical(b)
    requires Wire(a) == Wire(b)
    ensures a == b
  {
    ParseWire(a);
    ParseWire(b);
  }

  /** The enumeration lists eight pairwise-distinct strings. */
  lemma EnumValuesDistinct()
    ensures |EnumValues| == 8
    ensures forall i, j :: 0 <= i < j < |EnumValues| ==> EnumValues[i] != EnumValues[j]
  {
    var statuses := [Pending, Confirmed, Preparing, Ready, OnTheWay, Delivered, Cancelled, Failed];
    assert forall i :: 0 <= i < 8 ==> EnumValues[i] == Wire(statuses[i]);
    forall i, j | 0 <= i < j < |EnumValues|
      ensures EnumValues[i] != EnumValues[j]
    {
      if EnumValues[i] == EnumValues[j] {
        WireInjective(statuses[i], statuses[j]);
      }
    }
  }

  /** `OrderStatus`, `DeliveryStatus`, `LivraisonStatus` and `RestaurantOrderStatus` are all
      the unified status type. */
  type OrderStatus = Status
  type DeliveryStatus = Status
  type LivraisonStatus = Status
  type RestaurantOrderStatus = Status

  /** The spellings of `UserRole`. */
  const ROLE_USER: string := "user"
  const ROLE_DELIVERY: string := "delivery"
  const ROLE_RESTAURANT: string := "restaurant"

  datatype Restaurant = Restaurant(
    id: string,
    name: string,
    description: string,
    image: string,
    rating: real,
    deliveryTime: string,
    deliveryFee: real,
    cuisine: seq<string>,
    isOpen: bool,
    promo: Option<string>)

  datatype MenuItem = MenuItem(
    id: string,
    name: string,
    description: string,
    price: real,
    image: string,
    category: string,
    isPopular: Option<bool>,
    allergens: Option<seq<string>>,
    isVegetarian: Option<bool>,
    isVegan: Option<bool>)

  /** A cart line. `specialInstructions` is optional: `None` is a value of its own, distinct
      from every string including "". */
  datatype CartItem = CartItem(
    menuItem: MenuItem,
    quantity: int,
    specialInstructions: Option<string>)

  datatype OrderItem = OrderItem(menuItemId: string, quantity: int, unitPrice: real)

  datatype Order = Order(
    id: string,
    userId: string,
    restaurantId: string,
    items: seq<OrderItem>,
    totalPrice: real,
    status: string)

  datatype Delivery = Delivery(
    id: string,
    orderId: string,
    deliveryPersonId: string,
    deliveryAddressId: string,
    status: string)

  datatype DeliveryPerson = DeliveryPerson(id: string, name: string, phone: string, isAvailable: bool)

  datatype Address = Address(id: string, street: string, city: string, postalCode: string, country: string)

  datatype User = User(id: string, name: string, email: string, phone: string, addresses: seq<Address>)

  /** The cuisine filter: declared as one cuisine, but the consumers also accept a list. */
  datatype CuisineFilter = One(cuisine: string) | Several(cuisines: seq<string>)

  /** `SearchFilters`: every field is optional. */
  datatype SearchFilters = SearchFilters(
    cuisineType: Option<CuisineFilter>,
    minRating: Option<real>,
    maxDeliveryTime: Option<int>,
    isVegetarian: Option<bool>)

  const NoFilters: SearchFilters := SearchFilters(None, None, None, None)

  datatype AuthUser = AuthUser(
    id: string,
    username: string,
    email: string,
    firstname: Option<string>,
    lastname: Option<string>,
    role: Option<string>)

  /** A delivery as the delivery service returns it (`Livraison`). */
  datatype Livraison = Livraison(
    id: string,
    orderId: Option<string>,
    livreurId: Option<string>,
    status: Option<string>,
    restaurantName: string,
    totalAmount: real,
    createdAt: string)

  /** An order line as the ordering service stores it; the unit price is in cents. */
  datatype LigneCommande = LigneCommande(produitId: string, quantite: int, prixUnitaire: int)

  /** An order as the ordering service stores it; the total is in cents and the status is
      free text. */
  datatype Commande = Commande(
    id: string,
    clientId: string,
    restaurantId: string,
    dateCreation: string,
    produits: seq<LigneCommande>,
    prixTotal: int,
    statut: string)

  datatype CreateCommandeRequest = CreateCommandeRequest(
    clientId: string,
    restaurantId: string,
    produits: seq<LigneCommande>,
    prixTotal: int,
    statut: Option<string>)

  datatype UpdateCommandeRequest = UpdateCommandeRequest(
    clientId: Option<string>,
    restaurantId: Option<string>,
    dateCreation: Option<string>,
    produits: Option<seq<LigneCommande>>,
    prixTotal: Option<int>,
    statut: Option<string>)

  /** An order as the checkout builds it; the total is in euros. */
  datatype OrderDetails = OrderDetails(
    id: Option<string>,
    clientId: string,
    restaurantId: string,
    cartItems: seq<CartItem>,
    totalPrice: real,
    deliveryAddress: Option<Address>,
    paymentMethod: Option<string>,
    status: string,
    createdAt: string,
    estimatedDeliveryTime: Option<int>)

  /** A stored order together with what the client reconstructs from it. */
  datatype CommandeDetails = CommandeDetails(
    commande: Commande,
    parsedCartItems: seq<CartItem>,
    totalPriceEuros: real,
    deliveryAddress: Option<Address>)
}
