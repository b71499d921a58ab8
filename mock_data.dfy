/** The lookup helpers over the demonstration data (src/data/index.ts). The fixture tables
    themselves are data, not logic: each helper takes its table as a parameter. */
module MockData {
  import opened Wrappers
  import opened Seqs
  import opened Types

  /** `getRestaurantById`: the first restaurant with that id, or nothing. */
  function RestaurantById(restaurants: seq<Restaurant>, id: string): (r: Option<Restaurant>)
    ensures r.Some? ==> r.value.id == id
    ensures r.Some? ==> exists i :: 0 <= i < |restaurants| && restaurants[i] == r.value &&
                                   forall j :: 0 <= j < i ==> restaurants[j].id != id
    ensures r.None? <==> forall i :: 0 <= i < |restaurants| ==> restaurants[i].id != id
  {
    Find((x: Restaurant) => x.id == id, restaurants)
  }

  /** `getMenuItemsByRestaurantId`: the menu stored under that restaurant id, or the empty
      menu for an id with no entry. */
  function MenuItemsByRestaurantId(menus: map<string, seq<MenuItem>>, restaurantId: string): (r: seq<MenuItem>)
    ensures restaurantId in menus ==> r == menus[restaurantId]
    ensures restaurantId !in menus ==> r == []
  {
    if restaurantId in menus then menus[restaurantId] else []
  }

  /** `getUserById`. */
  function UserById(users: seq<User>, id: string): (r: Option<User>)
    ensures r.Some? ==> r.value.id == id
    ensures r.Some? ==> exists i :: 0 <= i < |users| && users[i] == r.value &&
                                   forall j :: 0 <= j < i ==> users[j].id != id
    ensures r.None? <==> forall i :: 0 <= i < |users| ==> users[i].id != id
  {
    Find((x: User) => x.id == id, users)
  }

  /** `getAddressById`. */
  function AddressById(addresses: seq<Address>, id: string): (r: Option<Address>)
    ensures r.Some? ==> r.value.id == id
    ensures r.Some? ==> exists i :: 0 <= i < |addresses| && addresses[i] == r.value &&
                                   forall j :: 0 <= j < i ==> addresses[j].id != id
    ensures r.None? <==> forall i :: 0 <= i < |addresses| ==> addresses[i].id != id
  {
    Find((x: Address) => x.id == id, addresses)
  }

  /** `getOrdersByUserId`: all and only that user's orders, in their original order. */
  function OrdersByUserId(orders: seq<Order>, userId: string): (r: seq<Order>)
    ensures forall o :: o in r <==> o in orders && o.userId == userId
    ensures |r| <= |orders|
  {
    Filter((o: Order) => o.userId == userId, orders)
  }

  /** `getOrderById`. */
  function OrderById(orders: seq<Order>, id: string): (r: Option<Order>)
    ensures r.Some? ==> r.value.id == id
    ensures r.Some? ==> exists i :: 0 <= i < |orders| && orders[i] == r.value &&
                                   forall j :: 0 <= j < i ==> orders[j].id != id
    ensures r.None? <==> forall i :: 0 <= i < |orders| ==> orders[i].id != id
  {
    Find((x: Order) => x.id == id, orders)
  }

  /** `getDeliveryByOrderId`: matches on the order the delivery belongs to, not on the
      delivery's own id. */
  function DeliveryByOrderId(deliveries: seq<Delivery>, orderId: string): (r: Option<Delivery>)
    ensures r.Some? ==> r.value.orderId == orderId
    ensures r.Some? ==> exists i :: 0 <= i < |deliveries| && deliveries[i] == r.value &&
                                   forall j :: 0 <= j < i ==> deliveries[j].orderId != orderId
    ensures r.None? <==> forall i :: 0 <= i < |deliveries| ==> deliveries[i].orderId != orderId
  {
    Find((x: Delivery) => x.orderId == orderId, deliveries)
  }

  /** `getDeliveryPersonById`. */
  function DeliveryPersonById(persons: seq<DeliveryPerson>, id: string): (r: Option<DeliveryPerson>)
    ensures r.Some? ==> r.value.id == id
    ensures r.Some? ==> exists i :: 0 <= i < |persons| && persons[i] == r.value &&
                                   forall j :: 0 <= j < i ==> persons[j].id != id
    ensures r.None? <==> forall i :: 0 <= i < |persons| ==> persons[i].id != id
  {
    Find((x: DeliveryPerson) => x.id == id, persons)
  }

  /** An order found by its id is among the orders of its own user. */
  lemma FoundOrderIsUsersOrder(orders: seq<Order>, id: string)
    requires OrderById(orders, id).Some?
    ensures OrderById(orders, id).value in OrdersByUserId(orders, OrderById(orders, id).value.userId)
  {
  }

  /** With unique order ids, an order of the table is found by its own id. */
  lemma {:induction false} OrderFoundByOwnId(orders: seq<Order>, k: nat)
    requires k < |orders|
    requires forall i, j :: 0 <= i < j < |orders| ==> orders[i].id != orders[j].id
    ensures OrderById(orders, orders[k].id) == Some(orders[k])
  {
    var r := OrderById(orders, orders[k].id);
    var i :| 0 <= i < |orders| && orders[i] == r.value &&
             forall j :: 0 <= j < i ==> orders[j].id != orders[k].id;
    assert i == k;
  }

  /** A delivery found for an order belongs to that order even when a delivery's own id
      equals the order id, so the two lookups differ. */
  lemma DeliveryLookupIgnoresOwnId()
    ensures DeliveryByOrderId([Delivery("o1", "o2", "p", "a", "pending")], "o1").None?
    ensures DeliveryByOrderId([Delivery("o1", "o2", "p", "a", "pending")], "o2").Some?
  {
    var d := Delivery("o1", "o2", "p", "a", "pending");
    assert [d][0] == d;
  }
}
