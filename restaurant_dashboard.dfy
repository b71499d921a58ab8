/** The restaurateur's dashboard (src/routes/restaurant/dashboard.tsx): the order list with its
    status filter and per-status counts, the labels and badges, the product names, the action
    buttons, and the set of orders whose status change is in flight. Service replies are
    parameters. */
module RestaurantDashboard {
  import opened Wrappers
  import opened Seqs
  import opened Text
  import opened Types
  import opened Badges
  import OrderService
  import OrderActions

  const AllStatuses: string := "all"

  /** `getStatusBadgeVariant`. */
  function StatusBadgeVariant(status: string): (v: BadgeVariant)
    ensures Parse(status) == Pending ==> v == Destructive
    ensures Parse(status) == Preparing ==> v == Default
    ensures Parse(status) == Ready ==> v == Outline
    ensures Parse(status) !in {Pending, Preparing, Ready} ==> v == Secondary
  {
    if status == PENDING then Destructive
    else if status == CONFIRMED then Secondary
    else if status == PREPARING then Default
    else if status == READY then Outline
    else Secondary
  }

  /** `getStatusLabel`: French labels for six statuses, anything else unchanged. */
  function StatusLabel(status: string): (l: string)
    ensures Parse(status) !in {Pending, Confirmed, Preparing, Ready, PickedUp, Cancelled} ==> l == status
  {
    if status == PENDING then "En attente"
    else if status == CONFIRMED then "Confirmée"
    else if status == PREPARING then "En préparation"
    else if status == READY then "Prête"
    else if status == PICKED_UP then "Récupérée"
    else if status == CANCELLED then "Annulée"
    else status
  }

  const LabelledStatuses: set<string> := {PENDING, CONFIRMED, PREPARING, READY, PICKED_UP, CANCELLED}

  /** Reading a label back as the status it stands for. */
  function StatusOfLabel(l: string): string
  {
    if l == "En attente" then PENDING
    else if l == "Confirmée" then CONFIRMED
    else if l == "En préparation" then PREPARING
    else if l == "Prête" then READY
    else if l == "Récupérée" then PICKED_UP
    else if l == "Annulée" then CANCELLED
    else l
  }

  /** On the six labelled statuses the label reads back as the status, so the six labels are
      pairwise distinct; none of them spells a status. */
  lemma StatusLabelReadBack(a: string)
    requires a in LabelledStatuses
    ensures StatusOfLabel(StatusLabel(a)) == a
    ensures !IsReserved(StatusLabel(a))
  {
    var la := StatusLabel(a);
    if a == PENDING {
      assert la == "En attente";
    } else if a == CONFIRMED {
      assert la == "Confirmée" && la != "En attente";
    } else if a == PREPARING {
      assert la == "En préparation" && la[3] != "Confirmée"[3];
    } else if a == READY {
      assert la == "Prête";
    } else if a == PICKED_UP {
      assert la == "Récupérée" && la[0] != "Confirmée"[0];
    } else {
      assert la == "Annulée";
    }
    assert |la| > 0 && 'A' <= la[0] <= 'Z';
    assert forall s :: IsReserved(s) ==> |s| > 0 && 'a' <= s[0] <= 'z';
  }

  lemma StatusLabelsDistinct(a: string, b: string)
    requires a in LabelledStatuses && b in LabelledStatuses
    requires StatusLabel(a) == StatusLabel(b)
    ensures a == b
  {
    StatusLabelReadBack(a);
    StatusLabelReadBack(b);
  }

  /** `getStatusLabel` as the code evaluates it: the `PICKED_UP` case compares against
      `undefined` and never matches. */
  function StatusLabelAsWritten(status: string): (l: string)
    ensures status != PICKED_UP ==> l == StatusLabel(status)
  {
    if status == PENDING then "En attente"
    else if status == CONFIRMED then "Confirmée"
    else if status == PREPARING then "En préparation"
    else if status == READY then "Prête"
    else if status == CANCELLED then "Annulée"
    else status
  }

  /** As written, a picked-up order shows its raw status instead of "Récupérée". */
  lemma PickedUpLabelAsWritten()
    ensures StatusLabelAsWritten(PICKED_UP) == "picked_up"
    ensures StatusLabel(PICKED_UP) == "Récupérée"
  {
  }

  function HasStatut(status: string): Commande -> bool
  {
    (o: Commande) => o.statut == status
  }

  /** `filteredOrders`. */
  function FilterOrders(orders: seq<Commande>, selected: string): (r: seq<Commande>)
    ensures selected == AllStatuses ==> r == orders
    ensures selected != AllStatuses ==>
      (forall i :: 0 <= i < |r| ==> r[i].statut == selected) &&
      (forall o :: o in r <==> o in orders && o.statut == selected)
  {
    if selected == AllStatuses then orders else Filter(HasStatut(selected), orders)
  }

  /** The count on a status button. */
  function CountWithStatus(orders: seq<Commande>, status: string): (n: nat)
    ensures n <= |orders|
  {
    CountWhere(HasStatut(status), orders)
  }

  /** Each status button's count is the length of the list that button selects. */
  lemma CountsMatchFilter(orders: seq<Commande>, status: string)
    requires status != AllStatuses
    ensures CountWithStatus(orders, status) == |FilterOrders(orders, status)|
  {
  }

  /** The four status counts together never exceed the "Toutes" count: no order is counted
      under two statuses. */
  lemma {:induction false} CountsWithinTotal(orders: seq<Commande>)
    ensures CountWithStatus(orders, PENDING) + CountWithStatus(orders, CONFIRMED) +
            CountWithStatus(orders, PREPARING) + CountWithStatus(orders, READY) <= |orders|
  {
    if orders != [] {
      var n := |orders|;
      var init, last := orders[..n - 1], orders[n - 1];
      assert orders == init + [last];
      CountsWithinTotal(init);
      FilterSnoc(HasStatut(PENDING), init, last);
      FilterSnoc(HasStatut(CONFIRMED), init, last);
      FilterSnoc(HasStatut(PREPARING), init, last);
      FilterSnoc(HasStatut(READY), init, last);
    }
  }

  /** The empty-list message. */
  function EmptyMessage(selected: string): (m: string)
    ensures selected == AllStatuses ==> m == "Aucune commande pour le moment"
    ensures selected != AllStatuses ==> m == "Aucune commande " + Lower(StatusLabel(selected))
  {
    if selected == AllStatuses then "Aucune commande pour le moment"
    else "Aucune commande " + Lower(StatusLabel(selected))
  }

  /** The selections that have their own wording: "all" and the labelled statuses. */
  const WordedSelections: set<string> := LabelledStatuses + {AllStatuses}

  /** The length of each worded message and its first character after "Aucune commande ". */
  lemma EmptyMessageShape(selected: string)
    requires selected in WordedSelections
    ensures selected == AllStatuses ==> |EmptyMessage(selected)| == 30 && EmptyMessage(selected)[16] == 'p'
    ensures selected == PENDING ==> |EmptyMessage(selected)| == 26 && EmptyMessage(selected)[16] == 'e'
    ensures selected == CONFIRMED ==> |EmptyMessage(selected)| == 25 && EmptyMessage(selected)[16] == 'c'
    ensures selected == PREPARING ==> |EmptyMessage(selected)| == 30 && EmptyMessage(selected)[16] == 'e'
    ensures selected == READY ==> |EmptyMessage(selected)| == 21 && EmptyMessage(selected)[16] == 'p'
    ensures selected == PICKED_UP ==> |EmptyMessage(selected)| == 25 && EmptyMessage(selected)[16] == 'r'
    ensures selected == CANCELLED ==> |EmptyMessage(selected)| == 23 && EmptyMessage(selected)[16] == 'a'
  {
    if selected != AllStatuses {
      var shown := StatusLabel(selected);
      var m := EmptyMessage(selected);
      assert m[16] == Lower(shown)[0] == LowerChar(shown[0]);
    }
  }

  /** Reading a worded empty-list message back as the selection it was written for, from its
      length and its first character after "Aucune commande ". */
  function SelectionOfMessage(m: string): string
  {
    if |m| <= 16 then m
    else if |m| == 30 && m[16] == 'p' then AllStatuses
    else if |m| == 26 then PENDING
    else if |m| == 25 && m[16] == 'c' then CONFIRMED
    else if |m| == 30 then PREPARING
    else if |m| == 21 then READY
    else if |m| == 25 then PICKED_UP
    else CANCELLED
  }

  /** Every worded message reads back as its selection. */
  lemma EmptyMessageReadBack(selected: string)
    requires selected in WordedSelections
    ensures SelectionOfMessage(EmptyMessage(selected)) == selected
  {
    EmptyMessageShape(selected);
  }

  /** The empty-list message tells the selections apart: two worded selections with the same
      message are the same selection, and no status message reads like the "all" message. */
  lemma EmptyMessagesDistinct(a: string, b: string)
    requires a in WordedSelections && b in WordedSelections
    requires EmptyMessage(a) == EmptyMessage(b)
    ensures a == b
  {
    EmptyMessageReadBack(a);
    EmptyMessageReadBack(b);
  }

  /** The fixed product names. */
  const ProductNames: map<string, string> := map[
    "burger-1" := "Burger Classic",
    "fries-1" := "Frites",
    "pizza-1" := "Pizza Margherita",
    "salad-1" := "Salade César",
    "drink-1" := "Boisson"]

  /** `getProductName`: the table's name for a known product, else "Produit <id>". */
  function ProductName(produitId: string): (name: string)
    ensures produitId in ProductNames ==> name == ProductNames[produitId]
    ensures produitId !in ProductNames ==> name == "Produit " + produitId
    ensures name != ""
  {
    if produitId in ProductNames && ProductNames[produitId] != "" then ProductNames[produitId]
    else "Produit " + produitId
  }

  /** The action buttons of one order: the panel's transitions, with shorter captions for
      the first two, disabled while the order's id is in the updating set. */
  function OrderButtons(order: Commande, updating: set<string>): (bs: seq<OrderActions.Button>)
    ensures forall b :: b in bs ==> (b.disabled <==> order.id in updating)
    ensures (set b | b in bs :: b.target) == OrderActions.Targets(order.statut)
  {
    var busy := order.id in updating;
    OrderActions.TransitionTable(order.statut);
    if order.statut == PENDING then
      var bs := [OrderActions.ButtonFor(CONFIRMED, "Confirmer", "Confirmation...", busy),
                 OrderActions.ButtonFor(CANCELLED, "Refuser", "Annulation...", busy)];
      assert (set b | b in bs :: b.target) == {CONFIRMED, CANCELLED} by {
        assert bs[0].target == CONFIRMED && bs[1].target == CANCELLED;
      }
      bs
    else if order.statut == CONFIRMED then
      var bs := [OrderActions.ButtonFor(PREPARING, "Commencer la préparation", "Démarrage...", busy)];
      assert bs[0].target == PREPARING;
      bs
    else if order.statut == PREPARING then
      var bs := [OrderActions.ButtonFor(READY, "Marquer comme prête", "Finalisation...", busy)];
      assert bs[0].target == READY;
      bs
    else []
  }

  const LoadError: string := "Erreur lors du chargement des commandes"

  /** `user?.id && token`: a signed-in user with an id, and a token. */
  predicate HasSession(user: Option<AuthUser>, token: Option<string>)
  {
    user.Some? && user.value.id != "" && token.Some? && token.value != ""
  }

  class Dashboard {
    var orders: seq<Commande>
    var loading: bool
    var error: string
    var selectedStatus: string
    var updatingOrders: set<string>

    constructor ()
      ensures orders == [] && loading && error == "" && selectedStatus == AllStatuses && updatingOrders == {}
    {
      orders := [];
      loading := true;
      error := "";
      selectedStatus := AllStatuses;
      updatingOrders := {};
    }

    /** The list currently displayed. */
    function Displayed(): seq<Commande>
      reads this
    {
      FilterOrders(orders, selectedStatus)
    }

    method SelectStatus(status: string)
      modifies this
      ensures selectedStatus == status
      ensures orders == old(orders) && loading == old(loading) && error == old(error)
      ensures updatingOrders == old(updatingOrders)
    {
      selectedStatus := status;
    }

    method DismissError()
      modifies this
      ensures error == ""
      ensures orders == old(orders) && loading == old(loading) && selectedStatus == old(selectedStatus)
      ensures updatingOrders == old(updatingOrders)
    {
      error := "";
    }

    /** `loadRestaurantOrders`: nothing without a user id and a token; otherwise the list is
        replaced by the service's list or the error is set, and loading ends either way. */
    method LoadOrders(user: Option<AuthUser>, token: Option<string>, answer: Result<seq<Commande>, Thrown>)
      modifies this
      ensures !HasSession(user, token) ==>
        orders == old(orders) && loading == old(loading) && error == old(error)
      ensures HasSession(user, token) ==>
        !loading &&
        (answer.Ok? ==> orders == answer.value && error == "") &&
        (answer.Err? ==> orders == old(orders) && error == MessageOr(answer.error, LoadError))
      ensures selectedStatus == old(selectedStatus) && updatingOrders == old(updatingOrders)
    {
      if !HasSession(user, token) {
        return;
      }
      loading := true;
      error := "";
      match answer {
        case Ok(list) => orders := list;
        case Err(thrown) => error := MessageOr(thrown, LoadError);
      }
      loading := false;
    }

    /** The first step of `updateOrderStatus`: the order joins the updating set. */
    method BeginUpdate(orderId: string)
      modifies this
      ensures updatingOrders == old(updatingOrders) + {orderId}
      ensures orders == old(orders) && loading == old(loading) && error == old(error)
      ensures selectedStatus == old(selectedStatus)
    {
      updatingOrders := updatingOrders + {orderId};
    }

    /** The `finally` of `updateOrderStatus`: only that order leaves the updating set. */
    method EndUpdate(orderId: string)
      modifies this
      ensures updatingOrders == old(updatingOrders) - {orderId}
      ensures orders == old(orders) && loading == old(loading) && error == old(error)
      ensures selectedStatus == old(selectedStatus)
    {
      updatingOrders := updatingOrders - {orderId};
    }

    /** `updateOrderStatus(orderId, target)`. The dispatch replies go to the service; on success
        the list is reloaded with `reload`, on failure the service's message is shown (the
        service only throws `Error`s, so the generic fallback message is never used). The
        order is marked as updating for the whole call and unmarked at the end, other marks
        untouched. */
    method UpdateOrderStatus(orderId: string, target: string, user: Option<AuthUser>, token: Option<string>,
                             patched: OrderService.Reply<()>, fetched: OrderService.Reply<Commande>,
                             updated: OrderService.Reply<()>, reload: Result<seq<Commande>, Thrown>)
      returns (run: OrderService.DispatchRun)
      modifies this
      ensures run == OrderService.UpdateRestaurantOrderStatus(target, patched, fetched, updated)
      ensures updatingOrders == old(updatingOrders) - {orderId}
      ensures run.outcome.Fail? ==> error == run.outcome.error && orders == old(orders) && loading == old(loading)
      ensures run.outcome.Pass? && !HasSession(user, token) ==>
        orders == old(orders) && loading == old(loading) && error == old(error)
      ensures run.outcome.Pass? && HasSession(user, token) ==>
        !loading &&
        (reload.Ok? ==> orders == reload.value && error == "") &&
        (reload.Err? ==> orders == old(orders) && error == MessageOr(reload.error, LoadError))
      ensures selectedStatus == old(selectedStatus)
    {
      BeginUpdate(orderId);
      run := OrderService.UpdateRestaurantOrderStatus(target, patched, fetched, updated);
      match run.outcome {
        case Pass => LoadOrders(user, token, reload);
        case Fail(message) => error := message;
      }
      EndUpdate(orderId);
    }
  }
}
