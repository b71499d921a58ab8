/** The courier's dashboard (src/routes/delivery/dashboard.tsx): the status texts and colours
    of deliveries, the delivered count and estimated earnings, the availability switch, and
    the loading of the two delivery lists. The delivery service's replies are parameters. */
module DeliveryDashboard {
  import opened Wrappers
  import opened Seqs
  import opened Types
  import RestaurantDashboard

  /** `getStatusText`: French texts for seven statuses; any other value, including an absent
      status, is returned as it is. */
  function StatusText(status: Option<string>): (text: Option<string>)
    ensures status.None? ==> text.None?
    ensures status.Some? ==> text.Some?
    ensures status.Some? &&
            Parse(status.value) !in {Pending, Confirmed, Preparing, Ready, OnTheWay, Delivered, Cancelled} ==>
              text == status
  {
    match status
    case None => None
    case Some(s) =>
      Some(if s == PENDING then "En attente"
           else if s == CONFIRMED then "Confirmée"
           else if s == PREPARING then "En préparation"
           else if s == READY then "Prête"
           else if s == ON_THE_WAY then "En livraison"
           else if s == DELIVERED then "Livrée"
           else if s == CANCELLED then "Annulée"
           else s)
  }

  const TextedStatuses: set<string> := {PENDING, CONFIRMED, PREPARING, READY, ON_THE_WAY, DELIVERED, CANCELLED}

  /** Reading a status text back as the status it stands for. */
  function StatusOfText(t: string): string
  {
    if t == "En attente" then PENDING
    else if t == "Confirmée" then CONFIRMED
    else if t == "En préparation" then PREPARING
    else if t == "Prête" then READY
    else if t == "En livraison" then ON_THE_WAY
    else if t == "Livrée" then DELIVERED
    else if t == "Annulée" then CANCELLED
    else t
  }

  /** On the seven handled statuses the text reads back as the status, so the seven texts are
      pairwise distinct. */
  lemma StatusTextReadBack(s: string)
    requires s in TextedStatuses
    ensures StatusOfText(StatusText(Some(s)).value) == s
  {
    var t := StatusText(Some(s)).value;
    if s == PENDING {
      assert t == "En attente";
    } else if s == CONFIRMED {
      assert t == "Confirmée" && t != "En attente";
    } else if s == PREPARING {
      assert t == "En préparation" && t[3] != "Confirmée"[3];
    } else if s == READY {
      assert t == "Prête";
    } else if s == ON_THE_WAY {
      assert t == "En livraison" && t[3] != "En attente"[3] && t[3] != "En préparation"[3];
    } else if s == DELIVERED {
      assert t == "Livrée";
    } else {
      assert t == "Annulée";
    }
  }

  lemma StatusTextsDistinct(a: string, b: string)
    requires a in TextedStatuses && b in TextedStatuses
    requires StatusText(Some(a)) == StatusText(Some(b))
    ensures a == b
  {
    StatusTextReadBack(a);
    StatusTextReadBack(b);
  }

  /** The courier and the restaurateur see the same words for the five statuses both views
      name. */
  lemma SharedTextsAgree(s: string)
    requires s in {PENDING, CONFIRMED, PREPARING, READY, CANCELLED}
    ensures StatusText(Some(s)) == Some(RestaurantDashboard.StatusLabel(s))
  {
  }

  datatype Tone = Gray | Blue | Yellow | Green | Purple | Red

  /** `getStatusColor`. */
  function StatusColor(status: Option<string>): (tone: Tone)
    ensures status.Some? && Parse(status.value) == Confirmed ==> tone == Blue
    ensures status.Some? && Parse(status.value) == Preparing ==> tone == Yellow
    ensures status.Some? && Parse(status.value) in {Ready, Delivered} ==> tone == Green
    ensures status.Some? && Parse(status.value) == OnTheWay ==> tone == Purple
    ensures status.Some? && Parse(status.value) == Cancelled ==> tone == Red
    ensures status.None? || Parse(status.value) !in {Confirmed, Preparing, Ready, OnTheWay, Delivered, Cancelled} ==>
      tone == Gray
  {
    match status
    case None => Gray
    case Some(s) =>
      if s == PENDING then Gray
      else if s == CONFIRMED then Blue
      else if s == PREPARING then Yellow
      else if s == READY then Green
      else if s == ON_THE_WAY then Purple
      else if s == DELIVERED then Green
      else if s == CANCELLED then Red
      else Gray
  }

  function IsDelivered(l: Livraison): bool
  {
    l.status == Some(DELIVERED)
  }

  /** "Livrées aujourd'hui". */
  function DeliveredCount(mine: seq<Livraison>): (n: nat)
    ensures n <= |mine|
    ensures n == |Filter(IsDelivered, mine)|
  {
    CountWhere(IsDelivered, mine)
  }

  /** Σ totalAmount. */
  function AmountSum(ls: seq<Livraison>): real
  {
    if ls == [] then 0.0 else AmountSum(ls[..|ls| - 1]) + ls[|ls| - 1].totalAmount
  }

  /** The `reduce` of "Gains estimés": a tenth of each amount, added up. */
  function TenthsSum(ls: seq<Livraison>): real
  {
    if ls == [] then 0.0 else TenthsSum(ls[..|ls| - 1]) + ls[|ls| - 1].totalAmount * 0.1
  }

  function EstimatedEarnings(mine: seq<Livraison>): real
  {
    TenthsSum(Filter(IsDelivered, mine))
  }

  lemma {:induction false} TenthsSumIsTenth(ls: seq<Livraison>)
    ensures TenthsSum(ls) == AmountSum(ls) / 10.0
  {
    if ls != [] {
      TenthsSumIsTenth(ls[..|ls| - 1]);
    }
  }

  /** The estimated earnings are 10% of the amounts of the delivered deliveries; undelivered
      ones do not count. */
  lemma EarningsAreTenPercent(mine: seq<Livraison>)
    ensures EstimatedEarnings(mine) == AmountSum(Filter(IsDelivered, mine)) / 10.0
  {
    TenthsSumIsTenth(Filter(IsDelivered, mine));
  }

  /** Both figures grow by one delivery's worth exactly when a delivered delivery is added. */
  lemma FiguresAfterOneMore(mine: seq<Livraison>, l: Livraison)
    ensures DeliveredCount(mine + [l]) == DeliveredCount(mine) + (if IsDelivered(l) then 1 else 0)
    ensures EstimatedEarnings(mine + [l]) == EstimatedEarnings(mine) + (if IsDelivered(l) then l.totalAmount * 0.1 else 0.0)
  {
    FilterSnoc(IsDelivered, mine, l);
    var f := Filter(IsDelivered, mine);
    if IsDelivered(l) {
      assert Filter(IsDelivered, mine + [l]) == f + [l];
      assert (f + [l])[..|f + [l]| - 1] == f;
      assert TenthsSum(f + [l]) == TenthsSum(f) + l.totalAmount * 0.1;
    } else {
      assert Filter(IsDelivered, mine + [l]) == f;
    }
  }

  const LoadError: string := "Erreur lors du chargement des données"

  class Dashboard {
    var isAvailable: bool
    var availableLivraisons: seq<Livraison>
    var myLivraisons: seq<Livraison>
    var isLoading: bool
    var error: string

    constructor ()
      ensures !isAvailable && availableLivraisons == [] && myLivraisons == [] && isLoading && error == ""
    {
      isAvailable := false;
      availableLivraisons := [];
      myLivraisons := [];
      isLoading := true;
      error := "";
    }

    /** `handleAvailabilityToggle`: only the local flag flips, so two toggles restore it. */
    method ToggleAvailability()
      modifies this
      ensures isAvailable == !old(isAvailable)
      ensures availableLivraisons == old(availableLivraisons) && myLivraisons == old(myLivraisons)
      ensures isLoading == old(isLoading) && error == old(error)
    {
      isAvailable := !isAvailable;
    }

    /** `loadDashboardData`. Nothing happens without a user id and a token. Otherwise both lists
        are replaced when both requests succeed, and the error is set and the lists kept when
        either fails; loading ends in both cases. `answer` is the joint reply of the two
        requests. */
    method LoadDashboardData(user: Option<AuthUser>, token: Option<string>,
                             answer: Result<(seq<Livraison>, seq<Livraison>), Thrown>)
      modifies this
      ensures !(user.Some? && user.value.id != "" && token.Some? && token.value != "") ==>
        availableLivraisons == old(availableLivraisons) && myLivraisons == old(myLivraisons) &&
        isLoading == old(isLoading) && error == old(error)
      ensures user.Some? && user.value.id != "" && token.Some? && token.value != "" ==>
        !isLoading &&
        (answer.Ok? ==> availableLivraisons == answer.value.0 && myLivraisons == answer.value.1 && error == "") &&
        (answer.Err? ==>
           availableLivraisons == old(availableLivraisons) && myLivraisons == old(myLivraisons) &&
           error == MessageOr(answer.error, LoadError))
      ensures isAvailable == old(isAvailable)
    {
      if !(user.Some? && user.value.id != "" && token.Some? && token.value != "") {
        return;
      }
      isLoading := true;
      error := "";
      match answer {
        case Ok(lists) =>
          availableLivraisons := lists.0;
          myLivraisons := lists.1;
        case Err(thrown) =>
          error := MessageOr(thrown, LoadError);
      }
      isLoading := false;
    }
  }
}
