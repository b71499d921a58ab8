/** The ordering service (src/services/orderService.ts). Each endpoint call is one `fetch`
    whose reply is a parameter; the model keeps what the service decides around it: the
    mapping of HTTP statuses to errors, the message each `catch` clause builds, the filters of
    the per-client and per-restaurant queries, the default status of a new order, the cancel
    rule and the dispatch of a restaurateur's target status to an endpoint. */
module OrderService {
  import opened Wrappers
  import opened Seqs
  import opened Text
  import opened Types
  import opened ApiConfig

  /** What one `fetch` gives back: a response with its HTTP status and decoded body, or a
      rejected request with the value it was rejected with. */
  datatype Reply<T> = Response(status: nat, body: T) | Rejected(reason: Caught)

  /** `response.ok`. */
  predicate IsOk(status: nat)
  {
    200 <= status <= 299
  }

  /** The endpoints the service calls. */
  datatype Endpoint = GetAll | GetOne | Create | Update | Delete | Accept | Prepare | MarkReady

  const NotFound: string := "Commande non trouvée"
  const InvalidData: string := "Données de commande invalides"
  const NotCancellable: string := "Cette commande ne peut pas être annulée"

  function HttpError(status: nat): (m: string)
    ensures |m| > 13 && m[..13] == "Erreur HTTP: " && m[13..] == NatToString(status)
  {
    "Erreur HTTP: " + NatToString(status)
  }

  /** The endpoints that report a missing order by name: every one that addresses one order. */
  predicate ReportsNotFound(endpoint: Endpoint)
  {
    endpoint != GetAll && endpoint != Create
  }

  /** The error an endpoint throws for a response that is not ok. */
  function StatusError(endpoint: Endpoint, status: nat): (m: string)
    ensures status == 404 && ReportsNotFound(endpoint) ==> m == NotFound
    ensures status == 400 && endpoint == Create ==> m == InvalidData
    ensures !(status == 404 && ReportsNotFound(endpoint)) && !(status == 400 && endpoint == Create) ==>
      m == HttpError(status)
  {
    if status == 404 && ReportsNotFound(endpoint) then NotFound
    else if status == 400 && endpoint == Create then InvalidData
    else HttpError(status)
  }

  /** The prefix each endpoint's `catch` clause puts before the message it caught. */
  function Context(endpoint: Endpoint): string
  {
    match endpoint
    case GetAll => "Erreur lors de la récupération des commandes: "
    case GetOne => "Erreur lors de la récupération de la commande: "
    case Create => "Erreur lors de la création de la commande: "
    case Update => "Erreur lors de la mise à jour de la commande: "
    case Delete => "Erreur lors de la suppression de la commande: "
    case Accept => "Erreur lors de l'acceptation de la commande: "
    case Prepare => "Erreur lors du démarrage de la préparation: "
    case MarkReady => "Erreur lors de la finalisation de la commande: "
  }

  /** One endpoint call: the fetch, the status check and the `catch` that rewraps whatever was
      thrown with the endpoint's prefix. */
  function Call<T>(endpoint: Endpoint, reply: Reply<T>): (r: Result<T, string>)
    ensures r.Ok? <==> reply.Response? && IsOk(reply.status)
    ensures r.Ok? ==> r.value == reply.body
    ensures reply.Response? && !IsOk(reply.status) ==>
      r == Err(Context(endpoint) + StatusError(endpoint, reply.status))
    ensures reply.Rejected? ==> r == Err(Context(endpoint) + HandleApiError(reply.reason))
  {
    match reply
    case Rejected(reason) => Err(Context(endpoint) + HandleApiError(reason))
    case Response(status, body) =>
      if IsOk(status) then Ok(body)
      else
        ErrorMessageReadBack(StatusError(endpoint, status));
        Err(Context(endpoint) + HandleApiError(ErrorWith(StatusError(endpoint, status))))
  }

  /** For an endpoint about one order, a failed response reads "Commande non trouvée" exactly
      when its status is 404. */
  lemma NotFoundExactlyOn404<T>(endpoint: Endpoint, status: nat, body: T)
    requires ReportsNotFound(endpoint) && !IsOk(status)
    ensures Call(endpoint, Response(status, body)) == Err(Context(endpoint) + NotFound) <==> status == 404
  {
    if status != 404 {
      var m := StatusError(endpoint, status);
      assert m == HttpError(status);
      assert m[0] == 'E' && NotFound[0] == 'C';
      var e := Call(endpoint, Response(status, body)).error;
      assert e == Context(endpoint) + m;
      assert e[|Context(endpoint)|..] == m;
      assert (Context(endpoint) + NotFound)[|Context(endpoint)|..] == NotFound;
    }
  }

  /** Only the creation endpoint reports invalid data, and only on a 400. */
  lemma InvalidDataOnlyOnCreate<T>(endpoint: Endpoint, status: nat, body: T)
    requires !IsOk(status)
    ensures StatusError(endpoint, status) == InvalidData <==> endpoint == Create && status == 400
  {
    var m := StatusError(endpoint, status);
    if !(endpoint == Create && status == 400) {
      if status == 404 && ReportsNotFound(endpoint) {
        assert m[0] == 'C' && InvalidData[0] == 'D';
      } else {
        assert m[0] == 'E' && InvalidData[0] == 'D';
      }
    }
  }

  function IsClient(clientId: string): Commande -> bool
  {
    (c: Commande) => c.clientId == clientId
  }

  function IsRestaurant(restaurantId: string): Commande -> bool
  {
    (c: Commande) => c.restaurantId == restaurantId
  }

  /** `getCommandesByClientId`: the orders of all orders whose client is `clientId`. */
  function GetCommandesByClientId(clientId: string, reply: Reply<seq<Commande>>): (r: Result<seq<Commande>, string>)
    ensures r.Ok? <==> Call(GetAll, reply).Ok?
    ensures r.Ok? ==>
      (forall i :: 0 <= i < |r.value| ==> r.value[i].clientId == clientId) &&
      (forall c :: c in r.value <==> c in reply.body && c.clientId == clientId)
    ensures r.Err? ==> r.error == "Erreur lors de la récupération des commandes du client: " + Call(GetAll, reply).error
  {
    match Call(GetAll, reply)
    case Ok(all) => Ok(Filter(IsClient(clientId), all))
    case Err(m) => Err("Erreur lors de la récupération des commandes du client: " + m)
  }

  /** `getCommandesByRestaurantId`: the orders whose restaurant is `restaurantId`. */
  function GetCommandesByRestaurantId(restaurantId: string, reply: Reply<seq<Commande>>): (r: Result<seq<Commande>, string>)
    ensures r.Ok? <==> Call(GetAll, reply).Ok?
    ensures r.Ok? ==>
      (forall i :: 0 <= i < |r.value| ==> r.value[i].restaurantId == restaurantId) &&
      (forall c :: c in r.value <==> c in reply.body && c.restaurantId == restaurantId)
    ensures r.Err? ==> r.error == "Erreur lors de la récupération des commandes du restaurant: " + Call(GetAll, reply).error
  {
    match Call(GetAll, reply)
    case Ok(all) => Ok(Filter(IsRestaurant(restaurantId), all))
    case Err(m) => Err("Erreur lors de la récupération des commandes du restaurant: " + m)
  }

  /** The queries keep the service's order: on a list made of two parts, the answer is the
      answer on the first part followed by the answer on the second. */
  lemma QueriesKeepOrder(id: string, a: seq<Commande>, b: seq<Commande>, status: nat)
    requires IsOk(status)
    ensures GetCommandesByClientId(id, Response(status, a + b)).value ==
      GetCommandesByClientId(id, Response(status, a)).value + GetCommandesByClientId(id, Response(status, b)).value
    ensures GetCommandesByRestaurantId(id, Response(status, a + b)).value ==
      GetCommandesByRestaurantId(id, Response(status, a)).value + GetCommandesByRestaurantId(id, Response(status, b)).value
  {
    FilterAppend(IsClient(id), a, b);
    FilterAppend(IsRestaurant(id), a, b);
  }

  /** The body `createCommande` posts: the request, a creation date, and the status it carries
      when that is a non-empty string, else pending. */
  datatype NewCommande = NewCommande(
    clientId: string,
    restaurantId: string,
    produits: seq<LigneCommande>,
    prixTotal: int,
    dateCreation: string,
    statut: string)

  function DefaultStatut(statut: Option<string>): (s: string)
    ensures s != ""
    ensures statut.Some? && statut.value != "" ==> s == statut.value
    ensures statut.None? || statut.value == "" ==> s == PENDING
  {
    if statut.Some? && statut.value != "" then statut.value else PENDING
  }

  /** `newCommande`, with `now` the ISO creation date. */
  function NewCommandeBody(request: CreateCommandeRequest, now: string): (body: NewCommande)
    ensures body.clientId == request.clientId && body.restaurantId == request.restaurantId
    ensures body.produits == request.produits && body.prixTotal == request.prixTotal
    ensures body.dateCreation == now && body.statut == DefaultStatut(request.statut)
  {
    NewCommande(request.clientId, request.restaurantId, request.produits, request.prixTotal, now,
                DefaultStatut(request.statut))
  }

  /** An order created without a status is stored as pending; one with a status keeps it. */
  lemma CreatedStatut(request: CreateCommandeRequest, now: string)
    ensures Parse(NewCommandeBody(request, now).statut) == Pending <==>
      request.statut.None? || request.statut.value == "" || request.statut.value == PENDING
  {
  }

  /** `createCommande`. */
  function CreateCommande(reply: Reply<Commande>): (r: Result<Commande, string>)
    ensures r == Call(Create, reply)
    ensures reply.Response? && reply.status == 400 ==> r == Err(Context(Create) + InvalidData)
  {
    Call(Create, reply)
  }

  /** The update body of `updateCommandeStatus`: the status and nothing else. */
  function StatusUpdate(statut: string): (u: UpdateCommandeRequest)
    ensures u.statut == Some(statut)
    ensures u.clientId.None? && u.restaurantId.None? && u.dateCreation.None?
    ensures u.produits.None? && u.prixTotal.None?
  {
    UpdateCommandeRequest(None, None, None, None, None, Some(statut))
  }

  const StatusPrefix: string := "Erreur lors de la mise à jour du statut: "

  /** `updateCommandeStatus`: the update endpoint with the status-only body; its failure gets
      a second prefix. */
  function UpdateCommandeStatus(reply: Reply<()>): (r: Outcome<string>)
    ensures r.Pass? <==> reply.Response? && IsOk(reply.status)
    ensures r.Fail? ==> r.error == StatusPrefix + Call(Update, reply).error
  {
    match Call(Update, reply)
    case Ok(_) => Pass
    case Err(m) => Fail(StatusPrefix + m)
  }

  /** `canCancelCommande`: pending, confirmed and preparing orders can be cancelled. */
  function CanCancelCommande(c: Commande): (b: bool)
    ensures b <==> c.statut == PENDING || c.statut == CONFIRMED || c.statut == PREPARING
  {
    c.statut in [PENDING, CONFIRMED, PREPARING]
  }

  /** The cancel rule read on the status type: exactly the first three statuses, and no free
      text. */
  lemma CancellableStatuses(c: Commande)
    ensures CanCancelCommande(c) <==> Parse(c.statut) in {Pending, Confirmed, Preparing}
  {
  }

  /** One run of `cancelCommande`: the update it sent, if any, and how it ended. */
  datatype CancelRun = CancelRun(update: Option<UpdateCommandeRequest>, outcome: Outcome<string>)

  const CancelPrefix: string := "Erreur lors de l'annulation de la commande: "

  /** `cancelCommande`: fetch the order, refuse if it cannot be cancelled, else set its status
      to cancelled. `fetched` answers the fetch and `updated` the update. */
  function CancelCommande(fetched: Reply<Commande>, updated: Reply<()>): (run: CancelRun)
    ensures run.update.Some? ==>
      Call(GetOne, fetched).Ok? && CanCancelCommande(fetched.body) && run.update == Some(StatusUpdate(CANCELLED))
    ensures Call(GetOne, fetched).Ok? && !CanCancelCommande(fetched.body) ==>
      run == CancelRun(None, Fail(CancelPrefix + NotCancellable))
    ensures Call(GetOne, fetched).Err? ==>
      run == CancelRun(None, Fail(CancelPrefix + Call(GetOne, fetched).error))
    ensures Call(GetOne, fetched).Ok? && CanCancelCommande(fetched.body) ==>
      run.update == Some(StatusUpdate(CANCELLED))
    ensures Call(GetOne, fetched).Ok? && CanCancelCommande(fetched.body) && UpdateCommandeStatus(updated).Fail? ==>
      run.outcome == Fail(CancelPrefix + UpdateCommandeStatus(updated).error)
    ensures run.outcome.Pass? <==>
      Call(GetOne, fetched).Ok? && CanCancelCommande(fetched.body) && UpdateCommandeStatus(updated).Pass?
  {
    match Call(GetOne, fetched)
    case Err(m) => CancelRun(None, Fail(CancelPrefix + m))
    case Ok(c) =>
      if !CanCancelCommande(c) then
        ErrorMessageReadBack(NotCancellable);
        CancelRun(None, Fail(CancelPrefix + HandleApiError(ErrorWith(NotCancellable))))
      else
        match UpdateCommandeStatus(updated)
        case Pass => CancelRun(Some(StatusUpdate(CANCELLED)), Pass)
        case Fail(m) => CancelRun(Some(StatusUpdate(CANCELLED)), Fail(CancelPrefix + m))
  }

  /** The endpoints a restaurateur's status change can lead to. */
  datatype Action = AcceptAction | PrepareAction | ReadyAction | CancelAction

  /** The status each action sets. */
  function TargetOf(a: Action): (s: string)
  {
    match a
    case AcceptAction => CONFIRMED
    case PrepareAction => PREPARING
    case ReadyAction => READY
    case CancelAction => CANCELLED
  }

  /** The `switch` of `updateRestaurantOrderStatus`. */
  function ActionFor(target: string): (r: Result<Action, string>)
    ensures r.Ok? <==> target in {CONFIRMED, PREPARING, READY, CANCELLED}
    ensures r.Ok? ==> TargetOf(r.value) == target
    ensures r.Err? ==> r.error == "Statut non supporté: " + target
  {
    if target == CONFIRMED then Ok(AcceptAction)
    else if target == PREPARING then Ok(PrepareAction)
    else if target == READY then Ok(ReadyAction)
    else if target == CANCELLED then Ok(CancelAction)
    else Err("Statut non supporté: " + target)
  }

  /** Each action is the dispatch of exactly one status. */
  lemma ActionForTargetOf(a: Action)
    ensures ActionFor(TargetOf(a)) == Ok(a)
  {
  }

  /** One run of `updateRestaurantOrderStatus`: the action dispatched, if any, and how it
      ended. */
  datatype DispatchRun = DispatchRun(called: Option<Action>, outcome: Outcome<string>)

  const DispatchPrefix: string := "Erreur lors du changement de statut: "

  /** The endpoint of each single-request action. */
  function EndpointOf(a: Action): Endpoint
  {
    match a
    case AcceptAction => Accept
    case PrepareAction => Prepare
    case ReadyAction => MarkReady
    case CancelAction => Update
  }

  /** `updateRestaurantOrderStatus(id, target)`. `patched` answers an accept, prepare or ready
      request; `fetched` and `updated` answer the two requests of a cancellation. */
  function UpdateRestaurantOrderStatus(target: string, patched: Reply<()>, fetched: Reply<Commande>,
                                       updated: Reply<()>): (run: DispatchRun)
    ensures ActionFor(target).Err? ==>
      run == DispatchRun(None, Fail(DispatchPrefix + ActionFor(target).error))
    ensures ActionFor(target).Ok? ==> run.called == Some(ActionFor(target).value)
    ensures run.called.Some? ==> TargetOf(run.called.value) == target
    ensures run.called == Some(CancelAction) ==>
      (run.outcome.Pass? <==> CancelCommande(fetched, updated).outcome.Pass?)
    ensures run.called.Some? && run.called != Some(CancelAction) ==>
      (run.outcome.Pass? <==> patched.Response? && IsOk(patched.status))
    ensures run.outcome.Fail? ==>
      |run.outcome.error| >= |DispatchPrefix| && run.outcome.error[..|DispatchPrefix|] == DispatchPrefix
  {
    match ActionFor(target)
    case Err(m) =>
      ErrorMessageReadBack(m);
      DispatchRun(None, Fail(DispatchPrefix + HandleApiError(ErrorWith(m))))
    case Ok(a) =>
      var outcome :=
        if a == CancelAction then CancelCommande(fetched, updated).outcome
        else match Call(EndpointOf(a), patched) case Ok(_) => Pass case Err(m) => Fail(m);
      DispatchRun(Some(a), match outcome case Pass => Pass case Fail(m) => Fail(DispatchPrefix + m))
  }
}
