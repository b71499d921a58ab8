/** The restaurateur's action panel (src/components/restaurant/OrderActions.tsx): the buttons
    offered for each status, the badge shown instead for the final ones, and when the estimated
    remaining time is displayed. */
module OrderActions {
  import opened Wrappers
  import opened Types
  import StatusProgress
  import OrderService
  import opened Badges

  /** One action button: the status it requests, its caption, and whether it is disabled. */
  datatype Button = Button(target: string, caption: string, disabled: bool)

  /** What the panel shows: buttons, a badge instead of buttons, or nothing. */
  datatype Panel = Buttons(buttons: seq<Button>) | Badge(text: string, variant: BadgeVariant) | Empty

  function ButtonFor(target: string, idle: string, busy: string, isUpdating: bool): (b: Button)
    ensures b.target == target && b.disabled == isUpdating
    ensures b.caption == (if isUpdating then busy else idle)
  {
    Button(target, if isUpdating then busy else idle, isUpdating)
  }

  /** `renderActionButtons`. */
  function RenderActions(status: string, isUpdating: bool): (p: Panel)
    ensures p.Buttons? <==> status in {PENDING, CONFIRMED, PREPARING}
    ensures p.Badge? <==> status in {READY, PICKED_UP, CANCELLED}
    ensures p.Buttons? ==> forall b :: b in p.buttons ==> b.disabled == isUpdating
  {
    if status == PENDING then
      Buttons([ButtonFor(CONFIRMED, "Confirmer la commande", "Confirmation...", isUpdating),
               ButtonFor(CANCELLED, "Refuser la commande", "Annulation...", isUpdating)])
    else if status == CONFIRMED then
      Buttons([ButtonFor(PREPARING, "Commencer la préparation", "Démarrage...", isUpdating)])
    else if status == PREPARING then
      Buttons([ButtonFor(READY, "Marquer comme prête", "Finalisation...", isUpdating)])
    else if status == READY then Badge("En attente du livreur", Outline)
    else if status == PICKED_UP then Badge("Commande récupérée par le livreur", Outline)
    else if status == CANCELLED then Badge("Commande annulée", Destructive)
    else Empty
  }

  /** `renderActionButtons` as the code evaluates it: the `PICKED_UP` case compares against
      `undefined` and never matches, so a picked-up order falls to the default and the panel
      is empty. */
  function RenderActionsAsWritten(status: string, isUpdating: bool): (p: Panel)
    ensures status != PICKED_UP ==> p == RenderActions(status, isUpdating)
    ensures p.Badge? <==> status in {READY, CANCELLED}
  {
    if status == PENDING then
      Buttons([ButtonFor(CONFIRMED, "Confirmer la commande", "Confirmation...", isUpdating),
               ButtonFor(CANCELLED, "Refuser la commande", "Annulation...", isUpdating)])
    else if status == CONFIRMED then
      Buttons([ButtonFor(PREPARING, "Commencer la préparation", "Démarrage...", isUpdating)])
    else if status == PREPARING then
      Buttons([ButtonFor(READY, "Marquer comme prête", "Finalisation...", isUpdating)])
    else if status == READY then Badge("En attente du livreur", Outline)
    else if status == CANCELLED then Badge("Commande annulée", Destructive)
    else Empty
  }

  /** As written, a picked-up order shows neither buttons nor the "récupérée" badge. */
  lemma PickedUpPanelAsWritten(isUpdating: bool)
    ensures RenderActionsAsWritten(PICKED_UP, isUpdating) == Empty
    ensures RenderActions(PICKED_UP, isUpdating) == Badge("Commande récupérée par le livreur", Outline)
  {
  }

  /** The statuses the panel offers to move to from `status`. */
  function Targets(status: string): (ts: set<string>)
  {
    var p := RenderActions(status, false);
    if p.Buttons? then set b | b in p.buttons :: b.target else {}
  }

  /** The transition table: pending to confirmed or cancelled, confirmed to preparing,
      preparing to ready, and nothing from any other status. */
  lemma TransitionTable(status: string)
    ensures status == PENDING ==> Targets(status) == {CONFIRMED, CANCELLED}
    ensures status == CONFIRMED ==> Targets(status) == {PREPARING}
    ensures status == PREPARING ==> Targets(status) == {READY}
    ensures status !in {PENDING, CONFIRMED, PREPARING} ==> Targets(status) == {}
  {
    var p := RenderActions(status, false);
    if status == PENDING {
      assert p.buttons[0].target == CONFIRMED && p.buttons[1].target == CANCELLED;
    } else if status == CONFIRMED {
      assert p.buttons[0].target == PREPARING;
    } else if status == PREPARING {
      assert p.buttons[0].target == READY;
    }
  }

  /** Every offered move goes exactly one step forward in the progress bar, or to cancelled;
      none goes backward. */
  lemma ForwardOnly(status: string, target: string)
    requires target in Targets(status)
    ensures target == CANCELLED || StatusProgress.StepIndex(target) == StatusProgress.StepIndex(status) + 1
    ensures StatusProgress.StepIndex(status) >= 0
  {
    TransitionTable(status);
    StatusProgress.StepIndices();
    if status == PENDING {
      assert target == CONFIRMED || target == CANCELLED;
    } else if status == CONFIRMED {
      assert target == PREPARING;
    } else if status == PREPARING {
      assert target == READY;
    } else {
      assert false;
    }
  }

  /** Cancellation is offered only from pending, where the service also accepts it; and every
      offered target is one the service knows how to dispatch. */
  lemma OfferedMovesAreServiced(status: string, target: string, order: Commande)
    requires target in Targets(status) && order.statut == status
    ensures target == CANCELLED ==> status == PENDING && OrderService.CanCancelCommande(order)
    ensures OrderService.ActionFor(target).Ok?
  {
    TransitionTable(status);
  }

  /** While an update is running, every button of the panel is disabled. */
  lemma BusyDisablesAll(status: string, b: Button)
    requires RenderActions(status, true).Buttons? && b in RenderActions(status, true).buttons
    ensures b.disabled
  {
  }

  /** The estimated remaining time line: a positive estimate, on an order neither picked up nor
      cancelled. */
  function EstimatedTimeShown(estimatedTime: int, status: string): (shown: bool)
    ensures shown ==> estimatedTime > 0
    ensures estimatedTime > 0 ==> (shown <==> Parse(status) !in {PickedUp, Cancelled})
  {
    estimatedTime > 0 && status != PICKED_UP && status != CANCELLED
  }

  /** The same condition as the code evaluates it: `UnifiedOrderStatus.PICKED_UP` is not a
      declared member and reads as `undefined`, which no status string equals. */
  function EstimatedTimeShownAsWritten(estimatedTime: int, status: string): (shown: bool)
    ensures shown <==> estimatedTime > 0 && status != CANCELLED
  {
    var pickedUp: Option<string> := None;
    estimatedTime > 0 && Some(status) != pickedUp && status != CANCELLED
  }

  /** As written, a picked-up order with a positive estimate still shows the remaining time. */
  lemma PickedUpStillShowsTime(estimatedTime: int)
    requires estimatedTime > 0
    ensures EstimatedTimeShownAsWritten(estimatedTime, PICKED_UP)
    ensures !EstimatedTimeShown(estimatedTime, PICKED_UP)
  {
  }

  /** The cancellation notice is shown exactly for cancelled orders. */
  function CancelledNoticeShown(status: string): (shown: bool)
    ensures shown <==> Parse(status) == Cancelled
  {
    status == CANCELLED
  }
}
