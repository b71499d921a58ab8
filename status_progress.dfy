/** The order progress bar of the restaurant views
    (src/components/restaurant/OrderStatusProgress.tsx): a constant table of five steps, the
    index of the current status in it, a separate card for cancelled orders, the state of each
    step relative to the current one, and the width of the progress bar. */
module StatusProgress {
  import opened Wrappers
  import opened Seqs
  import opened Types

  datatype Step = Step(key: string, caption: string, description: string, color: string)

  /** `statusSteps`, in display order. */
  const StatusSteps: seq<Step> := [
    Step(PENDING, "En attente", "Commande en attente de confirmation", "bg-yellow-500"),
    Step(CONFIRMED, "Confirmée", "Commande confirmée par le restaurant", "bg-blue-500"),
    Step(PREPARING, "En préparation", "Votre équipe prépare la commande", "bg-orange-500"),
    Step(READY, "Prête", "Commande prête pour récupération", "bg-green-500"),
    Step(PICKED_UP, "Récupérée", "Récupérée par le livreur", "bg-purple-500")
  ]

  /** The index of the last step (`statusSteps.length - 1`). */
  const LastStep: nat := 4

  function HasKey(status: string): Step -> bool
  {
    (step: Step) => step.key == status
  }

  /** `currentStepIndex`: the position of the status in the table, or -1. */
  function StepIndex(status: string): (i: int)
    ensures -1 <= i <= LastStep
    ensures i >= 0 ==> StatusSteps[i].key == status
    ensures i == -1 <==> forall j :: 0 <= j < |StatusSteps| ==> StatusSteps[j].key != status
  {
    FindIndex(HasKey(status), StatusSteps)
  }

  /** `safeCurrentStepIndex`: an unknown status is shown at the first step. */
  function SafeIndex(status: string): (i: nat)
    ensures i <= LastStep
    ensures StepIndex(status) >= 0 ==> i == StepIndex(status)
    ensures StepIndex(status) == -1 ==> i == 0
  {
    var i := StepIndex(status);
    if i >= 0 then i else 0
  }

  /** The five statuses of the table take the steps 0 to 4 in lifecycle order. */
  lemma StepIndices()
    ensures StepIndex(PENDING) == 0 && StepIndex(CONFIRMED) == 1 && StepIndex(PREPARING) == 2
    ensures StepIndex(READY) == 3 && StepIndex(PICKED_UP) == 4
  {
    assert StatusSteps[0].key == PENDING;
    assert StatusSteps[1].key == CONFIRMED && StatusSteps[0].key != CONFIRMED;
    assert StatusSteps[2].key == PREPARING && StatusSteps[1].key != PREPARING && StatusSteps[0].key != PREPARING;
    assert StatusSteps[3].key == READY;
    assert forall j :: 0 <= j < 3 ==> StatusSteps[j].key != READY;
    assert StatusSteps[4].key == PICKED_UP;
    assert forall j :: 0 <= j < 4 ==> StatusSteps[j].key != PICKED_UP;
  }

  /** Every other status — on-the-way, delivered, failed, cancelled or free text — has no step,
      and is shown at step 0. */
  lemma OthersAtFirstStep(status: string)
    requires status !in {PENDING, CONFIRMED, PREPARING, READY, PICKED_UP}
    ensures StepIndex(status) == -1 && SafeIndex(status) == 0
  {
    assert forall j :: 0 <= j < |StatusSteps| ==> StatusSteps[j].key != status;
  }

  /** What the component renders: a cancellation card, or the bar at a step. */
  datatype View = CancelledCard | Progress(safeIndex: nat)

  function Render(status: string): (v: View)
    ensures v.CancelledCard? <==> status == CANCELLED
    ensures v.Progress? ==> v.safeIndex == SafeIndex(status)
  {
    if status == CANCELLED then CancelledCard else Progress(SafeIndex(status))
  }

  datatype StepState = Done | Current | Upcoming

  /** `getStatusColor(stepIndex)`, as the state it stands for. */
  function StepStateAt(stepIndex: int, safeIndex: nat): StepState
  {
    if stepIndex < safeIndex then Done
    else if stepIndex == safeIndex then Current
    else Upcoming
  }

  /** Exactly one step is current: the one at the safe index. Earlier steps are done and later
      ones upcoming. */
  lemma OneCurrentStep(status: string, j: nat)
    requires j <= LastStep
    ensures StepStateAt(j, SafeIndex(status)) == Current <==> j == SafeIndex(status)
    ensures StepStateAt(j, SafeIndex(status)) == Done <==> j < SafeIndex(status)
    ensures StepStateAt(j, SafeIndex(status)) == Upcoming <==> j > SafeIndex(status)
  {
  }

  /** `getProgressWidth`, as a percentage. */
  function ProgressPercent(safeIndex: nat): (p: real)
    requires safeIndex <= LastStep
    ensures 0.0 <= p <= 100.0
    ensures safeIndex == 0 ==> p == 0.0
    ensures safeIndex == LastStep ==> p == 100.0
  {
    (safeIndex as real / (|StatusSteps| - 1) as real) * 100.0
  }

  /** The width takes only the five values 0, 25, 50, 75 and 100, and grows with the step. */
  lemma ProgressSteps(i: nat, j: nat)
    requires i <= j <= LastStep
    ensures ProgressPercent(i) == 25.0 * i as real
    ensures ProgressPercent(i) in {0.0, 25.0, 50.0, 75.0, 100.0}
    ensures ProgressPercent(i) <= ProgressPercent(j)
  {
  }

  /** The "Actuel" label: the label of the step at the safe index (never empty, so the
      fallback to the raw status is never taken). */
  function CurrentLabel(status: string): (caption: string)
    ensures caption == StatusSteps[SafeIndex(status)].caption
    ensures caption != ""
  {
    var caption := StatusSteps[SafeIndex(status)].caption;
    if caption != "" then caption else status
  }

  /** The step keys as the code evaluates them: the fifth key is
      `UnifiedOrderStatus.PICKED_UP`, a member the enumeration does not declare, which reads as
      `undefined` and equals no string. */
  const KeysAsWritten: seq<Option<string>> := [Some(PENDING), Some(CONFIRMED), Some(PREPARING), Some(READY), None]

  function KeyIs(status: string): Option<string> -> bool
  {
    (key: Option<string>) => key == Some(status)
  }

  /** `safeCurrentStepIndex` over the keys as written. */
  function SafeIndexAsWritten(status: string): (i: nat)
    ensures i <= LastStep
  {
    var i := FindIndex(KeyIs(status), KeysAsWritten);
    if i >= 0 then i else 0
  }

  /** As written, no status ever reaches the last step: a picked-up order is drawn at the
      first step, while the step table puts it at the fifth. */
  lemma PickedUpStepUnreachable(status: string)
    ensures SafeIndexAsWritten(status) < LastStep
    ensures SafeIndexAsWritten(PICKED_UP) == 0 && SafeIndex(PICKED_UP) == LastStep
  {
    var i := FindIndex(KeyIs(status), KeysAsWritten);
    assert KeysAsWritten[4] == None;
    assert i != 4;
    assert forall j :: 0 <= j < 5 ==> KeysAsWritten[j] != Some(PICKED_UP);
    StepIndices();
  }
}
