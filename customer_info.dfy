/** The customer card of the restaurant's order page
    (src/components/restaurant/CustomerInfo.tsx): the status label and badge variant, and the
    banner shown for orders in preparation or ready. */
module CustomerInfo {
  import opened Types
  import opened Badges

  /** `getStatusLabel`: every branch of its `switch` returns the status it matched, and the
      default returns the input, so the label is the status itself. */
  function StatusLabel(status: string): (shown: string)
    ensures shown == status
  {
    if status == PENDING then PENDING
    else if status == CONFIRMED then CONFIRMED
    else if status == PREPARING then PREPARING
    else if status == READY then READY
    else if status == PICKED_UP then PICKED_UP
    else if status == CANCELLED then CANCELLED
    else status
  }

  /** `getStatusVariant`. */
  function StatusVariant(status: string): (v: BadgeVariant)
    ensures Parse(status) in {Pending, Cancelled} ==> v == Destructive
    ensures Parse(status) == Confirmed ==> v == Secondary
    ensures Parse(status) == Preparing ==> v == Default
    ensures Parse(status) in {Ready, PickedUp} ==> v == Outline
    ensures Parse(status) !in {Pending, Confirmed, Preparing, Ready, PickedUp, Cancelled} ==> v == Secondary
  {
    if status == PENDING then Destructive
    else if status == CONFIRMED then Secondary
    else if status == PREPARING then Default
    else if status == READY then Outline
    else if status == PICKED_UP then Outline
    else if status == CANCELLED then Destructive
    else Secondary
  }

  /** `getStatusVariant` as the code evaluates it: the `PICKED_UP` case compares against
      `undefined` and never matches, so a picked-up order falls to the default. */
  function StatusVariantAsWritten(status: string): (v: BadgeVariant)
    ensures status != PICKED_UP ==> v == StatusVariant(status)
  {
    if status == PENDING then Destructive
    else if status == CONFIRMED then Secondary
    else if status == PREPARING then Default
    else if status == READY then Outline
    else if status == CANCELLED then Destructive
    else Secondary
  }

  /** As written, a picked-up order is drawn like an unknown status, not like a ready one. */
  lemma PickedUpVariantAsWritten()
    ensures StatusVariantAsWritten(PICKED_UP) == Secondary
    ensures StatusVariant(PICKED_UP) == Outline
  {
  }

  /** An order in preparation and an order ready are badged differently, and pending and
      cancelled orders alike. */
  lemma VariantsSeparateActiveStates()
    ensures StatusVariant(PREPARING) != StatusVariant(READY)
    ensures StatusVariant(PENDING) == StatusVariant(CANCELLED)
  {
  }

  datatype Banner = PreparingBanner | ReadyBanner

  /** The banners under the card: the preparing banner for an order in preparation, the ready
      banner for a ready order, and none otherwise. */
  function Banners(status: string): (bs: seq<Banner>)
    ensures |bs| <= 1
    ensures PreparingBanner in bs <==> Parse(status) == Preparing
    ensures ReadyBanner in bs <==> Parse(status) == Ready
  {
    (if status == PREPARING then [PreparingBanner] else []) + (if status == READY then [ReadyBanner] else [])
  }
}
