/** The filter bar of the home page (src/components/FilterBar.tsx): the three quick toggles, the
    cuisine buttons, "Effacer tout", and the count of active filters. Each handler builds the
    new filter record it hands back to the page. */
module FilterBar {
  import opened Wrappers
  import opened Text
  import opened Types

  /** The ten cuisine buttons, in order. */
  const CuisineValues: seq<string> :=
    ["french", "italian", "japanese", "chinese", "indian", "mexican", "american", "mediterranean", "thai", "vietnamese"]

  const QuickRating: real := 4.0
  const QuickDeliveryTime: int := 30

  predicate RatingSet(f: SearchFilters)
  {
    f.minRating.Some? && f.minRating.value != 0.0
  }

  predicate DeliveryTimeSet(f: SearchFilters)
  {
    f.maxDeliveryTime.Some? && f.maxDeliveryTime.value != 0
  }

  predicate VegetarianSet(f: SearchFilters)
  {
    f.isVegetarian == Some(true)
  }

  /** "4+ étoiles": clears a set minimum rating, otherwise sets 4. */
  function ToggleRating(f: SearchFilters): (g: SearchFilters)
    ensures RatingSet(f) ==> g.minRating.None?
    ensures !RatingSet(f) ==> g.minRating == Some(QuickRating)
    ensures g.cuisineType == f.cuisineType && g.maxDeliveryTime == f.maxDeliveryTime && g.isVegetarian == f.isVegetarian
  {
    f.(minRating := if RatingSet(f) then None else Some(QuickRating))
  }

  /** "Moins de 30 min": clears a set maximum, otherwise sets 30 minutes. */
  function ToggleDeliveryTime(f: SearchFilters): (g: SearchFilters)
    ensures DeliveryTimeSet(f) ==> g.maxDeliveryTime.None?
    ensures !DeliveryTimeSet(f) ==> g.maxDeliveryTime == Some(QuickDeliveryTime)
    ensures g.cuisineType == f.cuisineType && g.minRating == f.minRating && g.isVegetarian == f.isVegetarian
  {
    f.(maxDeliveryTime := if DeliveryTimeSet(f) then None else Some(QuickDeliveryTime))
  }

  /** "Végétarien": clears the flag when it is true, otherwise sets it. */
  function ToggleVegetarian(f: SearchFilters): (g: SearchFilters)
    ensures VegetarianSet(f) ==> g.isVegetarian.None?
    ensures !VegetarianSet(f) ==> g.isVegetarian == Some(true)
    ensures g.cuisineType == f.cuisineType && g.minRating == f.minRating && g.maxDeliveryTime == f.maxDeliveryTime
  {
    f.(isVegetarian := if VegetarianSet(f) then None else Some(true))
  }

  /** Between absent and the quick value, each toggle undoes itself. */
  lemma QuickTogglesInvolutive(f: SearchFilters)
    ensures f.minRating in {None, Some(QuickRating)} ==> ToggleRating(ToggleRating(f)) == f
    ensures f.maxDeliveryTime in {None, Some(QuickDeliveryTime)} ==> ToggleDeliveryTime(ToggleDeliveryTime(f)) == f
    ensures f.isVegetarian in {None, Some(true)} ==> ToggleVegetarian(ToggleVegetarian(f)) == f
  {
  }

  /** `Object.entries(filters).filter(([, v]) => v !== undefined).length`. */
  function ActiveCount(f: SearchFilters): (n: nat)
    ensures n <= 4
    ensures n == 0 <==> f == NoFilters
  {
    (if f.cuisineType.Some? then 1 else 0) + (if f.minRating.Some? then 1 else 0) +
    (if f.maxDeliveryTime.Some? then 1 else 0) + (if f.isVegetarian.Some? then 1 else 0)
  }

  /** "Effacer tout". */
  function ClearFilters(f: SearchFilters): (g: SearchFilters)
    ensures ActiveCount(g) == 0
  {
    NoFilters
  }

  /** Each quick toggle moves the count by exactly one between absent and set. */
  lemma TogglesMoveCountByOne(f: SearchFilters)
    ensures f.minRating.None? ==> ActiveCount(ToggleRating(f)) == ActiveCount(f) + 1
    ensures RatingSet(f) ==> ActiveCount(ToggleRating(f)) + 1 == ActiveCount(f)
    ensures f.maxDeliveryTime.None? ==> ActiveCount(ToggleDeliveryTime(f)) == ActiveCount(f) + 1
    ensures DeliveryTimeSet(f) ==> ActiveCount(ToggleDeliveryTime(f)) + 1 == ActiveCount(f)
    ensures f.isVegetarian.None? ==> ActiveCount(ToggleVegetarian(f)) == ActiveCount(f) + 1
    ensures VegetarianSet(f) ==> ActiveCount(ToggleVegetarian(f)) + 1 == ActiveCount(f)
  {
  }

  /** The "N filtre(s) actif(s)" badge, shown only when a filter is active. */
  function ActiveBadge(f: SearchFilters): (badge: Option<string>)
    ensures badge.Some? <==> ActiveCount(f) > 0
    ensures badge.Some? ==> |badge.value| > 0 && badge.value[|badge.value| - 1] == (if ActiveCount(f) > 1 then 's' else 'f')
  {
    var n := ActiveCount(f);
    var plural := if n > 1 then "s" else "";
    if n > 0 then Some(NatToString(n) + " filtre" + plural + " actif" + plural) else None
  }

  /** `toggleCuisine` as written. It only reads `cuisineType` when it is a list; a single
      cuisine, the only form the bar itself produces, counts as no cuisine, so the clicked one
      is always set. */
  function ToggleCuisineAsWritten(f: SearchFilters, cuisine: string): (g: SearchFilters)
    ensures g.minRating == f.minRating && g.maxDeliveryTime == f.maxDeliveryTime && g.isVegetarian == f.isVegetarian
    ensures f.cuisineType.None? || f.cuisineType.value.One? ==> g.cuisineType == Some(One(cuisine))
  {
    var current := if f.cuisineType.Some? && f.cuisineType.value.Several? then f.cuisineType.value.cuisines else [];
    var next := if cuisine in current then RemoveAll(current, cuisine) else current + [cuisine];
    f.(cuisineType := if |next| > 0 then Some(One(next[0])) else None)
  }

  /** `current.filter(c => c !== cuisine)`. */
  function RemoveAll(s: seq<string>, x: string): (r: seq<string>)
    ensures x !in r
    ensures forall y :: y in r <==> y in s && y != x
  {
    if s == [] then [] else (if s[0] == x then [] else [s[0]]) + RemoveAll(s[1..], x)
  }

  /** As written, a second click on the highlighted cuisine keeps it: the cuisine filter can
      be set from the bar but never cleared except by "Effacer tout". */
  lemma CuisineNeverClearsAsWritten(f: SearchFilters, cuisine: string)
    requires f.cuisineType.None? || f.cuisineType.value.One?
    ensures ToggleCuisineAsWritten(f, cuisine).cuisineType == Some(One(cuisine))
    ensures ToggleCuisineAsWritten(ToggleCuisineAsWritten(f, cuisine), cuisine).cuisineType == Some(One(cuisine))
  {
  }

  /** A cuisine button is highlighted when `cuisineType.includes(value)`: membership for a list,
      a substring test for a single cuisine. */
  function CuisineHighlighted(f: SearchFilters, value: string): (on: bool)
    ensures f.cuisineType == Some(One(value)) ==> on
    ensures f.cuisineType.None? ==> !on
  {
    ContainsTrivial(value);
    match f.cuisineType
    case None => false
    case Some(One(c)) => Contains(c, value)
    case Some(Several(cs)) => value in cs
  }

  /** `toggleCuisine` as evidently intended: a click on the selected cuisine clears the
      cuisine filter, a click on any other cuisine selects it. */
  function ToggleCuisine(f: SearchFilters, cuisine: string): (g: SearchFilters)
    ensures g.minRating == f.minRating && g.maxDeliveryTime == f.maxDeliveryTime && g.isVegetarian == f.isVegetarian
    ensures f.cuisineType == Some(One(cuisine)) ==> g.cuisineType.None?
    ensures f.cuisineType != Some(One(cuisine)) ==> g.cuisineType == Some(One(cuisine))
  {
    f.(cuisineType := if f.cuisineType == Some(One(cuisine)) then None else Some(One(cuisine)))
  }

  /** The intended toggle undoes itself from no cuisine and from the clicked cuisine, and a
      click flips the button's highlight from no cuisine. */
  lemma ToggleCuisineInvolutive(f: SearchFilters, cuisine: string)
    requires f.cuisineType.None? || f.cuisineType == Some(One(cuisine))
    ensures ToggleCuisine(ToggleCuisine(f, cuisine), cuisine) == f
    ensures f.cuisineType.None? ==> CuisineHighlighted(ToggleCuisine(f, cuisine), cuisine)
    ensures f.cuisineType.Some? ==> !CuisineHighlighted(ToggleCuisine(f, cuisine), cuisine)
  {
  }
}
