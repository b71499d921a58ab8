/** The restaurant list as the client builds it from the product service
    (src/hooks/useRestaurants.ts): the mapping of a restaurant record, which guesses one cuisine
    from keywords of the name and fills in fixed values the service does not provide, and the
    hook that loads the list. */
module UseRestaurants {
  import opened Wrappers
  import opened Seqs
  import opened Text
  import opened Types
  import RestaurantSearch

  /** A restaurant as the product service returns it; the optional fields may be absent. */
  datatype ApiRestaurant = ApiRestaurant(
    id: int,
    name: string,
    description: Option<string>,
    image: Option<string>,
    address: Option<string>,
    phone: Option<string>,
    isOpen: Option<bool>)

  const DefaultDescription: string := "Description non disponible"
  const DefaultImage: string := "https://images.unsplash.com/photo-1517248135467-4c7edcad34c4?w=700"
  /** The values the service does not provide, the same for every restaurant. */
  const DefaultRating: real := 4.5
  const DefaultDeliveryTime: string := "25-35 min"
  const DefaultDeliveryFee: real := 2.5
  /** The cuisine of a name that matches no keyword. */
  const FallbackCuisine: string := "restaurant"

  /** `getCuisineFromName`: the first keyword group, in this order, that the lower-cased name
      contains decides the cuisine. */
  function CuisineFromName(name: string): (r: seq<string>)
    ensures |r| == 1
  {
    var n := Lower(name);
    if Contains(n, "sushi") || Contains(n, "zen") then ["japanese"]
    else if Contains(n, "pizza") || Contains(n, "roma") then ["italian"]
    else if Contains(n, "burger") then ["american"]
    else if Contains(n, "bistro") || Contains(n, "petit") then ["french"]
    else if Contains(n, "taj") || Contains(n, "mahal") then ["indian"]
    else if Contains(n, "dragon") || Contains(n, "wok") then ["chinese"]
    else if Contains(n, "tacos") || Contains(n, "loco") then ["mexican"]
    else if Contains(n, "green") || Contains(n, "garden") then ["mediterranean"]
    else [FallbackCuisine]
  }

  /** The keyword groups as a table: an independent statement of the same rule. */
  datatype CuisineRule = CuisineRule(keywords: seq<string>, cuisine: string)

  const CuisineRules: seq<CuisineRule> := [
    CuisineRule(["sushi", "zen"], "japanese"),
    CuisineRule(["pizza", "roma"], "italian"),
    CuisineRule(["burger"], "american"),
    CuisineRule(["bistro", "petit"], "french"),
    CuisineRule(["taj", "mahal"], "indian"),
    CuisineRule(["dragon", "wok"], "chinese"),
    CuisineRule(["tacos", "loco"], "mexican"),
    CuisineRule(["green", "garden"], "mediterranean")
  ]

  /** The cuisine of a lower-cased name read off the table from rule `i` on: the cuisine of
      the first rule that applies. */
  function CuisineFrom(lowerName: string, i: nat): string
    requires i <= |CuisineRules|
    decreases |CuisineRules| - i
  {
    if i == |CuisineRules| then FallbackCuisine
    else if ContainsAny(lowerName, CuisineRules[i].keywords) then CuisineRules[i].cuisine
    else CuisineFrom(lowerName, i + 1)
  }

  function CuisineByTable(name: string): string
  {
    CuisineFrom(Lower(name), 0)
  }

  lemma ContainsAnyOne(s: string, a: string)
    ensures ContainsAny(s, [a]) <==> Contains(s, a)
  {
    if Contains(s, a) {
      assert [a][0] == a;
    }
  }

  lemma ContainsAnyTwo(s: string, a: string, b: string)
    ensures ContainsAny(s, [a, b]) <==> Contains(s, a) || Contains(s, b)
  {
    if Contains(s, a) {
      assert [a, b][0] == a;
    }
    if Contains(s, b) {
      assert [a, b][1] == b;
    }
  }

  /** The chain of tests and the table agree on every name. */
  lemma CuisineFromNameIsFirstRule(name: string)
    ensures CuisineFromName(name) == [CuisineByTable(name)]
  {
    var n := Lower(name);
    ContainsAnyTwo(n, "sushi", "zen");
    ContainsAnyTwo(n, "pizza", "roma");
    ContainsAnyOne(n, "burger");
    ContainsAnyTwo(n, "bistro", "petit");
    ContainsAnyTwo(n, "taj", "mahal");
    ContainsAnyTwo(n, "dragon", "wok");
    ContainsAnyTwo(n, "tacos", "loco");
    ContainsAnyTwo(n, "green", "garden");
    assert CuisineFrom(n, 8) == FallbackCuisine;
    assert CuisineFrom(n, 7) == if Contains(n, "green") || Contains(n, "garden") then "mediterranean" else FallbackCuisine;
    assert CuisineFrom(n, 6) == if Contains(n, "tacos") || Contains(n, "loco") then "mexican" else CuisineFrom(n, 7);
    assert CuisineFrom(n, 5) == if Contains(n, "dragon") || Contains(n, "wok") then "chinese" else CuisineFrom(n, 6);
    assert CuisineFrom(n, 4) == if Contains(n, "taj") || Contains(n, "mahal") then "indian" else CuisineFrom(n, 5);
    assert CuisineFrom(n, 3) == if Contains(n, "bistro") || Contains(n, "petit") then "french" else CuisineFrom(n, 4);
    assert CuisineFrom(n, 2) == if Contains(n, "burger") then "american" else CuisineFrom(n, 3);
    assert CuisineFrom(n, 1) == if Contains(n, "pizza") || Contains(n, "roma") then "italian" else CuisineFrom(n, 2);
    assert CuisineFrom(n, 0) == if Contains(n, "sushi") || Contains(n, "zen") then "japanese" else CuisineFrom(n, 1);
  }

  /** A lower-cased name that no rule from `i` on applies to falls back to "restaurant". */
  lemma {:induction false} NoRuleFrom(lowerName: string, i: nat)
    requires i <= |CuisineRules|
    requires forall k, j :: i <= k < |CuisineRules| && 0 <= j < |CuisineRules[k].keywords| ==>
      !Contains(lowerName, CuisineRules[k].keywords[j])
    ensures CuisineFrom(lowerName, i) == FallbackCuisine
    decreases |CuisineRules| - i
  {
    if i < |CuisineRules| {
      NoRuleFrom(lowerName, i + 1);
    }
  }

  /** A name with no keyword at all is a plain "restaurant". */
  lemma NoKeywordFallback(name: string)
    requires forall i, j :: 0 <= i < |CuisineRules| && 0 <= j < |CuisineRules[i].keywords| ==>
      !Contains(Lower(name), CuisineRules[i].keywords[j])
    ensures CuisineFromName(name) == ["restaurant"]
  {
    CuisineFromNameIsFirstRule(name);
    NoRuleFrom(Lower(name), 0);
  }

  /** The earlier group wins: a name with both "sushi" and "pizza" is Japanese. */
  lemma SushiBeforePizza()
    ensures CuisineFromName("Sushi Pizza") == ["japanese"]
  {
    var n := Lower("Sushi Pizza");
    assert n == "sushi pizza";
    assert OccursAt(n, "sushi", 0);
  }

  /** `mapApiRestaurantToFrontend`. */
  function MapRestaurant(api: ApiRestaurant): (r: Restaurant)
    ensures r.id == IntToString(api.id) && r.name == api.name
    ensures api.description.Some? && api.description.value != "" ==> r.description == api.description.value
    ensures api.description.None? || api.description.value == "" ==> r.description == DefaultDescription
    ensures api.image.Some? && api.image.value != "" ==> r.image == api.image.value
    ensures api.image.None? || api.image.value == "" ==> r.image == DefaultImage
    ensures r.rating == 4.5 && r.deliveryTime == "25-35 min" && r.deliveryFee == 2.5
    ensures r.promo.None?
    ensures |r.cuisine| == 1 && r.cuisine == [CuisineByTable(api.name)]
    ensures api.isOpen.Some? ==> r.isOpen == api.isOpen.value
    ensures api.isOpen.None? ==> r.isOpen
  {
    CuisineFromNameIsFirstRule(api.name);
    Restaurant(
      id := IntToString(api.id),
      name := api.name,
      description := if api.description.Some? && api.description.value != "" then api.description.value else DefaultDescription,
      image := if api.image.Some? && api.image.value != "" then api.image.value else DefaultImage,
      rating := DefaultRating,
      deliveryTime := DefaultDeliveryTime,
      deliveryFee := DefaultDeliveryFee,
      cuisine := CuisineFromName(api.name),
      isOpen := if api.isOpen.Some? then api.isOpen.value else true,
      promo := None)
  }

  /** Every restaurant the service returns passes a delivery-time filter of `m` minutes exactly
      when `m` is 0 (no filter) or at least 35, and passes a minimum rating up to 4.5. */
  lemma MappedRestaurantFilters(api: ApiRestaurant, m: int, minRating: real)
    ensures RestaurantSearch.MatchesDeliveryTime(MapRestaurant(api), Some(m)) <==> m == 0 || m >= 35
    ensures minRating <= 4.5 ==> RestaurantSearch.MatchesRating(MapRestaurant(api), Some(minRating))
  {
    var r := MapRestaurant(api);
    RestaurantSearch.SegmentOfExample();
    RestaurantSearch.ParseOfExample();
    assert RestaurantSearch.DeliveryUpperBound(r.deliveryTime) == Some(35);
  }

  const LoadError: string := "Erreur lors du chargement des restaurants"

  /** The state of `useRestaurants`. */
  class RestaurantsHook {
    var restaurants: seq<Restaurant>
    var loading: bool
    var error: Option<string>

    constructor ()
      ensures restaurants == [] && loading && error.None?
    {
      restaurants := [];
      loading := true;
      error := None;
    }

    /** `fetchRestaurants`: the list becomes the mapped restaurants, in order, when the request
        succeeds; the error is set and the list kept when it fails; loading ends in both cases.
        `answer` is the reply of the product service. */
    method FetchRestaurants(answer: Result<seq<ApiRestaurant>, Thrown>)
      modifies this
      ensures !loading
      ensures answer.Ok? ==>
        |restaurants| == |answer.value| &&
        (forall i :: 0 <= i < |restaurants| ==> restaurants[i] == MapRestaurant(answer.value[i])) &&
        error.None?
      ensures answer.Err? ==>
        restaurants == old(restaurants) && error == Some(MessageOr(answer.error, LoadError))
    {
      loading := true;
      error := None;
      match answer {
        case Ok(apiRestaurants) =>
          restaurants := Map(MapRestaurant, apiRestaurants);
        case Err(thrown) =>
          error := Some(MessageOr(thrown, LoadError));
      }
      loading := false;
    }
  }
}
