/** The restaurant list of the home page (src/routes/index.tsx): the restaurants that pass the
    search text and the four filters, in their original order. */
module RestaurantSearch {
  import opened Wrappers
  import opened Seqs
  import opened Text
  import opened Types

  /** The search text matches, ignoring case, the name, the description or one of the
      cuisines; the empty text matches everything. */
  predicate MatchesSearch(r: Restaurant, query: string)
  {
    query == "" ||
    Contains(Lower(r.name), Lower(query)) ||
    Contains(Lower(r.description), Lower(query)) ||
    exists k :: 0 <= k < |r.cuisine| && Contains(Lower(r.cuisine[k]), Lower(query))
  }

  /** `!filters.cuisineType` is false: a non-empty cuisine, or any list (even an empty one). */
  predicate CuisineFilterSet(ct: Option<CuisineFilter>)
  {
    ct.Some? && (ct.value.Several? || ct.value.cuisine != "")
  }

  predicate MatchesCuisine(r: Restaurant, ct: Option<CuisineFilter>)
  {
    !CuisineFilterSet(ct) ||
    match ct.value
    case One(c) => c in r.cuisine
    case Several(cs) => exists k :: 0 <= k < |cs| && cs[k] in r.cuisine
  }

  /** An absent minimum and a minimum of 0 apply no filter. */
  predicate MatchesRating(r: Restaurant, minRating: Option<real>)
  {
    minRating.None? || minRating.value == 0.0 || r.rating >= minRating.value
  }

  /** `s.split('-')[1]`: the text between the first '-' and the next one (or the end), absent
      when `s` has no '-'. */
  function SecondSegment(s: string): (seg: Option<string>)
    ensures seg.None? <==> forall k :: 0 <= k < |s| ==> s[k] != '-'
    ensures seg.Some? ==> forall k :: 0 <= k < |seg.value| ==> seg.value[k] != '-'
  {
    var i := FindIndex((c: char) => c == '-', s);
    if i < 0 then None
    else
      var rest := s[i + 1..];
      var j := FindIndex((c: char) => c == '-', rest);
      Some(if j < 0 then rest else rest[..j])
  }

  /** The upper end of a delivery time as `parseInt` reads it; `None` stands for `NaN`. */
  function DeliveryUpperBound(deliveryTime: string): Option<int>
  {
    match SecondSegment(deliveryTime)
    case None => None
    case Some(seg) => ParseInt(seg)
  }

  /** An absent maximum and a maximum of 0 apply no filter; otherwise the upper end must be a
      number no larger than the maximum (`NaN <= m` is false). */
  predicate MatchesDeliveryTime(r: Restaurant, maxDeliveryTime: Option<int>)
  {
    maxDeliveryTime.None? || maxDeliveryTime.value == 0 ||
    (DeliveryUpperBound(r.deliveryTime).Some? && DeliveryUpperBound(r.deliveryTime).value <= maxDeliveryTime.value)
  }

  predicate Passes(query: string, filters: SearchFilters, r: Restaurant)
  {
    MatchesSearch(r, query) && MatchesCuisine(r, filters.cuisineType) &&
    MatchesRating(r, filters.minRating) && MatchesDeliveryTime(r, filters.maxDeliveryTime)
  }

  function Keep(query: string, filters: SearchFilters): Restaurant -> bool
  {
    (r: Restaurant) => Passes(query, filters, r)
  }

  /** `filteredRestaurants`: exactly the restaurants that pass, in their original order. */
  function FilteredRestaurants(restaurants: seq<Restaurant>, query: string, filters: SearchFilters): (shown: seq<Restaurant>)
    ensures |shown| <= |restaurants|
    ensures forall r :: r in shown <==> r in restaurants && Passes(query, filters, r)
  {
    Filter(Keep(query, filters), restaurants)
  }

  /** With no search text and no filter, every restaurant is shown, in order. */
  lemma NothingSetShowsAll(restaurants: seq<Restaurant>)
    ensures FilteredRestaurants(restaurants, "", NoFilters) == restaurants
  {
    FilterKeepsAll(Keep("", NoFilters), restaurants);
  }

  /** The vegetarian switch does not take part in the filtering. */
  lemma VegetarianIgnored(restaurants: seq<Restaurant>, query: string, filters: SearchFilters, v: Option<bool>)
    ensures FilteredRestaurants(restaurants, query, filters.(isVegetarian := v)) == FilteredRestaurants(restaurants, query, filters)
  {
    FilterCongruent(Keep(query, filters.(isVegetarian := v)), Keep(query, filters), restaurants);
  }

  /** Searching is blind to the case of the search text. */
  lemma SearchIgnoresCase(r: Restaurant, query: string)
    ensures MatchesSearch(r, Lower(query)) == MatchesSearch(r, query)
  {
    LowerIdempotent(query);
    assert |Lower(query)| == |query|;
  }

  /** `g` filters no more than `f`: its search text is empty or the same, and each of its
      filters is unset or the same as in `f`. */
  predicate Looser(gQuery: string, g: SearchFilters, fQuery: string, f: SearchFilters)
  {
    (gQuery == "" || gQuery == fQuery) &&
    (g.cuisineType.None? || g.cuisineType == f.cuisineType) &&
    (g.minRating.None? || g.minRating == f.minRating) &&
    (g.maxDeliveryTime.None? || g.maxDeliveryTime == f.maxDeliveryTime)
  }

  /** Setting one more filter or a search text never adds a restaurant: the stricter result is
      the looser result filtered again, so it is a subsequence of it. */
  lemma StricterShowsSubsequence(restaurants: seq<Restaurant>, gQuery: string, g: SearchFilters,
                                 fQuery: string, f: SearchFilters)
    requires Looser(gQuery, g, fQuery, f)
    ensures FilteredRestaurants(restaurants, fQuery, f) ==
            Filter(Keep(fQuery, f), FilteredRestaurants(restaurants, gQuery, g))
    ensures |FilteredRestaurants(restaurants, fQuery, f)| <= |FilteredRestaurants(restaurants, gQuery, g)|
  {
    var p, q := Keep(gQuery, g), Keep(fQuery, f);
    forall i | 0 <= i < |restaurants|
      ensures q(restaurants[i]) ==> p(restaurants[i])
    {
      var r := restaurants[i];
      if Passes(fQuery, f, r) {
        assert MatchesSearch(r, gQuery);
        assert MatchesCuisine(r, g.cuisineType);
      }
    }
    FilterNarrower(p, q, restaurants);
  }

  /** Splitting `a-b` where neither part has a '-' gives `b` as the second part. */
  lemma SecondSegmentOf(a: string, b: string)
    requires forall k :: 0 <= k < |a| ==> a[k] != '-'
    requires forall k :: 0 <= k < |b| ==> b[k] != '-'
    ensures SecondSegment(a + "-" + b) == Some(b)
  {
    var s := a + "-" + b;
    var i := FindIndex((c: char) => c == '-', s);
    assert s[|a|] == '-';
    assert forall k :: 0 <= k < |a| ==> s[k] == a[k];
    assert i == |a|;
    assert s[i + 1..] == b;
  }

  lemma SegmentOfExample()
    ensures SecondSegment("25-35 min") == Some("35 min")
  {
    assert "25-35 min" == "25" + "-" + "35 min";
    SecondSegmentOf("25", "35 min");
  }

  lemma ParseOfExample()
    ensures ParseInt("35 min") == Some(35)
  {
    assert "35 min" == "35" + " min";
    ParseIntDecimalPrefix("35", " min");
    assert "35"[..1] == "3";
  }

  /** "25-35 min" has 35 as its upper end: it is kept under a 40-minute maximum and dropped
      under the 30-minute quick filter. */
  lemma DeliveryTimeExample(r: Restaurant)
    requires r.deliveryTime == "25-35 min"
    ensures DeliveryUpperBound(r.deliveryTime) == Some(35)
    ensures MatchesDeliveryTime(r, Some(40)) && !MatchesDeliveryTime(r, Some(30))
  {
    SegmentOfExample();
    ParseOfExample();
  }

  /** A delivery time written without '-' is dropped by any maximum. */
  lemma NoDashDropped(r: Restaurant, m: int)
    requires forall k :: 0 <= k < |r.deliveryTime| ==> r.deliveryTime[k] != '-'
    requires m != 0
    ensures !MatchesDeliveryTime(r, Some(m))
  {
  }
}
