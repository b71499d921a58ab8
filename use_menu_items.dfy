/** The menu of a restaurant as the client builds it from the product service
    (src/hooks/useMenuItems.ts): the mapping of a product record to a menu item, which guesses
    the dietary and popularity flags from keywords, and the two hooks that load a menu and a
    single product. */
module UseMenuItems {
  import opened Wrappers
  import opened Seqs
  import opened Text
  import opened Types

  /** A product as the product service returns it; the optional fields may be absent. */
  datatype Produit = Produit(
    id: int,
    name: string,
    description: Option<string>,
    price: real,
    restaurantId: int,
    category: Option<string>,
    isAvailable: Option<bool>,
    image: Option<string>)

  const DefaultDescription: string := "Description non disponible"
  const DefaultImage: string := "https://images.unsplash.com/photo-1544025162-d76694265947?w=300"
  const DefaultCategory: string := "Plats principaux"

  /** The keywords that make a dish vegan, and the further ones that make it vegetarian. */
  const VeganWords: seq<string> := ["végan", "vegan", "quinoa", "avocat", "légumes"]
  const VegetarianWords: seq<string> := ["végé", "fromage", "salade", "smoothie"]
  /** The keywords of the name that make a dish popular. */
  const PopularWords: seq<string> := ["signature", "spécial", "classic"]

  /** `o || fallback` on an optional string: absent and "" both give the fallback. */
  function OrDefault(o: Option<string>, fallback: string): (r: string)
    ensures o.Some? && o.value != "" ==> r == o.value
    ensures o.None? || o.value == "" ==> r == fallback
  {
    if o.Some? && o.value != "" then o.value else fallback
  }

  /** The text searched for dietary keywords: the name, a space and the description (or ""),
      lower-cased. */
  function VeggieText(name: string, description: Option<string>): string
  {
    Lower(name + " " + OrDefault(description, ""))
  }

  /** `mapApiProduitToMenuItem`. */
  function MapProduit(p: Produit): (m: MenuItem)
    ensures m.id == IntToString(p.id) && m.name == p.name && m.price == p.price
    ensures m.description == OrDefault(p.description, DefaultDescription)
    ensures m.image == OrDefault(p.image, DefaultImage)
    ensures m.category == OrDefault(p.category, DefaultCategory)
    ensures m.allergens.None?
    ensures m.isVegan.Some? && m.isVegetarian.Some? && m.isPopular.Some?
    ensures m.isVegan.value ==> m.isVegetarian.value
    ensures m.isVegan.value <==> ContainsAny(VeggieText(p.name, p.description), VeganWords)
    ensures m.isVegetarian.value <==>
      ContainsAny(VeggieText(p.name, p.description), VeganWords + VegetarianWords)
  {
    var text := VeggieText(p.name, p.description);
    var isVegan := ContainsAny(text, VeganWords);
    var isVegetarian := isVegan || ContainsAny(text, VegetarianWords);
    assert isVegetarian <==> ContainsAny(text, VeganWords + VegetarianWords) by {
      ContainsAnyAppend(text, VeganWords, VegetarianWords);
    }
    MenuItem(
      id := IntToString(p.id),
      name := p.name,
      description := OrDefault(p.description, DefaultDescription),
      price := p.price,
      image := OrDefault(p.image, DefaultImage),
      category := OrDefault(p.category, DefaultCategory),
      isPopular := Some(ContainsAny(Lower(p.name), PopularWords)),
      allergens := None,
      isVegetarian := Some(isVegetarian),
      isVegan := Some(isVegan))
  }

  /** A text contains a word of `a + b` exactly when it contains a word of `a` or one of `b`. */
  lemma ContainsAnyAppend(s: string, a: seq<string>, b: seq<string>)
    ensures ContainsAny(s, a + b) <==> ContainsAny(s, a) || ContainsAny(s, b)
  {
    if ContainsAny(s, a + b) {
      var k :| 0 <= k < |a + b| && Contains(s, (a + b)[k]);
      if k >= |a| {
        assert b[k - |a|] == (a + b)[k];
      }
    }
    if ContainsAny(s, a) {
      var k :| 0 <= k < |a| && Contains(s, a[k]);
      assert (a + b)[k] == a[k];
    }
    if ContainsAny(s, b) {
      var k :| 0 <= k < |b| && Contains(s, b[k]);
      assert (a + b)[|a| + k] == b[k];
    }
  }

  /** Popularity depends on the name alone: two products with the same name are equally
      popular, whatever their descriptions. */
  lemma PopularityFromNameOnly(p: Produit, q: Produit)
    requires p.name == q.name
    ensures MapProduit(p).isPopular == MapProduit(q).isPopular
  {
  }

  /** A vegan keyword anywhere in the name or the description, in any ASCII case, makes the
      dish vegan (and so vegetarian). */
  lemma VeganKeywordMakesVegan(p: Produit, k: nat)
    requires k < |VeganWords|
    requires Contains(Lower(p.name), VeganWords[k]) ||
             (p.description.Some? && Contains(Lower(p.description.value), VeganWords[k]))
    ensures MapProduit(p).isVegan == Some(true)
    ensures MapProduit(p).isVegetarian == Some(true)
  {
    var d := OrDefault(p.description, "");
    LowerAppend(p.name, " " + d);
    LowerAppend(" ", d);
    assert p.name + " " + d == p.name + (" " + d);
    var text := VeggieText(p.name, p.description);
    assert text == Lower(p.name) + (Lower(" ") + Lower(d));
    if Contains(Lower(p.name), VeganWords[k]) {
      ContainsInConcat(Lower(p.name), Lower(" ") + Lower(d), VeganWords[k]);
    } else {
      assert p.description.value != "" ==> d == p.description.value;
      ContainsInConcat(Lower(" "), Lower(d), VeganWords[k]);
      ContainsInConcat(Lower(p.name), Lower(" ") + Lower(d), VeganWords[k]);
    }
    assert Contains(text, VeganWords[k]);
  }

  /** A product with no name and no description has no dietary or popularity flag. */
  lemma BlankProductHasNoFlags(p: Produit)
    requires p.name == "" && (p.description.None? || p.description.value == "")
    ensures MapProduit(p).isVegan == Some(false)
    ensures MapProduit(p).isVegetarian == Some(false)
    ensures MapProduit(p).isPopular == Some(false)
  {
    var text := VeggieText(p.name, p.description);
    assert text == " ";
    var words := VeganWords + VegetarianWords;
    forall k | 0 <= k < |words| ensures !Contains(text, words[k]) {
      assert |words[k]| > 1;
    }
    forall k | 0 <= k < |PopularWords| ensures !Contains(Lower(p.name), PopularWords[k]) {
      assert |PopularWords[k]| > 1;
    }
    ContainsAnyAppend(text, VeganWords, VegetarianWords);
  }

  const MenuLoadError: string := "Erreur lors du chargement des produits"
  const ProductLoadError: string := "Erreur lors du chargement du produit"

  /** The state of `useMenuItems` for one restaurant. */
  class MenuItemsHook {
    var menuItems: seq<MenuItem>
    var loading: bool
    var error: Option<string>

    constructor ()
      ensures menuItems == [] && loading && error.None?
    {
      menuItems := [];
      loading := true;
      error := None;
    }

    /** `fetchMenuItems`. An empty restaurant id empties the menu and ends loading without a
        request. Otherwise the menu becomes the mapped products, in order, when the request
        succeeds, and the error is set and the menu kept when it fails; loading ends in both
        cases. `answer` is the reply of the product service. */
    method FetchMenuItems(restaurantId: string, answer: Result<seq<Produit>, Thrown>)
      modifies this
      ensures !loading
      ensures restaurantId == "" ==> menuItems == [] && error == old(error)
      ensures restaurantId != "" && answer.Ok? ==>
        |menuItems| == |answer.value| &&
        (forall i :: 0 <= i < |menuItems| ==> menuItems[i] == MapProduit(answer.value[i])) &&
        error.None?
      ensures restaurantId != "" && answer.Err? ==>
        menuItems == old(menuItems) && error == Some(MessageOr(answer.error, MenuLoadError))
    {
      if restaurantId == "" {
        menuItems := [];
        loading := false;
        return;
      }
      loading := true;
      error := None;
      match answer {
        case Ok(produits) =>
          menuItems := Map(MapProduit, produits);
        case Err(thrown) =>
          error := Some(MessageOr(thrown, MenuLoadError));
      }
      loading := false;
    }
  }

  /** The state of `useSingleProduct` for one product. */
  class SingleProductHook {
    var product: Option<MenuItem>
    var loading: bool
    var error: Option<string>

    constructor ()
      ensures product.None? && loading && error.None?
    {
      product := None;
      loading := true;
      error := None;
    }

    /** `fetchProduct`: as `fetchMenuItems`, for one product. */
    method FetchProduct(productId: string, answer: Result<Produit, Thrown>)
      modifies this
      ensures !loading
      ensures productId == "" ==> product.None? && error == old(error)
      ensures productId != "" && answer.Ok? ==> product == Some(MapProduit(answer.value)) && error.None?
      ensures productId != "" && answer.Err? ==>
        product == old(product) && error == Some(MessageOr(answer.error, ProductLoadError))
    {
      if productId == "" {
        product := None;
        loading := false;
        return;
      }
      loading := true;
      error := None;
      match answer {
        case Ok(produit) =>
          product := Some(MapProduit(produit));
        case Err(thrown) =>
          error := Some(MessageOr(thrown, ProductLoadError));
      }
      loading := false;
    }
  }
}
