/** The category listing page: the route parameter chooses the category that is
    listed, each listed product is projected to a card, the sidebar offers the
    distinct manufacturers and subcategories, and three filters combine. */
module ProductsPage {
  import opened Common
  import opened Text
  import opened Catalog

  /** `apiCategory` as written: no parameter and every value but a case-insensitive
      `electrics` list automation products. */
  function ApiCategory(route: Option<string>): string {
    if !Truthy(route) then "automation"
    else if Lower(route.value) == "electrics" then "electrics"
    else "automation"
  }

  /** The mapping as written (the second comparison repeats the first), in full. */
  lemma ApiCategorySpec(route: Option<string>)
    ensures ApiCategory(route) == "electrics" <==> Truthy(route) && Lower(route.value) == "electrics"
    ensures ApiCategory(route) != "electrics" ==> ApiCategory(route) == "automation"
  {
  }

  /** No route parameter lists the category the title and the dashboard call
      `electronic`; in particular the navigation's `/products/electronics` lists
      automation products. */
  lemma ApiCategoryNeverElectronic(route: Option<string>)
    ensures ApiCategory(route) != "electronic"
    ensures ApiCategory(Some("electronics")) == "automation"
  {
  }

  /** The mapping the page evidently means: `electrics` or `electronics` (any case) list
      the `electronic` category, everything else automation. */
  function IntendedApiCategory(route: Option<string>): (r: string)
    ensures r == "electronic" || r == "automation"
  {
    if !Truthy(route) then "automation"
    else if Lower(route.value) == "electrics" || Lower(route.value) == "electronics" then "electronic"
    else "automation"
  }

  /** With the intended mapping both navigation routes list one of the dashboard's two
      categories, each a different one, and the electronics route shows its own title. */
  lemma IntendedRoutesReachBothCategories()
    ensures IntendedApiCategory(Some("automation")) == "automation"
    ensures IntendedApiCategory(Some("electronics")) == "electronic"
    ensures CategoryTitle(IntendedApiCategory(Some("electronics"))) == ElectricTitle
  {
  }

  const ElectricTitle: string := "Electrics & Switch Gears"
  const AutomationTitle: string := "Marine & Industrial Automation"

  /** `categoryTitle`. */
  function CategoryTitle(apiCategory: string): string {
    if apiCategory == "electronic" then ElectricTitle else AutomationTitle
  }

  /** As written, the electrics title is never shown. */
  lemma ElectricTitleUnreachable(route: Option<string>)
    ensures CategoryTitle(ApiCategory(route)) == AutomationTitle
  {
    ApiCategoryNeverElectronic(route);
  }

  /** One card: missing text fields become `""`, and the picture falls back. */
  datatype Card = Card(id: string, name: Option<string>, partNumber: string,
                       manufacturer: string, subcategory: string, image: string)

  /** A card names its product and always has a picture. */
  function ToCard(p: Product): (c: Card)
    ensures c.id == p.id && c.name == p.name && c.image == CardImage(p) && c.image != ""
    ensures c.partNumber == OrEmpty(p.partNumber)
    ensures c.manufacturer == OrEmpty(p.manufacturer) && c.subcategory == OrEmpty(p.subcategory)
  {
    Card(p.id, p.name, OrEmpty(p.partNumber), OrEmpty(p.manufacturer), OrEmpty(p.subcategory), CardImage(p))
  }

  predicate InCategory(apiCategory: string, p: Product) {
    Lower(OrEmpty(p.category)) == apiCategory
  }

  /** The products behind the cards of `Listing`. */
  function Listed(all: seq<Product>, apiCategory: string): seq<Product> {
    Filter((p: Product) => InCategory(apiCategory, p), all)
  }

  /** `products`: the cards of the products whose lower-cased category is the chosen one. */
  function Listing(all: seq<Product>, apiCategory: string): seq<Card> {
    Map(ToCard, Listed(all, apiCategory))
  }

  /** The listing holds a card for exactly the products in the category, in list order. */
  lemma ListingSpec(all: seq<Product>, apiCategory: string)
    ensures var inCat := Listed(all, apiCategory);
      |Listing(all, apiCategory)| == |inCat|
      && (forall k :: 0 <= k < |inCat| ==> Listing(all, apiCategory)[k] == ToCard(inCat[k]))
      && (forall p :: p in inCat <==> p in all && InCategory(apiCategory, p))
      && IsSubsequence(inCat, all)
  {
    var f := (p: Product) => InCategory(apiCategory, p);
    FilterIsSubsequence(f, all);
    forall p ensures p in Filter(f, all) <==> p in all && InCategory(apiCategory, p) {
      FilterMembership(f, all, p);
    }
  }

  /** As written, a product the dashboard files under `electronic` is listed on no route. */
  lemma ElectronicProductsNeverListed(all: seq<Product>, route: Option<string>)
    ensures forall p :: p in all && p.category == Some("electronic") ==> p !in Listed(all, ApiCategory(route))
  {
    ApiCategoryNeverElectronic(route);
    assert Lower("electronic") == "electronic";
    forall p | p in all && p.category == Some("electronic") ensures p !in Listed(all, ApiCategory(route)) {
      FilterMembership((q: Product) => InCategory(ApiCategory(route), q), all, p);
    }
  }

  /** With the intended mapping the electronics route lists every such product. */
  lemma IntendedListsElectronicProducts(all: seq<Product>)
    ensures forall p :: p in all && p.category == Some("electronic") ==>
      p in Listed(all, IntendedApiCategory(Some("electronics")))
  {
    assert Lower("electronic") == "electronic";
    assert Lower("electronics") == "electronics";
    forall p | p in all && p.category == Some("electronic") ensures p in Listed(all, "electronic") {
      FilterMembership((q: Product) => InCategory("electronic", q), all, p);
    }
  }

  /** The sidebar's choices: the distinct non-empty values, deduplicated as `Dedup` does. */
  function Distinct(values: seq<string>): seq<string> {
    Dedup(Filter((v: string) => v != "", values))
  }

  function Manufacturers(cards: seq<Card>): seq<string> {
    Distinct(Map((c: Card) => c.manufacturer, cards))
  }

  function Subcategories(cards: seq<Card>): seq<string> {
    Distinct(Map((c: Card) => c.subcategory, cards))
  }

  /** Each choice is non-empty and appears once, and every non-empty value of a card
      is offered. */
  lemma DistinctSpec(values: seq<string>)
    ensures forall v :: v in Distinct(values) <==> v in values && v != ""
    ensures forall i, j :: 0 <= i < j < |Distinct(values)| ==> Distinct(values)[i] != Distinct(values)[j]
  {
    var f := (v: string) => v != "";
    DedupSpec(Filter(f, values));
    forall v ensures v in Filter(f, values) <==> v in values && v != "" {
      FilterMembership(f, values, v);
    }
  }

  lemma ManufacturersSpec(cards: seq<Card>)
    ensures forall m :: m in Manufacturers(cards) <==> m != "" && exists c :: c in cards && c.manufacturer == m
    ensures forall i, j :: 0 <= i < j < |Manufacturers(cards)| ==> Manufacturers(cards)[i] != Manufacturers(cards)[j]
  {
    var vs := Map((c: Card) => c.manufacturer, cards);
    DistinctSpec(vs);
    forall m | m != "" && exists c :: c in cards && c.manufacturer == m ensures m in vs {
      var c :| c in cards && c.manufacturer == m;
      var k :| 0 <= k < |cards| && cards[k] == c;
      assert vs[k] == m;
    }
  }

  lemma SubcategoriesSpec(cards: seq<Card>)
    ensures forall s :: s in Subcategories(cards) <==> s != "" && exists c :: c in cards && c.subcategory == s
    ensures forall i, j :: 0 <= i < j < |Subcategories(cards)| ==> Subcategories(cards)[i] != Subcategories(cards)[j]
  {
    var vs := Map((c: Card) => c.subcategory, cards);
    DistinctSpec(vs);
    forall s | s != "" && exists c :: c in cards && c.subcategory == s ensures s in vs {
      var c :| c in cards && c.subcategory == s;
      var k :| 0 <= k < |cards| && cards[k] == c;
      assert vs[k] == s;
    }
  }

  /** The three sidebar tests, all of which a card must pass. */
  predicate Shown(term: string, manufacturer: string, subcategory: string, c: Card) {
    var t := Lower(term);
    (Contains(Lower(OrEmpty(c.name)), t) || Contains(Lower(c.partNumber), t))
    && (manufacturer == "" || c.manufacturer == manufacturer)
    && (subcategory == "" || c.subcategory == subcategory)
  }

  function FilteredProducts(cards: seq<Card>, term: string, manufacturer: string, subcategory: string): seq<Card> {
    Filter((c: Card) => Shown(term, manufacturer, subcategory, c), cards)
  }

  /** A card is shown exactly when it passes all three tests; with no term and no
      selection every card is shown. */
  lemma FilteredSpec(cards: seq<Card>, term: string, manufacturer: string, subcategory: string)
    ensures forall c :: c in FilteredProducts(cards, term, manufacturer, subcategory) <==>
      c in cards
      && (Contains(Lower(OrEmpty(c.name)), Lower(term)) || Contains(Lower(c.partNumber), Lower(term)))
      && (manufacturer == "" || c.manufacturer == manufacturer)
      && (subcategory == "" || c.subcategory == subcategory)
    ensures IsSubsequence(FilteredProducts(cards, term, manufacturer, subcategory), cards)
    ensures term == "" && manufacturer == "" && subcategory == "" ==>
      FilteredProducts(cards, term, manufacturer, subcategory) == cards
  {
    var f := (c: Card) => Shown(term, manufacturer, subcategory, c);
    forall c ensures c in Filter(f, cards) <==> c in cards && Shown(term, manufacturer, subcategory, c) {
      FilterMembership(f, cards, c);
    }
    FilterIsSubsequence(f, cards);
    if term == "" && manufacturer == "" && subcategory == "" {
      forall c | c in cards ensures f(c) {
        ContainsEmpty(Lower(OrEmpty(c.name)));
      }
      FilterKeepsAll(f, cards);
    }
  }
}
