/** The search page: which query counts, which products it finds across seven
    fields, how each hit is shown, and what submitting puts into the URL. */
module Search {
  import opened Common
  import opened Text
  import opened Catalog

  /** `(submitted ? query : initialQ).trim().toLowerCase()`. */
  function EffectiveQuery(submitted: bool, query: string, initialQ: string): string {
    Lower(Trim(if submitted then query else initialQ))
  }

  /** `params.get("q") || ""`. */
  function InitialQuery(q: Option<string>): string {
    OrEmpty(q)
  }

  /** The seven searched fields, each `String(p[f] || "")`: name, part number,
      manufacturer, subcategory, description, category and id. */
  function SearchFields(p: Product): seq<string> {
    [OrEmpty(p.name), OrEmpty(p.partNumber), OrEmpty(p.manufacturer), OrEmpty(p.subcategory),
     OrEmpty(p.description), OrEmpty(p.category), p.id]
  }

  /** `fields.some(f => String(p[f] || "").toLowerCase().includes(q))`. */
  predicate Hit(q: string, p: Product) {
    exists i :: 0 <= i < 7 && Contains(Lower(SearchFields(p)[i]), q)
  }

  /** A product is a hit exactly when the query occurs in one of the seven lower-cased
      fields, each missing one counting as `""`. */
  lemma HitFields(q: string, p: Product)
    ensures Hit(q, p) <==>
      Contains(Lower(OrEmpty(p.name)), q) || Contains(Lower(OrEmpty(p.partNumber)), q)
      || Contains(Lower(OrEmpty(p.manufacturer)), q) || Contains(Lower(OrEmpty(p.subcategory)), q)
      || Contains(Lower(OrEmpty(p.description)), q) || Contains(Lower(OrEmpty(p.category)), q)
      || Contains(Lower(p.id), q)
  {
    var fs := SearchFields(p);
    if Contains(Lower(OrEmpty(p.name)), q) { assert Contains(Lower(fs[0]), q); }
    if Contains(Lower(OrEmpty(p.partNumber)), q) { assert Contains(Lower(fs[1]), q); }
    if Contains(Lower(OrEmpty(p.manufacturer)), q) { assert Contains(Lower(fs[2]), q); }
    if Contains(Lower(OrEmpty(p.subcategory)), q) { assert Contains(Lower(fs[3]), q); }
    if Contains(Lower(OrEmpty(p.description)), q) { assert Contains(Lower(fs[4]), q); }
    if Contains(Lower(OrEmpty(p.category)), q) { assert Contains(Lower(fs[5]), q); }
    if Contains(Lower(p.id), q) { assert Contains(Lower(fs[6]), q); }
  }

  /** One hit as the page shows it. */
  datatype Result = Result(id: string, name: Option<string>, partNumber: string, image: string, category: string)

  /** A hit names its product, always has a picture, and carries its category in
      lower case: lower-casing it again changes nothing. */
  function Summarize(p: Product): (r: Result)
    ensures r.id == p.id && r.name == p.name
    ensures r.partNumber == OrEmpty(p.partNumber)
    ensures r.image == CardImage(p) && r.image != ""
    ensures r.category == Lower(OrEmpty(p.category)) && Lower(r.category) == r.category
  {
    LowerIdempotent(OrEmpty(p.category));
    Result(p.id, p.name, OrEmpty(p.partNumber), CardImage(p), Lower(OrEmpty(p.category)))
  }

  function Matching(all: seq<Product>, q: string): seq<Product> {
    Filter((p: Product) => Hit(q, p), all)
  }

  /** `results`: nothing for an empty query, else every hit, summarized, in list order. */
  function Results(all: seq<Product>, q: string): seq<Result> {
    if q == "" then [] else Map(Summarize, Matching(all, q))
  }

  /** A query that trims to nothing finds nothing; in particular a submitted query made
      only of white space. */
  lemma BlankQueryFindsNothing(all: seq<Product>, submitted: bool, query: string, initialQ: string)
    ensures Trim(if submitted then query else initialQ) == "" ==>
      Results(all, EffectiveQuery(submitted, query, initialQ)) == []
    ensures (forall i :: 0 <= i < |query| ==> IsSpace(query[i])) ==>
      Results(all, EffectiveQuery(true, query, initialQ)) == []
  {
    TrimEmptyIffBlank(query);
  }

  /** For a non-empty query the results are the hits of the list, in list order, one
      summary each: a product is found exactly when one of its seven fields contains
      the query. */
  lemma ResultsSpec(all: seq<Product>, q: string)
    requires q != ""
    ensures var m := Matching(all, q);
      |Results(all, q)| == |m|
      && (forall k :: 0 <= k < |m| ==> Results(all, q)[k] == Summarize(m[k]))
      && IsSubsequence(m, all)
      && (forall p :: p in m <==> p in all && Hit(q, p))
  {
    var hit := (p: Product) => Hit(q, p);
    FilterIsSubsequence(hit, all);
    forall p ensures p in Matching(all, q) <==> p in all && Hit(q, p) {
      FilterMembership(hit, all, p);
    }
  }

  /** Searching by a product's own id (lower case, non-empty) always finds it. */
  lemma IdFindsProduct(all: seq<Product>, p: Product)
    requires p in all && p.id != "" && Lower(p.id) == p.id
    ensures Summarize(p) in Results(all, p.id)
  {
    assert Contains(Lower(SearchFields(p)[6]), p.id) by {
      assert IsPrefix(p.id, Lower(p.id));
    }
    ResultsSpec(all, p.id);
    var m := Matching(all, p.id);
    var k :| 0 <= k < |m| && m[k] == p;
    assert Results(all, p.id)[k] == Summarize(p);
  }

  /** `onSubmit`: the URL's `q` becomes the trimmed query, or is cleared when that is empty. */
  function OnSubmit(query: string): (q: Option<string>)
    ensures q.Some? <==> Trim(query) != ""
    ensures q.Some? ==> q.value == Trim(query)
  {
    if Trim(query) != "" then Some(Trim(query)) else None
  }

  /** Reloading the page after a submit searches for the same thing: the query read back
      from the URL gives the effective query the submit used. */
  lemma SubmitThenReload(query: string, anyQuery: string)
    ensures EffectiveQuery(false, anyQuery, InitialQuery(OnSubmit(query))) == EffectiveQuery(true, query, "")
  {
    TrimIdempotent(query);
  }
}
