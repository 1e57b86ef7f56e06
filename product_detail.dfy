/** The product page: which product the URL's id names, the picture list it shows,
    the `PUT` that removing one picture sends and what the route handler stores for
    it, and the category the breadcrumb links to. */
module ProductDetail {
  import opened Common
  import opened Text
  import opened Catalog
  import opened RouteHandlers
  import ProductsPage

  /** `list.find(p => p.id === id) || null` over the listed document; without an id
      the page loads nothing. */
  function FoundProduct(d: Document, id: Option<string>): (r: Option<Product>)
    ensures r.Some? ==> Truthy(id) && r.value in ProductsOf(d) && r.value.id == id.value
    ensures r.None? && Truthy(id) ==> forall p :: p in ProductsOf(d) ==> p.id != id.value
  {
    if !Truthy(id) then None
    else
      var ps := ProductsOf(d);
      var i := FindIndex(ps, id.value);
      if i == -1 then None else Some(ps[i])
  }

  /** The page shows the first product with that id whenever there is one. */
  lemma FoundProductIsFirst(d: Document, id: string)
    requires id != ""
    ensures var ps := ProductsOf(d);
      (exists k :: 0 <= k < |ps| && ps[k].id == id) <==> FoundProduct(d, Some(id)).Some?
    ensures var ps := ProductsOf(d);
      FoundProduct(d, Some(id)).Some? ==>
        exists k :: 0 <= k < |ps| && ps[k] == FoundProduct(d, Some(id)).value
          && forall j :: 0 <= j < k ==> ps[j].id != id
  {
    var ps := ProductsOf(d);
    var i := FindIndex(ps, id);
    if i != -1 {
      assert ps[i] == FoundProduct(d, Some(id)).value;
    }
  }

  /** `images`: nothing without a product, else the non-empty `images` array, else
      `[image]` when it is set, else the placeholder alone. */
  function Images(product: Option<Product>): seq<string> {
    if product.None? then []
    else
      var p := product.value;
      if p.images.Some? && |p.images.value| > 0 then p.images.value
      else if Truthy(p.image) then [p.image.value]
      else [Placeholder]
  }

  /** A product always has something to show; and unless its list starts with an empty
      URL, the page leads with the picture its card shows elsewhere. */
  lemma ImagesSpec(p: Product)
    ensures Images(None) == []
    ensures |Images(Some(p))| > 0
    ensures p.images.Some? && |p.images.value| > 0 ==> Images(Some(p)) == p.images.value
    ensures !(p.images.Some? && |p.images.value| > 0 && p.images.value[0] == "") ==>
      Images(Some(p))[0] == CardImage(p)
  {
  }

  /** `images.filter((_, i) => i !== idx)`: the list `handleRemoveImage` keeps. */
  function Keep(images: seq<string>, idx: int): seq<string> {
    ExceptIndex(images, idx)
  }

  /** Removing the picture at a valid index keeps every other one, in order, and
      only that one goes. */
  lemma KeepSpec(images: seq<string>, idx: int)
    requires 0 <= idx < |images|
    ensures |Keep(images, idx)| == |images| - 1
    ensures forall j :: 0 <= j < idx ==> Keep(images, idx)[j] == images[j]
    ensures forall j :: idx <= j < |images| - 1 ==> Keep(images, idx)[j] == images[j + 1]
    ensures multiset(Keep(images, idx)) == multiset(images) - multiset{images[idx]}
  {
    ExceptIndexIsRemoveAt(images, idx);
    RemoveAtMultiset(images, idx);
  }

  /** The form `handleRemoveImage` sends: only `id` and the `keepImages` list, as
      multipart. */
  function RemoveImageRequest(id: string, keep: seq<string>, boundary: string): PutRequest {
    PutRequest(Multipart + "; boundary=" + boundary,
      PutForm(Some(id), None, None, None, None, None, None, Some(keep), []), None)
  }

  /** When the route handler accepts that form, the product keeps all its fields but
      its pictures, which become exactly the kept list (with `image` its first), the
      blob-hosted URLs that were not kept are deleted, and nothing else in the list
      changes. */
  lemma RemoveImageStores(stored: Option<Document>, env: Env, id: string, keep: seq<string>, boundary: string)
    requires PutOutcome(stored, env, RemoveImageRequest(id, keep, boundary)).reply.status == 200
    ensures ReadBlob(stored, env.net).Some? && ReadBlob(stored, env.net).value.products.Some?
    ensures var ps := ReadBlob(stored, env.net).value.products.value;
      var idx := FindIndex(ps, id);
      var o := PutOutcome(stored, env, RemoveImageRequest(id, keep, boundary));
      0 <= idx < |ps|
      && o.reply.product == Some(WithImages(ps[idx], keep))
      && o.written == Some(Document(Some(ps[idx := WithImages(ps[idx], keep)])))
      && o.deletions == Filter(IsBlobUrl, Dropped(ps[idx], keep))
  {
    var req := RemoveImageRequest(id, keep, boundary);
    assert req.contentType[..|Multipart|] == Multipart;
    assert AllUploaded(env.uploads, 0) == Some([]);
    assert KeptImages(req.form) + [] == keep;
  }

  /** After a successful removal the page shows the kept list, or the placeholder once
      nothing is kept. */
  lemma ShownAfterRemoval(p: Product, keep: seq<string>)
    ensures |keep| > 0 ==> Images(Some(WithImages(p, keep))) == keep
    ensures keep == [] ==> Images(Some(WithImages(p, keep))) == [Placeholder]
  {
  }

  /** `categoryFromId`: `electronics` when the id's part before the first hyphen is
      `electronic` in any case, else `automation`. */
  function CategoryFromId(id: Option<string>): string {
    if !Truthy(id) then "automation"
    else if Lower(BeforeHyphen(id.value)) == "electronic" then "electronics"
    else "automation"
  }

  /** For a product the route's `POST` created from a category without hyphens, the
      breadcrumb category follows the category the product was filed under. */
  lemma CategoryOfCreatedProduct(form: PostForm, urls: seq<string>, timestamp: nat, now: int)
    requires form.category.Some? && '-' !in form.category.value
    ensures CategoryFromId(Some(NewProduct(form, urls, timestamp, now).id)) ==
      if Lower(form.category.value) == "electronic" then "electronics" else "automation"
  {
    BeforeHyphenOfJoin(form.category.value, DecimalString(timestamp));
  }

  /** The breadcrumb links to `/products/electronics` or `/products/automation`; with the
      listing page's intended mapping that route lists the product's own category, for
      both categories the dashboard files products under. */
  lemma BreadcrumbListsOwnCategory(form: PostForm, urls: seq<string>, timestamp: nat, now: int)
    requires form.category == Some("electronic") || form.category == Some("automation")
    ensures ProductsPage.IntendedApiCategory(Some(CategoryFromId(Some(NewProduct(form, urls, timestamp, now).id))))
      == form.category.value
  {
    assert Lower("electronic") == "electronic";
    assert Lower("automation") == "automation";
    assert Lower("electronics") == "electronics";
    CategoryOfCreatedProduct(form, urls, timestamp, now);
  }
}
