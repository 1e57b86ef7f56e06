/** The admin dashboard's list logic: the category link sent with a new product,
    the per-tab search and sort, pagination by five, the image reordering of the
    add form and of the editor, and the choice of request when an edit is saved. */
module Dashboard {
  import opened Common
  import opened Text
  import opened Catalog
  import opened Ordering
  import opened RouteHandlers
  import opened RouteProperties

  // ---------------------------------------------------------------- categories

  /** `categories.find(c => c.value === category)?.link || ""`. */
  function CategoryLink(category: string): (r: string) {
    if category == "automation" then "/products/automation"
    else if category == "electronic" then "/products/electronic"
    else ""
  }

  /** The link is `/products/<category>` for the two known categories and empty for any other. */
  lemma CategoryLinkSpec(category: string)
    ensures (category == "automation" || category == "electronic") <==> CategoryLink(category) != ""
    ensures CategoryLink(category) != "" ==> CategoryLink(category) == "/products/" + category
  {
  }

  // ---------------------------------------------------------------- list management

  function TabProducts(ps: seq<Product>, tab: string): seq<Product> {
    Filter((p: Product) => p.category == Some(tab), ps)
  }

  /** The search test: the lower-cased term occurs in the lower-cased name, part number
      or description. */
  predicate Matches(term: string, p: Product) {
    var s := Lower(term);
    Contains(Lower(OrEmpty(p.name)), s) || Contains(Lower(OrEmpty(p.partNumber)), s)
    || Contains(Lower(OrEmpty(p.description)), s)
  }

  function Searched(ps: seq<Product>, term: string): seq<Product> {
    Filter((p: Product) => Matches(term, p), ps)
  }

  /** `managedProducts`: the tab's products that match the term, sorted by `mode`. */
  function ManagedProducts(ps: seq<Product>, tab: string, term: string, mode: SortBy): seq<Product> {
    Sort(mode, Searched(TabProducts(ps, tab), term))
  }

  /** Every managed product is one of the tab's products and matches the term, and every
      such product is managed, as often as it occurs in the list. */
  lemma ManagedSoundComplete(ps: seq<Product>, tab: string, term: string, mode: SortBy)
    ensures forall p :: p in ManagedProducts(ps, tab, term, mode) <==>
      p in ps && p.category == Some(tab) && Matches(term, p)
    ensures multiset(ManagedProducts(ps, tab, term, mode)) == multiset(Searched(TabProducts(ps, tab), term))
  {
    var onTab := (p: Product) => p.category == Some(tab);
    var matching := (p: Product) => Matches(term, p);
    forall p ensures p in ManagedProducts(ps, tab, term, mode) <==> p in ps && p.category == Some(tab) && Matches(term, p) {
      var m := ManagedProducts(ps, tab, term, mode);
      assert p in m <==> p in multiset(m);
      assert p in Searched(TabProducts(ps, tab), term) <==> p in multiset(Searched(TabProducts(ps, tab), term));
      FilterMembership(matching, TabProducts(ps, tab), p);
      FilterMembership(onTab, ps, p);
    }
  }

  /** An empty search term keeps the whole tab: the managed list is the tab's products
      rearranged. */
  lemma EmptyTermKeepsTab(ps: seq<Product>, tab: string, mode: SortBy)
    ensures multiset(ManagedProducts(ps, tab, "", mode)) == multiset(TabProducts(ps, tab))
  {
    forall p | p in TabProducts(ps, tab) ensures Matches("", p) {
      ContainsEmpty(Lower(OrEmpty(p.name)));
    }
    FilterKeepsAll((p: Product) => Matches("", p), TabProducts(ps, tab));
  }

  /** The managed list is ordered by the selected mode. */
  lemma ManagedSorted(ps: seq<Product>, tab: string, term: string, mode: SortBy)
    ensures var m := ManagedProducts(ps, tab, term, mode);
      forall i, j :: 0 <= i < j < |m| ==> Before(mode, m[i], m[j])
  {
    SortSpec(mode, Searched(TabProducts(ps, tab), term));
  }

  // ---------------------------------------------------------------- pagination

  const PageSize: nat := 5

  /** `Math.max(1, Math.ceil(n / 5))`. */
  function TotalPages(n: nat): (r: nat)
    ensures r >= 1
    ensures r * PageSize >= n
    ensures n > 0 ==> (r - 1) * PageSize < n
  {
    if n == 0 then 1 else (n + PageSize - 1) / PageSize
  }

  /** `list.slice((page - 1) * 5, (page - 1) * 5 + 5)`; `page` starts at 1 and the
      controls never take it lower. */
  function PagedProducts(list: seq<Product>, page: nat): (r: seq<Product>)
    requires page >= 1
    ensures |r| <= PageSize
    ensures forall k :: 0 <= k < |r| ==> (page - 1) * PageSize + k < |list| && r[k] == list[(page - 1) * PageSize + k]
  {
    var start := (page - 1) * PageSize;
    Slice(list, start, start + PageSize)
  }

  /** The item at `i` is shown on page `i / 5 + 1`, which lies within `1..TotalPages`,
      at its position modulo five. */
  lemma PageCovers(list: seq<Product>, i: nat)
    requires i < |list|
    ensures var page := i / PageSize + 1;
      page <= TotalPages(|list|)
      && i % PageSize < |PagedProducts(list, page)|
      && PagedProducts(list, page)[i % PageSize] == list[i]
  {
    var page := i / PageSize + 1;
    var start := (page - 1) * PageSize;
    assert start <= i < start + PageSize;
  }

  lemma FullPages(list: seq<Product>, page: nat)
    requires 1 <= page < TotalPages(|list|)
    ensures |PagedProducts(list, page)| == PageSize
  {
  }

  /** `Math.max(1, p - 1)`. */
  function Prev(page: int): int {
    if page - 1 < 1 then 1 else page - 1
  }

  /** `Math.min(totalPages, p + 1)`. */
  function Next(page: int, total: nat): int {
    if total < page + 1 then total else page + 1
  }

  /** Prev and Next bring a page back within `1..total` and move it by at most one.
      The page may be one past the last: deleting the only product on the last page
      refetches the list without resetting the page. */
  lemma PrevNextClamp(page: int, total: nat)
    requires 1 <= total && 1 <= page <= total + 1
    ensures 1 <= Prev(page) <= total && 1 <= Next(page, total) <= total
    ensures Prev(page) == if page > 1 then page - 1 else 1
    ensures Next(page, total) == if page < total then page + 1 else total
  {
  }

  // ---------------------------------------------------------------- image reordering

  /** Copy `xs` into a fresh array, swap positions `i` and `j` in place, and return
      the copy's contents. */
  method SwapCopy<T>(xs: seq<T>, i: nat, j: nat) returns (r: seq<T>)
    requires i < |xs| && j < |xs|
    ensures r == Swap(xs, i, j)
  {
    var a := new T[|xs|](k requires 0 <= k < |xs| => xs[k]);
    a[i], a[j] := a[j], a[i];
    r := a[..];
  }

  /** `moveImage(index, direction)` on the add form: a swap with the neighbour in both
      the files and their previews, or nothing when the neighbour does not exist. */
  method MoveImage(files: seq<ImageFile>, previews: seq<string>, index: nat, up: bool)
    returns (fs: seq<ImageFile>, pv: seq<string>)
    requires index < |files| && |previews| == |files|
    ensures var j := if up then index - 1 else index + 1;
      if 0 <= j < |files| then fs == Swap(files, index, j) && pv == Swap(previews, index, j)
      else fs == files && pv == previews
  {
    var j := if up then index - 1 else index + 1;
    if j < 0 || j >= |files| {
      return files, previews;
    }
    fs := SwapCopy(files, index, j);
    pv := SwapCopy(previews, index, j);
  }

  /** A move keeps files and previews paired, the same length and the same elements. */
  lemma MoveKeepsContents(files: seq<ImageFile>, previews: seq<string>, index: nat, j: nat)
    requires index < |files| && j < |files| && |previews| == |files|
    ensures |Swap(files, index, j)| == |Swap(previews, index, j)| == |files|
    ensures multiset(Swap(files, index, j)) == multiset(files)
    ensures multiset(Swap(previews, index, j)) == multiset(previews)
    ensures forall k :: 0 <= k < |files| ==>
      Swap(files, index, j)[k] == files[SwappedFrom(index, j, k)]
      && Swap(previews, index, j)[k] == previews[SwappedFrom(index, j, k)]
  {
    SwapMultiset(files, index, j);
    SwapMultiset(previews, index, j);
  }

  /** The position a swap of `i` and `j` takes the element at `k` from. */
  function SwappedFrom(i: nat, j: nat, k: nat): nat {
    if k == i then j else if k == j then i else k
  }

  /** The editor's Up: nothing at the top, else a swap with the previous image. */
  method EditUp(images: seq<string>, idx: nat) returns (r: seq<string>)
    requires idx < |images|
    ensures idx == 0 ==> r == images
    ensures idx > 0 ==> r == Swap(images, idx - 1, idx)
  {
    if idx == 0 {
      return images;
    }
    r := SwapCopy(images, idx - 1, idx);
  }

  /** The editor's Down: nothing at the bottom, else a swap with the next image. */
  method EditDown(images: seq<string>, idx: nat) returns (r: seq<string>)
    requires idx < |images|
    ensures idx == |images| - 1 ==> r == images
    ensures idx < |images| - 1 ==> r == Swap(images, idx, idx + 1)
  {
    if idx == |images| - 1 {
      return images;
    }
    r := SwapCopy(images, idx + 1, idx);
    assert Swap(images, idx + 1, idx) == Swap(images, idx, idx + 1);
  }

  /** Up and then Down on the image that moved restores the editor's list. */
  method UpThenDown(images: seq<string>, idx: nat) returns (r: seq<string>)
    requires 0 < idx < |images|
    ensures r == images
  {
    var up := EditUp(images, idx);
    r := EditDown(up, idx - 1);
    SwapInvolution(images, idx - 1, idx);
  }

  /** The editor's Remove: `images.filter((_, i) => i !== idx)`. */
  function EditRemove(images: seq<string>, idx: nat): seq<string> {
    ExceptIndex(images, idx)
  }

  /** Remove drops exactly the image at `idx`: one fewer, the others in order. */
  lemma EditRemoveSpec(images: seq<string>, idx: nat)
    requires idx < |images|
    ensures EditRemove(images, idx) == images[..idx] + images[idx + 1..]
    ensures |EditRemove(images, idx)| == |images| - 1
    ensures multiset(EditRemove(images, idx)) == multiset(images) - multiset{images[idx]}
  {
    ExceptIndexIsRemoveAt(images, idx);
    RemoveAtMultiset(images, idx);
  }

  /** Removing a not-yet-uploaded file in the editor: `splice(idx, 1)` on copies of the
      files and of their previews. */
  method RemoveNewFile(files: seq<ImageFile>, previews: seq<string>, idx: nat)
    returns (fs: seq<ImageFile>, pv: seq<string>)
    requires idx < |files| && idx < |previews|
    ensures fs == RemoveAt(files, idx) && pv == RemoveAt(previews, idx)
    ensures |fs| == |files| - 1 && |pv| == |previews| - 1
  {
    fs := files[..idx] + files[idx + 1..];
    pv := previews[..idx] + previews[idx + 1..];
  }

  // ---------------------------------------------------------------- editing

  /** The editor's state: the text fields, the image list and the condition picked in
      the dropdown, if any. */
  datatype EditState = EditState(
    name: Option<string>,
    description: Option<string>,
    partNumber: string,
    images: seq<string>,
    condition: Option<string>)

  /** `images` when it is an array, else `[image]` when it is truthy, else `[]`. */
  function EditImages(p: Product): (r: seq<string>) {
    if p.images.Some? then p.images.value else if Truthy(p.image) then [p.image.value] else []
  }

  /** Pressing Edit: the product's name, description and part number (default `""`), its
      images, and no condition yet. */
  function InitEdit(p: Product): (e: EditState)
    ensures e.images == EditImages(p) && e.condition.None?
  {
    EditState(p.name, p.description, OrEmpty(p.partNumber), EditImages(p), None)
  }

  /** The editor starts from the product's current images: a mirrored product's first
      image comes first. */
  lemma InitEditImages(p: Product)
    ensures p.images.Some? ==> InitEdit(p).images == p.images.value
    ensures p.images.None? ==> (InitEdit(p).images == [] <==> !Truthy(p.image))
    ensures Mirrored(p) && p.images.Some? && |p.images.value| > 0 && p.images.value[0] != ""
      ==> p.image == Some(InitEdit(p).images[0])
  {
  }

  /** What Save does: refuse with a message, or send one `PUT`. */
  datatype SaveAction = Refuse | Send(req: PutRequest)

  const NoForm: PutForm := PutForm(None, None, None, None, None, None, None, None, [])

  /** The save handler: all three trimmed text fields must be non-empty; with new files
      it sends a multipart form with `keepImages`, and otherwise a JSON body carrying
      the images and the condition. */
  function SaveEdit(p: Product, e: EditState, newFiles: seq<ImageFile>, boundary: string): SaveAction {
    var n := Trim(OrEmpty(e.name));
    var pn := Trim(e.partNumber);
    var d := Trim(OrEmpty(e.description));
    if n == "" || pn == "" || d == "" then Refuse
    else if |newFiles| > 0 then
      Send(PutRequest(Multipart + "; boundary=" + boundary,
        PutForm(Some(p.id), Some(n), Some(d), Some(pn), None, None, None, Some(e.images), newFiles), None))
    else
      Send(PutRequest("application/json", NoForm,
        Some(PutBody(Some(p.id), Some(n), Some(d), Some(pn), None, None,
                     if Truthy(e.condition) then e.condition else p.condition, Some(e.images)))))
  }

  /** Save sends nothing unless the trimmed name, part number and description are all
      non-empty, and then sends multipart exactly when there are new files: the form
      carries the id, the kept images and the files but no condition, and the JSON
      body carries the id and the images. */
  lemma SaveEditChoice(p: Product, e: EditState, newFiles: seq<ImageFile>, boundary: string)
    ensures SaveEdit(p, e, newFiles, boundary).Send? <==>
      Trim(OrEmpty(e.name)) != "" && Trim(e.partNumber) != "" && Trim(OrEmpty(e.description)) != ""
    ensures var a := SaveEdit(p, e, newFiles, boundary);
      a.Send? ==> (Contains(a.req.contentType, Multipart) <==> |newFiles| > 0)
    ensures var a := SaveEdit(p, e, newFiles, boundary);
      a.Send? && |newFiles| > 0 ==>
        a.req.form.id == Some(p.id) && a.req.form.condition.None?
        && a.req.form.keepImages == Some(e.images) && a.req.form.newImages == newFiles
    ensures var a := SaveEdit(p, e, newFiles, boundary);
      a.Send? && |newFiles| == 0 ==>
        a.req.json.Some? && a.req.json.value.id == Some(p.id) && a.req.json.value.images == Some(e.images)
  {
    if SaveEdit(p, e, newFiles, boundary).Send? {
      if |newFiles| > 0 {
        assert (Multipart + "; boundary=" + boundary)[..|Multipart|] == Multipart;
      } else {
        NotMultipartJson();
      }
    }
  }

  lemma NotMultipartJson()
    ensures !Contains("application/json", Multipart)
  {
    var s := "application/json";
    ContainsIffOccurs(s, Multipart);
    assert |s| < |Multipart|;
  }

  /** The shape of a `PUT` that Save sends for the product with id `id`. */
  predicate SavedShape(req: PutRequest, id: string, keep: seq<string>, newFiles: seq<ImageFile>) {
    if Contains(req.contentType, Multipart) then
      req.form.id == Some(id) && req.form.condition.None?
      && req.form.keepImages == Some(keep) && req.form.newImages == newFiles
    else
      req.json.Some? && req.json.value.id == Some(id) && req.json.value.images == Some(keep) && newFiles == []
  }

  lemma SaveEditShape(p: Product, e: EditState, newFiles: seq<ImageFile>, boundary: string, req: PutRequest)
    requires SaveEdit(p, e, newFiles, boundary) == Send(req)
    ensures SavedShape(req, p.id, e.images, newFiles)
  {
    SaveEditChoice(p, e, newFiles, boundary);
  }

  lemma ShapedConditionKept(stored: Option<Document>, env: Env, req: PutRequest, id: string,
                            keep: seq<string>, newFiles: seq<ImageFile>)
    requires SavedShape(req, id, keep, newFiles)
    requires PutOutcome(stored, env, req).written.Some?
    ensures ReadBlob(stored, env.net).Some? && ReadBlob(stored, env.net).value.products.Some?
    ensures PutOutcome(stored, env, req).written.value.products.Some?
    ensures var ps := ReadBlob(stored, env.net).value.products.value;
      var ps' := PutOutcome(stored, env, req).written.value.products.value;
      var idx := FindIndex(ps, id);
      0 <= idx < |ps| && |ps'| == |ps| && ps'[idx].condition == ps[idx].condition
  {
    PutChangesOnlyTarget(stored, env, req);
    PutConditionSource(stored, env, req);
  }

  lemma ShapedImages(stored: Option<Document>, env: Env, req: PutRequest, id: string,
                     keep: seq<string>, newFiles: seq<ImageFile>)
    requires SavedShape(req, id, keep, newFiles)
    requires PutOutcome(stored, env, req).written.Some?
    ensures ReadBlob(stored, env.net).Some? && ReadBlob(stored, env.net).value.products.Some?
    ensures PutOutcome(stored, env, req).written.value.products.Some?
    ensures var ps := ReadBlob(stored, env.net).value.products.value;
      var ps' := PutOutcome(stored, env, req).written.value.products.value;
      var idx := FindIndex(ps, id);
      0 <= idx < |ps| && |ps'| == |ps|
      && ps'[idx].images == Some(keep + AllUploaded(env.uploads, |newFiles|).value)
      && Mirrored(ps'[idx])
  {
    PutChangesOnlyTarget(stored, env, req);
    PutImagesSource(stored, env, req);
    if !Contains(req.contentType, Multipart) {
      assert keep + AllUploaded(env.uploads, 0).value == keep;
    }
  }

  /** Saving an edit never changes the stored condition: the multipart form has no
      condition field, and the JSON handler ignores the one it is sent. */
  lemma EditedConditionNotSaved(stored: Option<Document>, env: Env, p: Product, e: EditState,
                                newFiles: seq<ImageFile>, boundary: string, req: PutRequest)
    requires SaveEdit(p, e, newFiles, boundary) == Send(req)
    requires PutOutcome(stored, env, req).written.Some?
    ensures ReadBlob(stored, env.net).Some? && ReadBlob(stored, env.net).value.products.Some?
    ensures PutOutcome(stored, env, req).written.value.products.Some?
    ensures var ps := ReadBlob(stored, env.net).value.products.value;
      var ps' := PutOutcome(stored, env, req).written.value.products.value;
      var idx := FindIndex(ps, p.id);
      0 <= idx < |ps| && |ps'| == |ps| && ps'[idx].condition == ps[idx].condition
  {
    SaveEditShape(p, e, newFiles, boundary, req);
    ShapedConditionKept(stored, env, req, p.id, e.images, newFiles);
  }

  /** A saved edit stores the editor's image list, in the editor's order, followed by
      the uploads of the new files, with `image` mirroring the first. */
  lemma SavedImages(stored: Option<Document>, env: Env, p: Product, e: EditState,
                    newFiles: seq<ImageFile>, boundary: string, req: PutRequest)
    requires SaveEdit(p, e, newFiles, boundary) == Send(req)
    requires PutOutcome(stored, env, req).written.Some?
    ensures ReadBlob(stored, env.net).Some? && ReadBlob(stored, env.net).value.products.Some?
    ensures PutOutcome(stored, env, req).written.value.products.Some?
    ensures var ps := ReadBlob(stored, env.net).value.products.value;
      var ps' := PutOutcome(stored, env, req).written.value.products.value;
      var idx := FindIndex(ps, p.id);
      0 <= idx < |ps| && |ps'| == |ps|
      && ps'[idx].images == Some(e.images + AllUploaded(env.uploads, |newFiles|).value)
      && Mirrored(ps'[idx])
  {
    SaveEditShape(p, e, newFiles, boundary, req);
    ShapedImages(stored, env, req, p.id, e.images, newFiles);
  }
}
