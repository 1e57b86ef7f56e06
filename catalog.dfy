/** The catalog document and the product records it holds, as both handler
    variants and all pages see them, plus the pieces of the blob service the
    handlers depend on, reduced to their observable outcomes. */
module Catalog {
  import opened Common
  import opened Text
  import Base64

  /** A display-only `{name, value}` pair; no handler writes these, all keep them. */
  datatype Specification = Specification(name: string, value: string)

  /** One element of `products`. A field the JSON object lacks is `None`;
      `images` is `None` when the field is absent or not an array. */
  datatype Product = Product(
    id: string,
    category: Option<string>,
    name: Option<string>,
    description: Option<string>,
    link: Option<string>,
    partNumber: Option<string>,
    condition: Option<string>,
    images: Option<seq<string>>,
    image: Option<string>,
    createdAt: Option<int>,
    manufacturer: Option<string>,
    subcategory: Option<string>,
    specifications: Option<seq<Specification>>)

  /** The persisted `{ products: [...] }` object; `products` is `None` when the
      stored JSON has no array under that key. */
  datatype Document = Document(products: Option<seq<Product>>)

  /** JavaScript truthiness of an optional string: present and not `""`. */
  predicate Truthy(s: Option<string>) {
    s.Some? && s.value != ""
  }

  /** `s || d`. */
  function OrElse(s: Option<string>, d: string): (r: string)
    ensures Truthy(s) ==> r == s.value
    ensures !Truthy(s) ==> r == d
  {
    if Truthy(s) then s.value else d
  }

  /** `s || ""`. */
  function OrEmpty(s: Option<string>): (r: string)
    ensures s.Some? ==> r == s.value
    ensures s.None? ==> r == ""
  {
    OrElse(s, "")
  }

  /** `xs[0] || undefined`, the legacy `image` mirror of an `images` list. */
  function FirstOrUndefined(xs: seq<string>): (r: Option<string>)
    ensures r.Some? <==> |xs| > 0 && xs[0] != ""
    ensures r.Some? ==> r.value == xs[0]
  {
    if |xs| > 0 && xs[0] != "" then Some(xs[0]) else None
  }

  /** The legacy field agrees with the list: `image` is `images[0]`, or absent when the
      list is empty (or starts with `""`). */
  predicate Mirrored(p: Product) {
    p.images.Some? ==> p.image == FirstOrUndefined(p.images.value)
  }

  const BlobHost: string := "vercel-storage.com"

  /** The handlers call `del` only on URLs that name the blob store's host. */
  predicate IsBlobUrl(url: string) {
    Contains(url, BlobHost)
  }

  /** `products.findIndex(p => p.id === id)`. */
  function FindIndex(ps: seq<Product>, id: string): (r: int)
    ensures -1 <= r < |ps|
    ensures r == -1 <==> forall i :: 0 <= i < |ps| ==> ps[i].id != id
    ensures r >= 0 ==> ps[r].id == id && forall i :: 0 <= i < r ==> ps[i].id != id
  {
    if ps == [] then -1
    else if ps[0].id == id then 0
    else
      var r := FindIndex(ps[1..], id);
      if r == -1 then -1 else r + 1
  }

  const Placeholder: string := "/placeholder.svg"

  /** `(Array.isArray(p.images) && p.images[0]) || p.image || "/placeholder.svg"`:
      the picture a product card shows. */
  function CardImage(p: Product): (r: string)
    ensures r != ""
    ensures p.images.Some? && |p.images.value| > 0 && p.images.value[0] != "" ==> r == p.images.value[0]
    ensures !(p.images.Some? && |p.images.value| > 0 && p.images.value[0] != "") ==> r == OrElse(p.image, Placeholder)
  {
    if p.images.Some? && |p.images.value| > 0 && p.images.value[0] != "" then p.images.value[0]
    else OrElse(p.image, Placeholder)
  }

  /** For a product whose legacy field mirrors its list, the card shows the first image
      whenever there is one. */
  lemma CardImageOfMirrored(p: Product)
    requires Mirrored(p) && p.images.Some?
    ensures CardImage(p) == OrElse(FirstOrUndefined(p.images.value), Placeholder)
  {
  }

  /** How the read of `data/products.json` went: `list` or `fetch` threw, the fetch
      succeeded but its body is not valid JSON (so `res.json()` rejects), the fetch
      answered with a non-2xx status, or it succeeded with a JSON body. The
      distinction between the first two matters to the serverless handler only. */
  datatype ReadNet = ReadThrows | ReadBadBody | ReadNotOk | ReadOk

  /** The answer of one `put` of an image file. */
  datatype UploadResult = Uploaded(url: string) | UploadFailed

  /** The outcome the environment gives to the `i`-th upload; calls beyond the
      supplied outcomes fail. */
  function UploadOutcome(uploads: seq<UploadResult>, i: nat): UploadResult {
    if i < |uploads| then uploads[i] else UploadFailed
  }

  /** An uploaded file as the request parser hands it over. */
  datatype ImageFile = ImageFile(filename: string, mimetype: string, bytes: seq<Base64.byte>)

  /** An HTTP answer: the status and, on success, the product it carries. */
  datatype Reply = Reply(status: int, product: Option<Product>)

  /** What the document read from the blob store is, for a given blob and outcome:
      `None` when the read throws or the body does not parse (the route's
      `readProducts` catches neither), and an empty list when there is no blob or
      the fetch was not ok. */
  function ReadBlob(stored: Option<Document>, net: ReadNet): (r: Option<Document>)
    ensures r.None? <==> net == ReadThrows || net == ReadBadBody
    ensures net == ReadOk && stored.Some? ==> r == stored
    ensures r.Some? && (stored.None? || net == ReadNotOk) ==> r == Some(Document(Some([])))
  {
    match net
    case ReadThrows => None
    case ReadBadBody => None
    case ReadNotOk => Some(Document(Some([])))
    case ReadOk => if stored.Some? then stored else Some(Document(Some([])))
  }

  /** `Array.isArray(data.products) ? data.products : []`: the list a page works on. */
  function ProductsOf(d: Document): (r: seq<Product>)
    ensures d.products.Some? ==> r == d.products.value
    ensures d.products.None? ==> r == []
  {
    if d.products.Some? then d.products.value else []
  }

  /** The product's current URLs: `images` when it is an array, else `[image]`, else
      `[]`; both handlers' image clean-up starts from this list. */
  function ExistingUrls(p: Product): (r: seq<string>)
    ensures p.images.Some? ==> r == p.images.value
    ensures p.images.None? ==> (r == [] <==> p.image.None?)
    ensures p.images.None? && p.image.Some? ==> r == [p.image.value]
  {
    if p.images.Some? then p.images.value
    else if p.image.Some? then [p.image.value]
    else []
  }

  /** Every URL the multipart `PUT` may drop from a product is one the `DELETE` of that
      product would also consider: the current URLs are among the referenced ones. */
  lemma ExistingAreReferenced(p: Product)
    ensures forall u :: u in ExistingUrls(p) ==> u in ReferencedUrls(p)
  {
  }

  /** The image URLs a product references through either field: `[image] ++ images`. */
  function ReferencedUrls(p: Product): (r: seq<string>)
    ensures forall u :: u in r <==> (p.image == Some(u) || (p.images.Some? && u in p.images.value))
  {
    (if p.image.Some? then [p.image.value] else []) + (if p.images.Some? then p.images.value else [])
  }
}
