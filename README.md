# Product catalog: a Dafny model

This project models the product catalog of a marine and industrial automation
supplier's web site. The catalog is one JSON document `{ products: [...] }`, kept in
a blob store at `data/products.json`.

It covers two groups.

- **Server-side mutations.** There are two variants of the admin handler.
  - The route-style handler serves `PUT` (a multipart or JSON patch), `POST`, `DELETE` and `GET`.
  - The serverless handler serves `GET`, `POST` and `DELETE`, and answers 405 to anything else. It falls back to a process-global memory store when listing or fetching the blob throws, or when writing it fails. A stored body that is not valid JSON is not caught by that fallback: `return res.json()` is not awaited inside the `try`, so every request that reads the list answers 500.

  Each handler is specified by a pure outcome function: the reply, the new stored
  state, and the `del` calls made on image URLs. A class method implements each
  handler step by step, with the upload and deletion loops. The method's
  postcondition ties the new fields to the outcome function. Lemmas about the outcome
  functions state what the handlers promise:
  - the 400/404/405 error paths change nothing;
  - a patch changes only the fields it supplies, and only the target product;
  - `images` is `keepImages ++ uploads`;
  - the deleted URLs are the dropped blob-hosted ones;
  - `POST` appends one product at the end;
  - `DELETE` splices out one index;
  - every route-handler write keeps the legacy `image` field equal to `images[0]` on a store where that already held, and sets it on each product whose `images` it writes (products created by the serverless `POST` have no `image`, and a route `DELETE` or a JSON `PUT` without `images` writes them back as they are);
  - the memory fallback behaves as stated.
- **Client-side derived views.** These are pure functions over the fetched list:
  - the admin dashboard's tab/search/sort/pagination pipeline, its image reordering helpers, and its edit-save logic;
  - the search page's seven-field search;
  - the category listing page with its sidebar filters;
  - the product page's picture list, picture removal and breadcrumb category;
  - the home page's five newest products.

  Sorting is an insertion sort standing for `Array.prototype.sort`. It is proved to give a permutation, ordered pairwise, and to be stable: products that tie keep their input order, which decides which five the home page shows when `createdAt` values tie.

Module layout:

| file | module | models |
|---|---|---|
| common.dfy | Common | `Option`; array helpers (`filter`, `map`, `splice`, swap, `slice`, `new Set`) |
| text.dfy | Text | lower-casing, `includes`, `trim`, `split("-")[0]`, decimal rendering, code-point order |
| base64.dfy | Base64 | base64 encoding of a file's bytes |
| catalog.dfy | Catalog | product and document records, truthiness, `findIndex`, card picture, reading the blob |
| route_handlers.dfy | RouteHandlers | the route-style handlers: outcome functions and `RouteStore` |
| route_properties.dfy | RouteProperties | lemmas about the route-style handlers |
| api_handler.dfy | ApiHandler | the serverless handler: outcome functions and `ApiStore` |
| api_properties.dfy | ApiProperties | lemmas about the serverless handler |
| ordering.dfy | Ordering | the sort orders and the stable sort |
| dashboard.dfy | Dashboard | the admin dashboard |
| search.dfy | Search | the search page |
| products_page.dfy | ProductsPage | the category listing page |
| product_detail.dfy | ProductDetail | the product page |
| home.dfy | Home | the home page's recent products |

Two further behaviours are proved, but they are not reported as defects.
- `Dashboard.EditedConditionNotSaved`: the dashboard's Save sends the edited
  `condition` only on the JSON path. The route's JSON `PUT` destructures `condition`
  but never applies it, so an edited condition is never stored.
- `RouteProperties.DeleteCallsPrimaryTwice`: the route's `DELETE` gathers
  `[image] ++ images`, so a mirrored product's primary blob URL is passed to `del`
  twice.

## Model

| member | source | states |
|---|---|---|
| Catalog.FindIndex | src/pages/api/admin/products/route.ts:26 | -1 exactly when no product has the id; otherwise the first index holding it |
| Catalog.ReadBlob | src/pages/api/admin/products/route.ts:7-17 | the read gives nothing exactly when it throws; the stored document on a successful fetch; an empty list when there is no blob or the fetch is not ok |
| Catalog.ExistingAreReferenced | src/pages/api/admin/products/route.ts:65 | every current URL the multipart `PUT` may drop (`images`, else `[image]`) is one the `DELETE` of that product also considers (`[image] ++ images`) |
| Catalog.ReferencedUrls | src/pages/api/admin/products/route.ts:220-222 | a URL is a delete candidate exactly when it is `image` or an element of `images` |
| Catalog.CardImage | src/pages/Search.tsx:56 | a card picture is never empty: the first image when it is truthy, else `image`, else the placeholder |
| Catalog.CardImageOfMirrored | src/pages/Products.tsx:56 | for a mirrored product the card shows the first image of its list (or the placeholder) |
| RouteProperties.PagesListStored | src/pages/Home.tsx:21-23 | a page fetching `GET` works on the stored array after a successful fetch, and on no products when the read fails, there is no blob, the fetch is not ok or the document holds no array |
| Text.TrimSpec | src/pages/Search.tsx:39 | `trim` removes exactly the leading and trailing whitespace and keeps the middle |
| Text.TrimIdempotent | src/pages/Search.tsx:64 | trimming twice is trimming once |
| Text.BeforeHyphenOfJoin | src/pages/ProductDetail.tsx:80 | the part before the first hyphen of `c + "-" + t` is `c` when `c` has no hyphen |
| Text.DecimalRoundTrip | src/pages/api/admin/products/route.ts:163 | the decimal rendering of the timestamp reads back as the timestamp |
| Text.LexLeTotal | src/pages/admin/dashboard/page.tsx:195 | the name order compares any two names |
| Text.LexLeTransitive | src/pages/admin/dashboard/page.tsx:195 | the name order is transitive |
| Common.DedupSpec | src/pages/Products.tsx:62-63 | `Array.from(new Set(xs))` holds each value of `xs` exactly once, as a subsequence of `xs` |
| Common.ExceptIndexIsRemoveAt | src/pages/ProductDetail.tsx:62 | the index filter is `splice(i, 1)` for a valid index and a copy otherwise |
| Common.SwapMultiset | src/pages/admin/dashboard/page.tsx:111-112 | a swap keeps the elements and their multiplicities |
| Base64.Encode | api/admin/products.ts:100 | the encoding has four characters per started group of three bytes |
| RouteHandlers.GetOutcome | src/pages/api/admin/products/route.ts:117-125 | `GET` answers the document as read, or an empty list when the read throws |
| RouteHandlers.RouteStore.ReadProducts | src/pages/api/admin/products/route.ts:7-17 | the method returns exactly what `ReadBlob` specifies for the stored object |
| RouteHandlers.RouteStore.WriteProducts | src/pages/api/admin/products/route.ts:106-114 | the object is overwritten exactly when the `put` succeeds |
| RouteHandlers.RouteStore.UploadAll | src/pages/api/admin/products/route.ts:56-62 | the loop returns every URL in file order, or nothing as soon as one `put` throws |
| RouteHandlers.RouteStore.DeleteBlobs | src/pages/api/admin/products/route.ts:67-71 | the `del` log grows by exactly the blob-hosted URLs, in order |
| RouteHandlers.RouteStore.Commit | src/pages/api/admin/products/route.ts:79-80 | the method writes the list and answers as the outcome's final step says |
| RouteHandlers.RouteStore.PutMultipart | src/pages/api/admin/products/route.ts:28-81 | the multipart `PUT` leaves the reply, the stored object and the `del` log as `PutMultipartOutcome` says |
| RouteHandlers.RouteStore.PutJson | src/pages/api/admin/products/route.ts:84-98 | the JSON `PUT` leaves the reply and the stored object as `PutJsonOutcome` says |
| RouteHandlers.RouteStore.Put | src/pages/api/admin/products/route.ts:20-103 | `PUT` implements `PutOutcome`: read first, then the multipart or JSON path by content type |
| RouteHandlers.RouteStore.Post | src/pages/api/admin/products/route.ts:128-191 | `POST` implements `PostOutcome` |
| RouteHandlers.RouteStore.Delete | src/pages/api/admin/products/route.ts:194-251 | `DELETE` implements `DeleteOutcome`, including the `del` calls |
| RouteHandlers.RouteStore.Get | src/pages/api/admin/products/route.ts:117-125 | `GET` answers `GetOutcome` and changes nothing |
| RouteProperties.AllUploadedSpec | src/pages/api/admin/products/route.ts:56-62 | the upload loop gives one URL per file in file order, or fails as a whole when any `put` throws |
| RouteProperties.PutMultipartRejects | src/pages/api/admin/products/route.ts:31-33 | a multipart `PUT` with no id answers 400, with an unknown id 404; neither writes nor deletes |
| RouteProperties.PutMultipartImages | src/pages/api/admin/products/route.ts:74-76 | a successful multipart `PUT` stores `keepImages ++ uploads`, with `image` its first element or absent |
| RouteProperties.PutMultipartDeletions | src/pages/api/admin/products/route.ts:64-71 | `del` is called exactly on the existing URLs that are blob-hosted and not kept, in their order |
| RouteProperties.PutMultipartWithoutKeepList | src/pages/api/admin/products/route.ts:42-44 | a missing or unparseable `keepImages` keeps nothing: only the uploads remain, and every blob-hosted URL is deleted |
| RouteProperties.PatchFieldsSpec | src/pages/api/admin/products/route.ts:47-51 | a scalar field changes exactly when the request supplies it; all other fields are kept |
| RouteProperties.PatchMultipartCondition | src/pages/api/admin/products/route.ts:52 | the multipart patch overwrites `condition` exactly when it is supplied |
| RouteProperties.PutJsonSpec | src/pages/api/admin/products/route.ts:85-98 | the JSON `PUT` never applies `condition`; it replaces `images` (mirrored into `image`) only for an array; it makes no `del` calls |
| RouteProperties.PutJsonRejects | src/pages/api/admin/products/route.ts:86-88 | a JSON `PUT` with no id answers 400, with an unknown id 404, and writes nothing |
| RouteProperties.PutChangesOnlyTarget | src/pages/api/admin/products/route.ts:78 | on both paths a write keeps the length, the order and every product other than the target |
| RouteProperties.PutConditionSource | src/pages/api/admin/products/route.ts:52 | the written condition is the form's when supplied on the multipart path, else the stored one |
| RouteProperties.PutImagesSource | src/pages/api/admin/products/route.ts:74-76 | the written images are kept ++ uploads (multipart), the array sent (JSON), or the stored ones, with the mirror kept |
| RouteProperties.PostRejectsMissingField | src/pages/api/admin/products/route.ts:140-145 | a `POST` missing category, name, description or link answers 400 and writes nothing |
| RouteProperties.PostAppends | src/pages/api/admin/products/route.ts:161-177 | a successful `POST` appends one product at the end: id `category-timestamp`, images in upload order with `image` its first, and partNumber and condition defaulting to `""` |
| RouteProperties.NewProductId | src/pages/api/admin/products/route.ts:163 | the new id's part before the first hyphen is the category, when the category has no hyphen |
| RouteProperties.AppendKeepsUniqueIds | src/pages/api/admin/products/route.ts:176 | appending keeps ids unique exactly when the new id is not yet used |
| RouteProperties.DeleteRejects | src/pages/api/admin/products/route.ts:199-214 | a `DELETE` with no id answers 400, with an unknown id 404, and neither writes nor deletes |
| RouteProperties.DeleteRemovesOne | src/pages/api/admin/products/route.ts:216-237 | a successful `DELETE` removes exactly the first matching index and keeps the rest in order; `del` goes to the blob-hosted `[image] ++ images` |
| RouteProperties.DeleteRemovesId | src/pages/api/admin/products/route.ts:237 | with unique ids, the deleted id no longer occurs |
| RouteProperties.DeleteCallsPrimaryTwice | src/pages/api/admin/products/route.ts:220-222 | a mirrored product's blob-hosted primary URL is passed to `del` twice |
| RouteProperties.ReadKeepsMirrored | src/pages/api/admin/products/route.ts:7-17 | reading a mirrored store gives a mirrored list |
| RouteProperties.PatchJsonKeepsMirror | src/pages/api/admin/products/route.ts:95 | the JSON patch keeps a mirrored product mirrored |
| RouteProperties.WritesKeepMirror | src/pages/api/admin/products/route.ts:76 | every `PUT`, `POST` and `DELETE` write keeps `image == images[0]` on every product of a mirrored store |
| RouteProperties.PutThenGet | src/pages/api/admin/products/route.ts:78-80 | after a successful `PUT`, a `GET` with a successful fetch lists the list that was read with the answered product in place of the first one carrying its id |
| RouteProperties.PostThenGet | src/pages/api/admin/products/route.ts:176-177 | after a successful `POST`, a `GET` with a successful fetch lists the list that was read with the answered product appended |
| ApiHandler.Read | api/admin/products.ts:17-27 | the read gives the blob's document (an empty list when there is none or the fetch is not ok), the memory store's own list when `list` or `fetch` throws, and rejects (nothing) exactly when the body does not parse |
| ApiHandler.FirstFailure | api/admin/products.ts:134-139 | the first throwing `del` among the calls, or their number |
| ApiHandler.HandleOutcome | api/admin/products.ts:69-151 | dispatch: `GET`, `POST`, `DELETE`, and 405 for anything else |
| ApiHandler.ApiStore.constructor | api/admin/products.ts:11-15 | the memory store starts with an empty list |
| ApiHandler.ApiStore.ReadProducts | api/admin/products.ts:17-27 | the method reports a rejection exactly when `Read` does, and otherwise returns its document and whether the list is the memory store's own |
| ApiHandler.ApiStore.WriteProducts | api/admin/products.ts:29-41 | a successful `put` overwrites the blob; a failed one sets memory to the list, or `[]` when it is not an array |
| ApiHandler.ApiStore.Commit | api/admin/products.ts:116-117 | the store ends as `Store` says; an aliased list changes memory even when the write succeeds |
| ApiHandler.ApiStore.UploadAll | api/admin/products.ts:91-103 | the loop returns `UploadUrls`, one URL per file, with the data-URI fallback |
| ApiHandler.ApiStore.DeleteImages | api/admin/products.ts:131-139 | the `del` log grows by `DelCalls`: the blob-hosted candidates up to and including the first that throws |
| ApiHandler.ApiStore.Post | api/admin/products.ts:76-120 | `POST` implements `PostOutcome` |
| ApiHandler.ApiStore.Delete | api/admin/products.ts:122-145 | `DELETE` implements `DeleteOutcome` |
| ApiHandler.ApiStore.Handle | api/admin/products.ts:69-151 | the entry point implements `HandleOutcome` |
| ApiProperties.DataUriShape | api/admin/products.ts:100-101 | the fallback URL is `data:<type or application/octet-stream>;base64,` followed by the encoded bytes |
| ApiProperties.UploadUrlsSpec | api/admin/products.ts:91-103 | one URL per file in file order: the uploaded URL, or the data URI when that upload threw |
| ApiProperties.PostRejects | api/admin/products.ts:83-85 | a `POST` missing any of the four fields, or with no file, answers 400 and changes nothing |
| ApiProperties.PostAnswers200 | api/admin/products.ts:105-119 | an accepted `POST` answers 200 exactly when the list read is an array, always when `list` or `fetch` threw, and 500 with nothing stored when the body does not parse |
| ApiProperties.PostAppends | api/admin/products.ts:106-117 | a successful `POST` appends one product (id `category-timestamp`, one URL per file, no `image`, `partNumber` or `condition`) and stores the list as `Store` says |
| ApiProperties.PostProductNotMirrored | api/admin/products.ts:106-114 | the created product does not mirror its first image into `image` |
| ApiProperties.StoreThenRead | api/admin/products.ts:29-41 | the written list is read back from where it went: the blob after a successful write, memory after a failed one, and memory in either case when the read had fallen back |
| ApiProperties.DeleteRejects | api/admin/products.ts:123-128 | a `DELETE` with no id answers 400, with an unknown id 404, after a body that does not parse 500; none changes anything or calls `del` |
| ApiProperties.DeleteSplices | api/admin/products.ts:141-142 | a successful `DELETE` splices out exactly the first matching index, whatever the `del` calls did |
| ApiProperties.DelCallsSpec | api/admin/products.ts:133-139 | the calls are a prefix of the blob-hosted candidates: all of them when none throws; they stop after the first that throws |
| ApiProperties.DeleteCandidates | api/admin/products.ts:133 | the candidates are `images` when present, and an empty `images` deletes nothing |
| ApiProperties.OtherMethodsRefused | api/admin/products.ts:147 | any other method answers 405 and changes nothing |
| ApiProperties.GetLists | api/admin/products.ts:71-74 | `GET` changes nothing; it answers 200 exactly when the body parses, listing the blob's document, or the memory list when `list` or `fetch` throws |
| ApiProperties.BadBodyAnswers500 | api/admin/products.ts:23 | with a body that does not parse, every `GET`, accepted `POST` and `DELETE` with an id answers 500 and changes nothing |
| ApiProperties.PostThenGet | api/admin/products.ts:116-117 | a created product is the last one listed by a `GET` that reads where the write went |
| Ordering.BeforeTotal | src/pages/admin/dashboard/page.tsx:194-199 | each comparator orders any two products one way or the other |
| Ordering.BeforeTransitive | src/pages/admin/dashboard/page.tsx:194-199 | each comparator is transitive |
| Ordering.SortSpec | src/pages/admin/dashboard/page.tsx:194-199 | the sorted copy is a permutation of the list, and every earlier item may precede every later one in the chosen mode |
| Ordering.SortDateDesc | src/pages/Home.tsx:36-40 | newest first: no later item has a greater `createdAt` (a missing one counts as 0) |
| Ordering.InsertSorted | src/pages/admin/dashboard/page.tsx:194-199 | inserting into a sorted list keeps it sorted |
| Ordering.SortSorted | src/pages/admin/dashboard/page.tsx:194-199 | the sorted copy is ordered neighbour by neighbour |
| Ordering.InsertStable | src/pages/Home.tsx:36-40 | an inserted product lands first among the products it ties with |
| Ordering.SortStable | src/pages/Home.tsx:36-40 | the sort is stable: the products tying with any given one keep their input order |
| Dashboard.CategoryLinkSpec | src/pages/admin/dashboard/page.tsx:174-182 | `/products/automation` and `/products/electronic` for the two categories, `""` for any other |
| Dashboard.ManagedSoundComplete | src/pages/admin/dashboard/page.tsx:184-201 | a product is managed exactly when it is in the tab and the term occurs in its name, part number or description |
| Dashboard.EmptyTermKeepsTab | src/pages/admin/dashboard/page.tsx:186-193 | an empty term keeps the whole tab, as a permutation |
| Dashboard.ManagedSorted | src/pages/admin/dashboard/page.tsx:194-199 | the managed list is ordered pairwise by the selected mode |
| Dashboard.TotalPages | src/pages/admin/dashboard/page.tsx:202 | at least one page, and just enough pages of five for the list |
| Dashboard.PagedProducts | src/pages/admin/dashboard/page.tsx:203-206 | a page holds at most five items: those at positions `(page-1)*5` onwards |
| Dashboard.PageCovers | src/pages/admin/dashboard/page.tsx:202-206 | the item at position `i` is shown on page `i / 5 + 1`, within `1..totalPages`, at position `i mod 5` |
| Dashboard.FullPages | src/pages/admin/dashboard/page.tsx:203-206 | every page before the last holds exactly five items |
| Dashboard.PrevNextClamp | src/pages/admin/dashboard/page.tsx:601-602 | from any page in `1..totalPages + 1` (one past the end after a delete, page.tsx:165), Prev and Next give a page within `1..totalPages`, moving it by at most one |
| Dashboard.SwapCopy | src/pages/admin/dashboard/page.tsx:109-112 | swapping on an array copy gives the swapped sequence |
| Dashboard.MoveImage | src/pages/admin/dashboard/page.tsx:106-115 | nothing changes when the target is out of range; otherwise position `index` is swapped with its neighbour in both files and previews |
| Dashboard.MoveKeepsContents | src/pages/admin/dashboard/page.tsx:106-115 | a move keeps files and previews paired, the same length and the same elements |
| Dashboard.EditUp | src/pages/admin/dashboard/page.tsx:467-469 | Up does nothing at the top and otherwise swaps with the previous image |
| Dashboard.EditDown | src/pages/admin/dashboard/page.tsx:470-472 | Down does nothing at the bottom and otherwise swaps with the next image |
| Dashboard.UpThenDown | src/pages/admin/dashboard/page.tsx:467-472 | Up on an image and then Down on the image that moved gives back the editor's list |
| Dashboard.EditRemoveSpec | src/pages/admin/dashboard/page.tsx:473-474 | Remove drops exactly the image at `idx`: one fewer, the others in order |
| Dashboard.RemoveNewFile | src/pages/admin/dashboard/page.tsx:516-519 | removing a new file splices the same index out of both files and previews |
| Dashboard.InitEdit | src/pages/admin/dashboard/page.tsx:576 | the editor starts from the product's image list, with no condition picked |
| Dashboard.InitEditImages | src/pages/admin/dashboard/page.tsx:576 | the editor's images are `images` when it is an array, else `[image]`, else none |
| Dashboard.SaveEditChoice | src/pages/admin/dashboard/page.tsx:528-554 | Save sends something exactly when the three trimmed fields are non-empty: multipart with `keepImages` and the new files when there are new files, JSON with `images` otherwise |
| Dashboard.SaveEditShape | src/pages/admin/dashboard/page.tsx:536-554 | the request Save sends names the product and carries the editor's image list |
| Dashboard.EditedConditionNotSaved | src/pages/admin/dashboard/page.tsx:554 | a successful save never changes the stored condition |
| Dashboard.SavedImages | src/pages/admin/dashboard/page.tsx:542-543 | a successful save stores the editor's images in its order, then the uploads, with `image` mirroring the first |
| Search.HitFields | src/pages/Search.tsx:41-51 | a product is a hit exactly when the query occurs in its lower-cased name, part number, manufacturer, subcategory, description, category or id |
| Search.Summarize | src/pages/Search.tsx:52-58 | a result names its product, always has a picture, and its category is already lower case (lower-casing again changes nothing) |
| Search.BlankQueryFindsNothing | src/pages/Search.tsx:39-40 | a query that trims to nothing gives no results; so does a submitted query of white space only |
| Search.ResultsSpec | src/pages/Search.tsx:38-59 | the results are the list's hits in order, one summary each; a product is a hit exactly when one of the seven fields contains the query |
| Search.IdFindsProduct | src/pages/Search.tsx:48-51 | searching for a product's own (lower-case) id finds it |
| Search.OnSubmit | src/pages/Search.tsx:61-67 | the URL gets `q` exactly when the trimmed query is non-empty, and then it is that query |
| Search.SubmitThenReload | src/pages/Search.tsx:12 | reloading after a submit searches for the same effective query |
| ProductsPage.ApiCategorySpec | src/pages/Products.tsx:40-45 | `electrics` exactly for a case-insensitive `electrics` parameter, otherwise `automation` |
| ProductsPage.ApiCategoryNeverElectronic | src/pages/Products.tsx:40-45 | no parameter selects `electronic`; `electronics` selects `automation` |
| ProductsPage.IntendedApiCategory | src/pages/Products.tsx:40-45 | the corrected mapping gives `electronic` or `automation` |
| ProductsPage.IntendedRoutesReachBothCategories | src/pages/Products.tsx:40-60 | under the corrected mapping, both navigation routes reach their own categories, and the electrics title is shown |
| ProductsPage.ElectricTitleUnreachable | src/pages/Products.tsx:60 | as written, the title is always the automation one |
| ProductsPage.ToCard | src/pages/Products.tsx:50-57 | a card names its product and always has a picture |
| ProductsPage.ListingSpec | src/pages/Products.tsx:47-58 | one card per product in the category, in list order; a product is listed exactly when its lower-cased category is the chosen one |
| ProductsPage.ElectronicProductsNeverListed | src/pages/Products.tsx:43-49 | as written, a product filed under `electronic` is listed on no route |
| ProductsPage.IntendedListsElectronicProducts | src/pages/Products.tsx:43-49 | under the corrected mapping, the electronics route lists every such product |
| ProductsPage.DistinctSpec | src/pages/Products.tsx:62-63 | the choices are exactly the distinct non-empty values |
| ProductsPage.ManufacturersSpec | src/pages/Products.tsx:62 | the manufacturer choices are exactly the non-empty manufacturers of the cards, each once |
| ProductsPage.SubcategoriesSpec | src/pages/Products.tsx:63 | the subcategory choices are exactly the non-empty subcategories of the cards, each once |
| ProductsPage.FilteredSpec | src/pages/Products.tsx:65-71 | a card is shown exactly when it passes all three tests, in order; no term and no selection shows every card |
| ProductDetail.FoundProduct | src/pages/ProductDetail.tsx:27-29 | a found product is in the list and has the id; nothing is found only when no product has it |
| ProductDetail.FoundProductIsFirst | src/pages/ProductDetail.tsx:28 | a product is found exactly when one has the id, and it is the first such one |
| ProductDetail.ImagesSpec | src/pages/ProductDetail.tsx:40-45 | no pictures without a product; never empty with one; the list itself when non-empty; otherwise its first picture is the card picture |
| ProductDetail.KeepSpec | src/pages/ProductDetail.tsx:62 | removing a picture keeps every other one in order: one fewer, and exactly one occurrence gone |
| ProductDetail.RemoveImageStores | src/pages/ProductDetail.tsx:64-68 | an accepted removal stores exactly the kept list (with `image` its first), keeps every other field and product, and deletes the dropped blob-hosted URLs |
| ProductDetail.ShownAfterRemoval | src/pages/ProductDetail.tsx:69-71 | after a removal the page shows the kept list, or the placeholder once nothing is kept |
| ProductDetail.CategoryOfCreatedProduct | src/pages/ProductDetail.tsx:78-82 | for a created product the breadcrumb is `electronics` exactly when its category is `electronic` in any case |
| ProductDetail.BreadcrumbListsOwnCategory | src/pages/ProductDetail.tsx:94-96 | under the listing page's corrected mapping, the breadcrumb route lists the product's own category |
| Home.Summary | src/pages/Home.tsx:41-45 | an item names its product and always has a picture |
| Home.TopOfSorted | src/pages/Home.tsx:41 | the first five of a newest-first permutation are no older than any other product |
| Home.RecentSpec | src/pages/Home.tsx:34-46 | at most five items, each the summary of a product of the list, newest first |
| Home.RecentAreNewest | src/pages/Home.tsx:35-41 | every product is either shown or no newer than each of the five shown |
| Home.NewestFirst | src/pages/Home.tsx:36-41 | a non-empty list leads with one of its newest products |

## Left out

- Network and storage: `put`, `del`, `list` and `fetch` are not modelled. They appear only as inputs: how the read went, the answer of each upload, whether the write succeeded, and which `del` calls throw. Calls to `del` are recorded as a log.
- Upload file names: the `products/<timestamp>-...` paths are not modelled, since only the returned URL matters.
- Multipart parsing: the Busboy stream parser is not modelled, nor are the route's `formData()` failures. The handlers receive the parsed fields and files, and a parse failure of the serverless `POST` is an absent form, which answers 500.
- Parsing general JSON is not modelled. `keepImages` arrives already parsed, as an optional list (absent when missing or invalid). A JSON `PUT` body that does not parse answers 500, as the code's outer `catch` does. A stored document that does not parse is one outcome of the read: the route's `PUT`, `POST` and `DELETE` and every serverless request that reads the list answer it with 500, and the route's `GET` answers an empty list.
- JSON value types: non-string entries of `images`, and fields of other types, are not modelled. Lists hold strings, and `typeof x === 'string'` is presence.
- Dates: `createdAt` is an integer instant, and a missing one counts as 0. ISO strings and invalid dates are not modelled. Timestamps are parameters.
- `localeCompare` is modelled as code-point order. `toLowerCase` and `trim` are modelled for ASCII letters and common whitespace only.
- Missing names: the dashboard and the listing page call `name.toLowerCase()`, which throws on a product without a name. Here the name is treated as `""`.
- Dashboard.MoveImage: it requires the file and preview lists to have equal length. While previews are still loading the source swaps missing entries, and that is not modelled.
- Concurrency: the model runs one request at a time, so the lost-update race between concurrent requests that read and write the same blob is not modelled.
- The user interface is not modelled: React state and effects, rendering, FileReader previews, `confirm`, the admin token in `localStorage`, and the loading and error messages.
- Separate pieces: the navigation bar, the login page and the login handler are UI and credential checks. They are not part of this model.
- Base64.Encode: its contract states only the length of the encoding. Correctness of the alphabet mapping is not stated.

## Findings

| source | as written | input that shows it | evidently intended | confidence | as-written member | corrected member |
|---|---|---|---|---|---|---|
| src/pages/Products.tsx:40-45 | both comparisons test `"electrics"` and return `"electrics"`, which is not a category the dashboard files products under (`automation` or `electronic`) | route `/products/electronics` (the navigation's link) gives `apiCategory == "automation"`, so electronic products are never listed and the title `"Electrics & Switch Gears"` (shown only for `"electronic"`) is never shown | `electrics` or `electronics` map to `"electronic"` | not executed | ProductsPage.ApiCategory | ProductsPage.IntendedApiCategory |
