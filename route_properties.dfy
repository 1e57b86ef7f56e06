/** What the route-style handlers promise, stated over their outcome functions:
    the error paths write nothing, a patch overwrites exactly the supplied
    fields, the multipart `PUT` reconciles images and blob deletions, `POST`
    appends one product at the end, `DELETE` splices out one index, and every
    write keeps the legacy `image` field mirroring `images[0]`. */
module RouteProperties {
  import opened Common
  import opened Text
  import opened Catalog
  import opened RouteHandlers

  /** The upload loop yields one URL per file, in file order, or nothing at all. */
  lemma AllUploadedSpec(uploads: seq<UploadResult>, n: nat)
    ensures AllUploaded(uploads, n).Some? <==> forall i :: 0 <= i < n ==> UploadOutcome(uploads, i).Uploaded?
    ensures AllUploaded(uploads, n).Some? ==>
      |AllUploaded(uploads, n).value| == n &&
      forall i :: 0 <= i < n ==> AllUploaded(uploads, n).value[i] == UploadOutcome(uploads, i).url
  {
  }

  // ---------------------------------------------------------------- PUT

  /** Multipart `PUT` without an id answers 400, with an unknown id 404; neither
      writes the document nor deletes any image. */
  lemma PutMultipartRejects(stored: Option<Document>, env: Env, req: PutRequest)
    requires ReadBlob(stored, env.net).Some? && Contains(req.contentType, Multipart)
    ensures !Truthy(req.form.id) ==> PutOutcome(stored, env, req) == Fail(400)
    ensures var data := ReadBlob(stored, env.net).value;
      Truthy(req.form.id) && data.products.Some? && FindIndex(data.products.value, req.form.id.value) == -1
      ==> PutOutcome(stored, env, req) == Fail(404)
    ensures PutOutcome(stored, env, req).reply.status in {400, 404} ==>
      PutOutcome(stored, env, req).written.None? && PutOutcome(stored, env, req).deletions == []
  {
  }

  /** On success the multipart `PUT` answers with the patched product, whose images are
      `keepImages ++ uploaded` in that order, mirrored into `image`. */
  lemma PutMultipartImages(data: Document, form: PutForm, env: Env)
    requires PutMultipartOutcome(data, form, env).reply.status == 200
    ensures Truthy(form.id) && data.products.Some?
    ensures AllUploaded(env.uploads, |form.newImages|).Some?
    ensures var o := PutMultipartOutcome(data, form, env);
      var urls := AllUploaded(env.uploads, |form.newImages|).value;
      o.reply.product.Some?
      && o.reply.product.value.images == Some(KeptImages(form) + urls)
      && o.reply.product.value.image == FirstOrUndefined(KeptImages(form) + urls)
      && |o.reply.product.value.images.value| == |KeptImages(form)| + |form.newImages|
  {
  }

  /** The multipart `PUT` calls `del` on exactly the existing URLs that are neither kept
      nor hosted elsewhere, in their existing order. */
  lemma PutMultipartDeletions(data: Document, form: PutForm, env: Env)
    requires PutMultipartOutcome(data, form, env).reply.status == 200
    ensures Truthy(form.id) && data.products.Some?
    ensures var ps := data.products.value;
      var idx := FindIndex(ps, form.id.value);
      var dels := PutMultipartOutcome(data, form, env).deletions;
      0 <= idx < |ps|
      && (forall u :: u in dels <==> u in ExistingUrls(ps[idx]) && u !in KeptImages(form) && IsBlobUrl(u))
      && IsSubsequence(dels, ExistingUrls(ps[idx]))
  {
    var ps := data.products.value;
    var idx := FindIndex(ps, form.id.value);
    var keep := KeptImages(form);
    var dropped := Dropped(ps[idx], keep);
    var notKept := (u: string) => u !in keep;
    forall u
      ensures u in Filter(IsBlobUrl, dropped) <==> u in ExistingUrls(ps[idx]) && u !in keep && IsBlobUrl(u)
    {
      FilterMembership(IsBlobUrl, dropped, u);
      FilterMembership(notKept, ExistingUrls(ps[idx]), u);
    }
    FilterIsSubsequence(IsBlobUrl, dropped);
    FilterIsSubsequence(notKept, ExistingUrls(ps[idx]));
    SubsequenceTransitive(Filter(IsBlobUrl, dropped), dropped, ExistingUrls(ps[idx]));
  }

  lemma {:induction false} SubsequenceTransitive<T>(a: seq<T>, b: seq<T>, c: seq<T>)
    requires IsSubsequence(a, b) && IsSubsequence(b, c)
    ensures IsSubsequence(a, c)
    decreases |c|
  {
    if a != [] {
      assert b != [] && c != [];
      if b[0] == c[0] && IsSubsequence(b[1..], c[1..]) {
        if a[0] == b[0] && IsSubsequence(a[1..], b[1..]) {
          SubsequenceTransitive(a[1..], b[1..], c[1..]);
        } else {
          SubsequenceTransitive(a, b[1..], c[1..]);
        }
      } else {
        SubsequenceTransitive(a, b, c[1..]);
      }
    }
  }

  /** A missing or unparseable `keepImages` keeps nothing: the product ends up with only
      the new uploads, and every blob-hosted existing image is deleted. */
  lemma PutMultipartWithoutKeepList(data: Document, form: PutForm, env: Env)
    requires form.keepImages.None?
    requires PutMultipartOutcome(data, form, env).reply.status == 200
    ensures data.products.Some? && Truthy(form.id) && AllUploaded(env.uploads, |form.newImages|).Some?
    ensures var ps := data.products.value;
      var idx := FindIndex(ps, form.id.value);
      var o := PutMultipartOutcome(data, form, env);
      0 <= idx < |ps|
      && o.reply.product.value.images == AllUploaded(env.uploads, |form.newImages|)
      && o.deletions == Filter(IsBlobUrl, ExistingUrls(ps[idx]))
  {
    var ps := data.products.value;
    var idx := FindIndex(ps, form.id.value);
    FilterKeepsAll((u: string) => u !in KeptImages(form), ExistingUrls(ps[idx]));
    assert [] + AllUploaded(env.uploads, |form.newImages|).value == AllUploaded(env.uploads, |form.newImages|).value;
  }

  /** Both patches overwrite a scalar field exactly when the request supplies it, and
      leave identity, creation time and the other fields alone. */
  lemma PatchFieldsSpec(p: Product, name: Option<string>, description: Option<string>,
                        partNumber: Option<string>, category: Option<string>, link: Option<string>)
    ensures var q := PatchFields(p, name, description, partNumber, category, link);
      (q.name == if name.Some? then name else p.name)
      && (q.description == if description.Some? then description else p.description)
      && (q.partNumber == if partNumber.Some? then partNumber else p.partNumber)
      && (q.category == if category.Some? then category else p.category)
      && (q.link == if link.Some? then link else p.link)
      && q.id == p.id && q.createdAt == p.createdAt && q.condition == p.condition
      && q.images == p.images && q.image == p.image
      && q.manufacturer == p.manufacturer && q.subcategory == p.subcategory
      && q.specifications == p.specifications
  {
  }

  /** The multipart patch also overwrites `condition` when supplied. */
  lemma PatchMultipartCondition(p: Product, form: PutForm)
    ensures PatchMultipart(p, form).condition == if form.condition.Some? then form.condition else p.condition
    ensures PatchMultipart(p, form).images == p.images && PatchMultipart(p, form).id == p.id
  {
  }

  /** The JSON patch never applies `condition`, replaces `images` only when an array is
      supplied (mirroring it into `image`), and the JSON path deletes nothing. */
  lemma PutJsonSpec(data: Document, body: PutBody, env: Env)
    ensures PutJsonOutcome(data, body, env).deletions == []
    ensures forall p :: PatchJson(p, body).condition == p.condition
    ensures forall p :: body.images.None? ==> PatchJson(p, body).images == p.images && PatchJson(p, body).image == p.image
    ensures forall p :: body.images.Some? ==>
      PatchJson(p, body).images == body.images && PatchJson(p, body).image == FirstOrUndefined(body.images.value)
  {
  }

  /** The JSON path's rejections mirror the multipart path's. */
  lemma PutJsonRejects(data: Document, body: PutBody, env: Env)
    ensures !Truthy(body.id) ==> PutJsonOutcome(data, body, env) == Fail(400)
    ensures Truthy(body.id) && data.products.Some? && FindIndex(data.products.value, body.id.value) == -1
      ==> PutJsonOutcome(data, body, env) == Fail(404)
  {
  }

  /** On both `PUT` paths a write replaces the matching product and nothing else: same
      length, same order, every other product unchanged, the id kept. */
  lemma PutChangesOnlyTarget(stored: Option<Document>, env: Env, req: PutRequest)
    requires PutOutcome(stored, env, req).written.Some?
    ensures var data := ReadBlob(stored, env.net).value;
      var id := if Contains(req.contentType, Multipart) then req.form.id else req.json.value.id;
      data.products.Some? && id.Some?
      && var ps := data.products.value;
      var idx := FindIndex(ps, id.value);
      var ps' := PutOutcome(stored, env, req).written.value.products;
      0 <= idx < |ps| && ps'.Some? && |ps'.value| == |ps|
      && ps'.value[idx].id == ps[idx].id
      && forall j :: 0 <= j < |ps| && j != idx ==> ps'.value[j] == ps[j]
  {
  }

  /** Where the written product's condition comes from: the multipart form's field when
      it has one, and otherwise (including every JSON request) the stored product. */
  lemma PutConditionSource(stored: Option<Document>, env: Env, req: PutRequest)
    requires PutOutcome(stored, env, req).written.Some?
    ensures var data := ReadBlob(stored, env.net).value;
      var multipart := Contains(req.contentType, Multipart);
      var id := if multipart then req.form.id else req.json.value.id;
      var ps := data.products.value;
      var idx := FindIndex(ps, id.value);
      var ps' := PutOutcome(stored, env, req).written.value.products.value;
      0 <= idx < |ps| && idx < |ps'|
      && ps'[idx].condition == if multipart && req.form.condition.Some? then req.form.condition else ps[idx].condition
  {
    PutChangesOnlyTarget(stored, env, req);
  }

  /** Where the written product's images come from: the kept list and the uploads on the
      multipart path, the supplied array (or the stored list) on the JSON path; `image`
      mirrors the result whenever the list was set. */
  lemma PutImagesSource(stored: Option<Document>, env: Env, req: PutRequest)
    requires PutOutcome(stored, env, req).written.Some?
    ensures var data := ReadBlob(stored, env.net).value;
      var multipart := Contains(req.contentType, Multipart);
      var id := if multipart then req.form.id else req.json.value.id;
      var ps := data.products.value;
      var idx := FindIndex(ps, id.value);
      var ps' := PutOutcome(stored, env, req).written.value.products.value;
      0 <= idx < |ps| && idx < |ps'|
      && (multipart ==> (AllUploaded(env.uploads, |req.form.newImages|).Some?
            && ps'[idx].images == Some(KeptImages(req.form) + AllUploaded(env.uploads, |req.form.newImages|).value)))
      && (!multipart && req.json.value.images.Some? ==> ps'[idx].images == req.json.value.images)
      && (!multipart && req.json.value.images.None? ==> ps'[idx].images == ps[idx].images && ps'[idx].image == ps[idx].image)
      && (ps'[idx].images != ps[idx].images ==> Mirrored(ps'[idx]))
  {
    PutChangesOnlyTarget(stored, env, req);
  }

  // ---------------------------------------------------------------- POST

  /** `POST` missing any of category, name, description or link answers 400 and writes nothing. */
  lemma PostRejectsMissingField(stored: Option<Document>, env: Env, form: PostForm)
    requires !Truthy(form.category) || !Truthy(form.name) || !Truthy(form.description) || !Truthy(form.link)
    ensures PostOutcome(stored, env, form) == Fail(400)
  {
  }

  /** A successful `POST` appends exactly one product at the end: id `category-timestamp`,
      the uploaded URLs in file order with `image` their first, blank defaults for part
      number and condition, and the creation instant. */
  lemma PostAppends(stored: Option<Document>, env: Env, form: PostForm)
    requires PostOutcome(stored, env, form).reply.status == 200
    ensures HasRequiredFields(form) && AllUploaded(env.uploads, |form.images|).Some?
    ensures var ps := ReadBlob(stored, env.net).value.products.value;
      var ps' := PostOutcome(stored, env, form).written.value.products.value;
      var urls := AllUploaded(env.uploads, |form.images|).value;
      var p := ps'[|ps'| - 1];
      |ps'| == |ps| + 1 && ps'[..|ps|] == ps
      && PostOutcome(stored, env, form).reply.product == Some(p)
      && p.id == form.category.value + "-" + DecimalString(env.timestamp)
      && p.category == form.category && p.name == form.name
      && p.description == form.description && p.link == form.link
      && p.images == Some(urls) && |urls| == |form.images| && p.image == FirstOrUndefined(urls)
      && p.partNumber == Some(OrEmpty(form.partNumber)) && p.condition == Some(OrEmpty(form.condition))
      && p.createdAt == Some(env.now)
  {
    var ps := ReadBlob(stored, env.net).value.products.value;
    var ps' := PostOutcome(stored, env, form).written.value.products.value;
    assert ps'[..|ps|] == ps;
  }

  /** The generated id starts with the category: its part before the first hyphen is the
      category whenever the category has no hyphen, and the rest is the timestamp. */
  lemma NewProductId(form: PostForm, urls: seq<string>, timestamp: nat, now: int)
    requires form.category.Some? && '-' !in form.category.value
    ensures BeforeHyphen(NewProduct(form, urls, timestamp, now).id) == form.category.value
    ensures NewProduct(form, urls, timestamp, now).id[|form.category.value| + 1..] == DecimalString(timestamp)
  {
    BeforeHyphenOfJoin(form.category.value, DecimalString(timestamp));
  }

  /** Ids stay unique across a `POST` exactly when no stored product already has the
      generated id (two creations in one category in the same millisecond collide). */
  ghost predicate UniqueIds(ps: seq<Product>) {
    forall i, j :: 0 <= i < j < |ps| ==> ps[i].id != ps[j].id
  }

  lemma AppendKeepsUniqueIds(ps: seq<Product>, p: Product)
    ensures UniqueIds(ps + [p]) <==> UniqueIds(ps) && forall i :: 0 <= i < |ps| ==> ps[i].id != p.id
  {
    var qs := ps + [p];
    if UniqueIds(qs) {
      forall i, j | 0 <= i < j < |ps| ensures ps[i].id != ps[j].id {
        assert qs[i] == ps[i] && qs[j] == ps[j];
      }
      forall i | 0 <= i < |ps| ensures ps[i].id != p.id {
        assert qs[i] == ps[i] && qs[|ps|] == p;
      }
    }
  }

  // ---------------------------------------------------------------- DELETE

  /** `DELETE` without an id answers 400, with an unknown id 404, writing and deleting nothing. */
  lemma DeleteRejects(stored: Option<Document>, env: Env, id: Option<string>)
    ensures !Truthy(id) ==> DeleteOutcome(stored, env, id) == Fail(400)
    ensures Truthy(id) && ReadBlob(stored, env.net).Some? && ReadBlob(stored, env.net).value.products.Some?
      && FindIndex(ReadBlob(stored, env.net).value.products.value, id.value) == -1
      ==> DeleteOutcome(stored, env, id) == Fail(404)
  {
  }

  /** A successful `DELETE` removes exactly the first product with that id, keeping the
      others in order, and calls `del` on exactly the blob-hosted URLs among
      `[image] ++ images`. */
  lemma DeleteRemovesOne(stored: Option<Document>, env: Env, id: Option<string>)
    requires DeleteOutcome(stored, env, id).reply.status == 200
    ensures Truthy(id) && ReadBlob(stored, env.net).Some? && ReadBlob(stored, env.net).value.products.Some?
    ensures var ps := ReadBlob(stored, env.net).value.products.value;
      var idx := FindIndex(ps, id.value);
      var o := DeleteOutcome(stored, env, id);
      0 <= idx < |ps| && ps[idx].id == id.value
      && o.written == Some(Document(Some(ps[..idx] + ps[idx + 1..])))
      && |o.written.value.products.value| == |ps| - 1
      && (forall u :: u in o.deletions <==> (ps[idx].image == Some(u) || (ps[idx].images.Some? && u in ps[idx].images.value)) && IsBlobUrl(u))
  {
    var ps := ReadBlob(stored, env.net).value.products.value;
    var idx := FindIndex(ps, id.value);
    forall u {
      FilterMembership(IsBlobUrl, ReferencedUrls(ps[idx]), u);
    }
  }

  /** With unique ids, the deleted id is gone from the written list. */
  lemma DeleteRemovesId(stored: Option<Document>, env: Env, id: Option<string>)
    requires DeleteOutcome(stored, env, id).reply.status == 200
    requires UniqueIds(ReadBlob(stored, env.net).value.products.value)
    ensures forall p :: p in DeleteOutcome(stored, env, id).written.value.products.value ==> p.id != id.value
  {
    var ps := ReadBlob(stored, env.net).value.products.value;
    var idx := FindIndex(ps, id.value);
    var rest := DeleteOutcome(stored, env, id).written.value.products.value;
    forall p | p in rest ensures p.id != id.value {
      var j :| 0 <= j < |rest| && rest[j] == p;
      if j < idx {
        assert rest[j] == ps[j];
      } else {
        assert rest[j] == ps[j + 1];
      }
    }
  }

  /** Because `[image] ++ images` lists the primary image twice for a product whose
      legacy field mirrors its list, `del` is called twice on that URL. */
  lemma DeleteCallsPrimaryTwice(p: Product)
    requires Mirrored(p) && p.images.Some? && |p.images.value| > 0
    requires IsBlobUrl(p.images.value[0])
    ensures |Filter(IsBlobUrl, ReferencedUrls(p))| >= 2
    ensures Filter(IsBlobUrl, ReferencedUrls(p))[..2] == [p.images.value[0], p.images.value[0]]
  {
    var u := p.images.value[0];
    assert u != "" by {
      assert |BlobHost| > 0;
    }
    var rest := p.images.value[1..];
    assert ReferencedUrls(p) == [u] + ([u] + rest);
    FilterAppend(IsBlobUrl, [u], [u] + rest);
    FilterAppend(IsBlobUrl, [u], rest);
    assert Filter(IsBlobUrl, [u]) == [u];
  }

  // ---------------------------------------------------------------- invariant

  /** Every stored product's `image` mirrors its `images`. */
  ghost predicate AllMirrored(ps: seq<Product>) {
    forall i :: 0 <= i < |ps| ==> Mirrored(ps[i])
  }

  ghost predicate StoredMirrored(stored: Option<Document>) {
    stored.Some? && stored.value.products.Some? ==> AllMirrored(stored.value.products.value)
  }

  lemma ReadKeepsMirrored(stored: Option<Document>, net: ReadNet)
    requires StoredMirrored(stored) && ReadBlob(stored, net).Some?
    ensures StoredMirrored(ReadBlob(stored, net))
  {
  }

  lemma PatchJsonKeepsMirror(p: Product, body: PutBody)
    requires Mirrored(p)
    ensures Mirrored(PatchJson(p, body))
  {
  }

  lemma UpdateKeepsMirrored(ps: seq<Product>, idx: nat, prod: Product)
    requires AllMirrored(ps) && idx < |ps| && Mirrored(prod)
    ensures AllMirrored(ps[idx := prod])
  {
  }

  lemma RemoveKeepsMirrored(ps: seq<Product>, idx: nat)
    requires AllMirrored(ps) && idx < |ps|
    ensures AllMirrored(RemoveAt(ps, idx))
  {
    var r := RemoveAt(ps, idx);
    forall j | 0 <= j < |r| ensures Mirrored(r[j]) {
      if j < idx {
        assert r[j] == ps[j];
      } else {
        assert r[j] == ps[j + 1];
      }
    }
  }

  /** A `PUT` write keeps the mirror invariant. */
  lemma PutKeepsMirror(stored: Option<Document>, env: Env, req: PutRequest)
    requires StoredMirrored(stored)
    ensures StoredMirrored(PutOutcome(stored, env, req).written)
  {
    if ReadBlob(stored, env.net).Some? {
      ReadKeepsMirrored(stored, env.net);
      var data := ReadBlob(stored, env.net).value;
      if data.products.Some? && PutOutcome(stored, env, req).written.Some? {
        var ps := data.products.value;
        if Contains(req.contentType, Multipart) {
          var idx := FindIndex(ps, req.form.id.value);
          var urls := AllUploaded(env.uploads, |req.form.newImages|).value;
          UpdateKeepsMirrored(ps, idx, WithImages(PatchMultipart(ps[idx], req.form), KeptImages(req.form) + urls));
        } else {
          var idx := FindIndex(ps, req.json.value.id.value);
          PatchJsonKeepsMirror(ps[idx], req.json.value);
          UpdateKeepsMirrored(ps, idx, PatchJson(ps[idx], req.json.value));
        }
      }
    }
  }

  /** A `POST` write keeps the mirror invariant. */
  lemma PostKeepsMirror(stored: Option<Document>, env: Env, form: PostForm)
    requires StoredMirrored(stored)
    ensures StoredMirrored(PostOutcome(stored, env, form).written)
  {
    if ReadBlob(stored, env.net).Some? {
      ReadKeepsMirrored(stored, env.net);
    }
  }

  /** A `DELETE` write keeps the mirror invariant. */
  lemma DeleteKeepsMirror(stored: Option<Document>, env: Env, id: Option<string>)
    requires StoredMirrored(stored)
    ensures StoredMirrored(DeleteOutcome(stored, env, id).written)
  {
    if ReadBlob(stored, env.net).Some? {
      ReadKeepsMirrored(stored, env.net);
      var data := ReadBlob(stored, env.net).value;
      if data.products.Some? && DeleteOutcome(stored, env, id).written.Some? {
        var ps := data.products.value;
        RemoveKeepsMirrored(ps, FindIndex(ps, id.value));
      }
    }
  }

  /** Every write made by `PUT`, `POST` or `DELETE` keeps the mirror invariant. */
  lemma WritesKeepMirror(stored: Option<Document>, env: Env, req: PutRequest, form: PostForm, id: Option<string>)
    requires StoredMirrored(stored)
    ensures StoredMirrored(PutOutcome(stored, env, req).written)
    ensures StoredMirrored(PostOutcome(stored, env, form).written)
    ensures StoredMirrored(DeleteOutcome(stored, env, id).written)
  {
    PutKeepsMirror(stored, env, req);
    PostKeepsMirror(stored, env, form);
    DeleteKeepsMirror(stored, env, id);
  }

  // ---------------------------------------------------------------- GET after a write

  /** What a page that fetches `GET` works on: the stored array after a successful fetch,
      and no products when the read fails, there is no blob, the fetch is not ok, or the
      stored document holds no array. */
  lemma PagesListStored(stored: Option<Document>, net: ReadNet)
    ensures ProductsOf(GetOutcome(stored, net)) ==
      if net == ReadOk && stored.Some? && stored.value.products.Some? then stored.value.products.value else []
  {
  }

  /** After a successful `PUT`, a `GET` whose fetch succeeds lists the list that was read,
      with the answered product in place of the first one carrying its id. */
  lemma PutThenGet(stored: Option<Document>, env: Env, req: PutRequest)
    requires PutOutcome(stored, env, req).reply.status == 200
    ensures ReadBlob(stored, env.net).Some? && ReadBlob(stored, env.net).value.products.Some?
    ensures var o := PutOutcome(stored, env, req);
      var before := ReadBlob(stored, env.net).value.products.value;
      o.reply.product.Some?
      && var p := o.reply.product.value;
      var idx := FindIndex(before, p.id);
      0 <= idx < |before|
      && GetOutcome(o.written, ReadOk).products == Some(before[idx := p])
  {
  }

  /** After a successful `POST`, a `GET` whose fetch succeeds lists the list that was
      read with the answered product appended. */
  lemma PostThenGet(stored: Option<Document>, env: Env, form: PostForm)
    requires PostOutcome(stored, env, form).reply.status == 200
    ensures ReadBlob(stored, env.net).Some? && ReadBlob(stored, env.net).value.products.Some?
    ensures var o := PostOutcome(stored, env, form);
      o.reply.product.Some?
      && GetOutcome(o.written, ReadOk).products
         == Some(ReadBlob(stored, env.net).value.products.value + [o.reply.product.value])
  {
  }
}
