/** What the serverless handler promises, over its outcome functions: the
    validation and lookup errors change nothing, `POST` appends one product whose
    images are one URL per file, `DELETE` splices out one index while its clean-up
    stops at the first failing `del`, the memory fallback catches a throwing `list`
    or `fetch` and a failed write but not a body that does not parse, and any other
    method is refused. */
module ApiProperties {
  import opened Common
  import opened Text
  import opened Catalog
  import Base64
  import opened ApiHandler

  /** The data URI names the file's type (or the generic one) and carries its bytes
      in base64. */
  lemma DataUriShape(f: ImageFile)
    ensures var mime := if f.mimetype != "" then f.mimetype else OctetStream;
      var enc := Base64.Encode(f.bytes);
      var u := DataUri(f);
      IsPrefix("data:" + mime + ";base64,", u)
      && u[|"data:" + mime + ";base64,"|..] == enc
      && |enc| == 4 * ((|f.bytes| + 2) / 3)
  {
  }

  /** The upload loop yields exactly one URL per file in file order: the uploaded URL,
      or the file's data URI when its upload threw. */
  lemma UploadUrlsSpec(files: seq<ImageFile>, uploads: seq<UploadResult>)
    ensures |UploadUrls(files, uploads)| == |files|
    ensures forall i :: 0 <= i < |files| ==>
      UploadUrls(files, uploads)[i] ==
        (if UploadOutcome(uploads, i).Uploaded? then UploadOutcome(uploads, i).url else DataUri(files[i]))
  {
  }

  /** `POST` missing a field or every file answers 400 and changes nothing. */
  lemma PostRejects(st: State, env: ApiEnv, form: ApiForm)
    requires !Truthy(form.category) || !Truthy(form.name) || !Truthy(form.description)
      || !Truthy(form.link) || |form.files| == 0
    ensures PostOutcome(st, env, Some(form)) == Answer(400, st)
  {
  }

  /** An accepted `POST` answers 200 exactly when the list it read is an array, even when
      the blob write fails, because that failure only diverts the list to memory. A
      throwing `list` or `fetch` still gives 200 (on the memory list); a body that does
      not parse gives 500 and stores nothing. */
  lemma PostAnswers200(st: State, env: ApiEnv, form: ApiForm)
    requires Accepts(form)
    ensures PostOutcome(st, env, Some(form)).reply.status == 200 <==> ReadList(st, env.net).Some?
    ensures env.net == ReadThrows ==> PostOutcome(st, env, Some(form)).reply.status == 200
    ensures env.net == ReadBadBody ==> PostOutcome(st, env, Some(form)) == Answer(500, st)
  {
  }

  /** A successful `POST` appends one product at the end: id `category-timestamp`, one
      image URL per file, and neither `image`, `partNumber` nor `condition`. */
  lemma PostAppends(st: State, env: ApiEnv, form: ApiForm)
    requires PostOutcome(st, env, Some(form)).reply.status == 200
    ensures Accepts(form)
    ensures var o := PostOutcome(st, env, Some(form));
      var ps := ReadList(st, env.net).value;
      var p := o.reply.product.value;
      o.reply.product.Some?
      && p.id == form.category.value + "-" + DecimalString(env.timestamp)
      && p.images == Some(UploadUrls(form.files, env.uploads))
      && |p.images.value| == |form.files|
      && p.image.None? && p.partNumber.None? && p.condition.None?
      && p.createdAt == Some(env.now)
      && o.deletions == []
      && o.state == Store(st, env.net == ReadThrows, ps + [p], env.writeOk)
  {
  }

  /** Unlike the route handler's records, the product created here does not mirror its
      first image into `image`. */
  lemma PostProductNotMirrored(st: State, env: ApiEnv, form: ApiForm)
    requires PostOutcome(st, env, Some(form)).reply.status == 200
    requires UploadOutcome(env.uploads, 0).Uploaded? && UploadOutcome(env.uploads, 0).url != ""
    ensures !Mirrored(PostOutcome(st, env, Some(form)).reply.product.value)
  {
    var urls := UploadUrls(form.files, env.uploads);
    assert urls[0] == UploadOutcome(env.uploads, 0).url;
  }

  /** The written list is read back from where the write went: from the blob by a
      successful fetch after a successful write, and from memory by a read that falls
      back after a failed one; a read that fell back before the write also finds the
      list in memory afterwards. */
  lemma StoreThenRead(st: State, aliased: bool, ps: seq<Product>, writeOk: bool)
    ensures ReadList(Store(st, aliased, ps, writeOk), if writeOk then ReadOk else ReadThrows) == Some(ps)
    ensures aliased ==> ReadList(Store(st, aliased, ps, writeOk), ReadThrows) == Some(ps)
  {
  }

  /** `DELETE` without an id answers 400, with an unknown id 404, after a body that
      does not parse 500; none of them calls `del` or changes anything. */
  lemma DeleteRejects(st: State, env: ApiEnv, id: Option<string>)
    ensures !Truthy(id) ==> DeleteOutcome(st, env, id) == Answer(400, st)
    ensures Truthy(id) && ReadList(st, env.net).Some?
      && FindIndex(ReadList(st, env.net).value, id.value) == -1
      ==> DeleteOutcome(st, env, id) == Answer(404, st)
    ensures Truthy(id) && env.net == ReadBadBody ==> DeleteOutcome(st, env, id) == Answer(500, st)
  {
  }

  /** A successful `DELETE` splices out exactly the first product with that id, whatever
      the `del` calls did. */
  lemma DeleteSplices(st: State, env: ApiEnv, id: Option<string>)
    requires DeleteOutcome(st, env, id).reply.status == 200
    ensures Truthy(id) && ReadList(st, env.net).Some?
    ensures var ps := ReadList(st, env.net).value;
      var idx := FindIndex(ps, id.value);
      0 <= idx < |ps| && ps[idx].id == id.value
      && DeleteOutcome(st, env, id).state == Store(st, env.net == ReadThrows, RemoveAt(ps, idx), env.writeOk)
      && (forall e: ApiEnv :: e.net == env.net && e.writeOk == env.writeOk ==>
            DeleteOutcome(st, e, id).state == DeleteOutcome(st, env, id).state)
  {
  }

  /** The clean-up makes `del` calls on a prefix of the blob-hosted candidates, in order:
      all of them when every call succeeds, and otherwise up to and including the first
      that throws. */
  lemma DelCallsSpec(urls: seq<string>, dels: seq<bool>)
    ensures var b := Filter(IsBlobUrl, urls);
      var calls := DelCalls(urls, dels);
      |calls| <= |b| && calls == b[..|calls|]
      && (forall u :: u in calls ==> u in urls && IsBlobUrl(u))
      && ((forall c :: 0 <= c < |b| ==> DelOk(dels, c)) ==> calls == b)
      && (forall c :: 0 <= c < |b| && !DelOk(dels, c) ==> |calls| <= c + 1)
      && (forall c :: 0 <= c < |calls| - 1 ==> DelOk(dels, c))
      && (|calls| < |b| ==> |calls| > 0 && !DelOk(dels, |calls| - 1))
  {
    var b := Filter(IsBlobUrl, urls);
    var calls := DelCalls(urls, dels);
    forall u | u in calls ensures u in urls && IsBlobUrl(u) {
      assert u in b;
      FilterMembership(IsBlobUrl, urls, u);
    }
  }

  /** The candidates are `images` when it is an array, else `[image]`, and a product
      with an empty image list has nothing to clean up. */
  lemma DeleteCandidates(p: Product, dels: seq<bool>)
    ensures p.images.Some? ==> DelCalls(ExistingUrls(p), dels) == DelCalls(p.images.value, dels)
    ensures p.images == Some([]) ==> DelCalls(ExistingUrls(p), dels) == []
  {
  }

  /** Any method other than `GET`, `POST` and `DELETE` answers 405 and changes nothing. */
  lemma OtherMethodsRefused(st: State, env: ApiEnv, req: Request)
    requires req.verb != "GET" && req.verb != "POST" && req.verb != "DELETE"
    ensures HandleOutcome(st, env, req) == Answer(405, st)
  {
  }

  /** `GET` changes nothing and lists the blob's document, or the memory store's list when
      `list` or `fetch` throws; a body that does not parse answers 500. */
  lemma GetLists(st: State, env: ApiEnv, req: Request)
    requires req.verb == "GET"
    ensures HandleOutcome(st, env, req).state == st && HandleOutcome(st, env, req).deletions == []
    ensures HandleOutcome(st, env, req).reply.status == 200 <==> env.net != ReadBadBody
    ensures env.net == ReadThrows ==> HandleOutcome(st, env, req).reply.listed == Some(Document(Some(st.mem)))
    ensures env.net == ReadOk && st.blob.Some? ==> HandleOutcome(st, env, req).reply.listed == st.blob
    ensures env.net == ReadBadBody ==> HandleOutcome(st, env, req) == Answer(500, st)
  {
  }

  /** A stored body that does not parse is not caught by the memory fallback: every
      request that reads the list answers 500 and changes nothing and deletes nothing. */
  lemma BadBodyAnswers500(st: State, env: ApiEnv, req: Request)
    requires env.net == ReadBadBody
    requires req.verb == "GET"
      || (req.verb == "POST" && req.form.Some? && Accepts(req.form.value))
      || (req.verb == "DELETE" && Truthy(req.id))
    ensures HandleOutcome(st, env, req) == Answer(500, st)
  {
  }

  /** A product created by `POST` is listed by the next `GET` that reads where the write
      went: the blob after a successful write, memory after a failed one. */
  lemma PostThenGet(st: State, env: ApiEnv, form: ApiForm, net: ReadNet)
    requires PostOutcome(st, env, Some(form)).reply.status == 200
    requires (env.writeOk && net == ReadOk) || (!env.writeOk && net == ReadThrows)
    ensures var o := PostOutcome(st, env, Some(form));
      var listed := GetOutcome(o.state, net).reply.listed.value;
      listed.products.Some? && |listed.products.value| > 0
      && listed.products.value[|listed.products.value| - 1] == o.reply.product.value
  {
  }
}
