/** The route-style catalog handlers (`PUT`, `POST`, `DELETE`, `GET` over
    `data/products.json`). Each handler is specified by a pure outcome function
    (the reply, the document written if any, and the `del` calls made), and
    implemented step by step by a method of `RouteStore`, the blob store as the
    handlers see it. */
module RouteHandlers {
  import opened Common
  import opened Text
  import opened Catalog

  /** What the environment answers while one request runs. */
  datatype Env = Env(
    net: ReadNet,                 // how reading the document goes
    uploads: seq<UploadResult>,   // the answers of the image `put` calls, in call order
    writeOk: bool,                // whether writing the document back succeeds
    timestamp: nat,               // `Date.now()`
    now: int)                     // the instant `new Date().toISOString()` records

  /** The multipart `PUT` form: `form.get(...)` of each field (`None` for null),
      `keepImages` after `JSON.parse` (`None` when absent or not valid JSON),
      and the `newImages` files. */
  datatype PutForm = PutForm(
    id: Option<string>,
    name: Option<string>,
    description: Option<string>,
    partNumber: Option<string>,
    category: Option<string>,
    link: Option<string>,
    condition: Option<string>,
    keepImages: Option<seq<string>>,
    newImages: seq<ImageFile>)

  /** The JSON `PUT` body's fields (`None` when absent or not a string; `images`
      `None` when not an array). */
  datatype PutBody = PutBody(
    id: Option<string>,
    name: Option<string>,
    description: Option<string>,
    partNumber: Option<string>,
    category: Option<string>,
    link: Option<string>,
    condition: Option<string>,
    images: Option<seq<string>>)

  /** A `PUT` request read both ways: the handler uses `form` when the content type
      names `multipart/form-data`, and `json` (`None` when the body does not parse)
      otherwise. */
  datatype PutRequest = PutRequest(contentType: string, form: PutForm, json: Option<PutBody>)

  /** The `POST` form data. */
  datatype PostForm = PostForm(
    category: Option<string>,
    name: Option<string>,
    description: Option<string>,
    link: Option<string>,
    partNumber: Option<string>,
    condition: Option<string>,
    images: seq<ImageFile>)

  /** What one request does: its reply, the document it writes back (if it gets that
      far and the write succeeds), and the URLs it calls `del` on, in order. */
  datatype Outcome = Outcome(reply: Reply, written: Option<Document>, deletions: seq<string>)

  function Fail(status: int): Outcome {
    Outcome(Reply(status, None), None, [])
  }

  /** The end of every mutating handler: write the new list and answer 200, or answer
      500 when the write throws; deletions already made stay made. */
  function Finish(prod: Option<Product>, ps: seq<Product>, dels: seq<string>, writeOk: bool): Outcome {
    if writeOk then Outcome(Reply(200, prod), Some(Document(Some(ps))), dels)
    else Outcome(Reply(500, None), None, dels)
  }

  /** The upload loop: every file's URL in file order, or `None` as soon as one `put`
      throws (which ends the request with 500). */
  function AllUploaded(uploads: seq<UploadResult>, n: nat): (r: Option<seq<string>>)
  {
    if forall i :: 0 <= i < n ==> UploadOutcome(uploads, i).Uploaded? then
      Some(seq(n, i requires 0 <= i < n => UploadOutcome(uploads, i).url))
    else None
  }

  /** The scalar-field patch shared by both `PUT` paths: a field is overwritten exactly
      when the request supplies it. */
  function PatchFields(p: Product, name: Option<string>, description: Option<string>,
                       partNumber: Option<string>, category: Option<string>,
                       link: Option<string>): Product
  {
    p.(name := if name.Some? then name else p.name,
       description := if description.Some? then description else p.description,
       partNumber := if partNumber.Some? then partNumber else p.partNumber,
       category := if category.Some? then category else p.category,
       link := if link.Some? then link else p.link)
  }

  /** Set the list and keep the legacy mirror in step: `images = xs; image = xs[0] || undefined`. */
  function WithImages(p: Product, xs: seq<string>): (q: Product)
    ensures Mirrored(q)
  {
    p.(images := Some(xs), image := FirstOrUndefined(xs))
  }

  /** The multipart patch: the scalar fields including `condition`. */
  function PatchMultipart(p: Product, form: PutForm): Product {
    var q := PatchFields(p, form.name, form.description, form.partNumber, form.category, form.link);
    if form.condition.Some? then q.(condition := form.condition) else q
  }

  /** The JSON patch: the scalar fields except `condition`, and `images` when it is an array. */
  function PatchJson(p: Product, body: PutBody): Product {
    var q := PatchFields(p, body.name, body.description, body.partNumber, body.category, body.link);
    if body.images.Some? then WithImages(q, body.images.value) else q
  }

  /** `keepImages`, defaulting to `[]`. */
  function KeptImages(form: PutForm): seq<string> {
    if form.keepImages.Some? then form.keepImages.value else []
  }

  /** The URLs the multipart `PUT` drops: existing ones not in `keepImages`. */
  function Dropped(p: Product, keep: seq<string>): seq<string> {
    Filter((u: string) => u !in keep, ExistingUrls(p))
  }

  function PutMultipartOutcome(data: Document, form: PutForm, env: Env): Outcome {
    if !Truthy(form.id) then Fail(400)
    else if data.products.None? then Fail(500)
    else
      var ps := data.products.value;
      var idx := FindIndex(ps, form.id.value);
      if idx == -1 then Fail(404)
      else match AllUploaded(env.uploads, |form.newImages|)
        case None => Fail(500)
        case Some(urls) =>
          var prod := WithImages(PatchMultipart(ps[idx], form), KeptImages(form) + urls);
          Finish(Some(prod), ps[idx := prod], Filter(IsBlobUrl, Dropped(ps[idx], KeptImages(form))), env.writeOk)
  }

  function PutJsonOutcome(data: Document, body: PutBody, env: Env): Outcome {
    if !Truthy(body.id) then Fail(400)
    else if data.products.None? then Fail(500)
    else
      var ps := data.products.value;
      var idx := FindIndex(ps, body.id.value);
      if idx == -1 then Fail(404)
      else
        var prod := PatchJson(ps[idx], body);
        Finish(Some(prod), ps[idx := prod], [], env.writeOk)
  }

  const Multipart: string := "multipart/form-data"

  /** `PUT`: the document is read first, then the request is taken as multipart or JSON. */
  function PutOutcome(stored: Option<Document>, env: Env, req: PutRequest): Outcome {
    match ReadBlob(stored, env.net)
    case None => Fail(500)
    case Some(data) =>
      if Contains(req.contentType, Multipart) then PutMultipartOutcome(data, req.form, env)
      else if req.json.None? then Fail(500)
      else PutJsonOutcome(data, req.json.value, env)
  }

  /** The record `POST` appends. */
  function NewProduct(form: PostForm, urls: seq<string>, timestamp: nat, now: int): Product
    requires form.category.Some?
  {
    Product(
      id := form.category.value + "-" + DecimalString(timestamp),
      category := form.category,
      name := form.name,
      description := form.description,
      link := form.link,
      partNumber := Some(OrEmpty(form.partNumber)),
      condition := Some(OrEmpty(form.condition)),
      images := Some(urls),
      image := FirstOrUndefined(urls),
      createdAt := Some(now),
      manufacturer := None,
      subcategory := None,
      specifications := None)
  }

  /** The four form fields `POST` insists on. */
  predicate HasRequiredFields(form: PostForm) {
    Truthy(form.category) && Truthy(form.name) && Truthy(form.description) && Truthy(form.link)
  }

  /** `POST`: validate, upload, then read, append and write. */
  function PostOutcome(stored: Option<Document>, env: Env, form: PostForm): Outcome {
    if !HasRequiredFields(form) then Fail(400)
    else match AllUploaded(env.uploads, |form.images|)
      case None => Fail(500)
      case Some(urls) =>
        match ReadBlob(stored, env.net)
        case None => Fail(500)
        case Some(data) =>
          if data.products.None? then Fail(500)
          else
            var prod := NewProduct(form, urls, env.timestamp, env.now);
            Finish(Some(prod), data.products.value + [prod], [], env.writeOk)
  }

  /** `DELETE`: every blob-hosted URL among `[image] ++ images`, then the splice. */
  function DeleteOutcome(stored: Option<Document>, env: Env, id: Option<string>): Outcome {
    if !Truthy(id) then Fail(400)
    else match ReadBlob(stored, env.net)
      case None => Fail(500)
      case Some(data) =>
        if data.products.None? then Fail(500)
        else
          var ps := data.products.value;
          var idx := FindIndex(ps, id.value);
          if idx == -1 then Fail(404)
          else Finish(None, RemoveAt(ps, idx), Filter(IsBlobUrl, ReferencedUrls(ps[idx])), env.writeOk)
  }

  /** `GET`: the document as read, or an empty list when the read throws. */
  function GetOutcome(stored: Option<Document>, net: ReadNet): Document {
    match ReadBlob(stored, net)
    case None => Document(Some([]))
    case Some(d) => d
  }

  /** The blob store as the route handlers see it: the object at `data/products.json`
      (`None` when there is none) and the log of `del` calls made on image URLs. */
  class RouteStore {
    var stored: Option<Document>
    var deleted: seq<string>

    constructor(initial: Option<Document>)
      ensures stored == initial && deleted == []
    {
      stored := initial;
      deleted := [];
    }

    /** `readProducts()`; `None` when it throws. */
    method ReadProducts(net: ReadNet) returns (data: Option<Document>)
      ensures data == ReadBlob(stored, net)
    {
      if net == ReadThrows || net == ReadBadBody {
        return None;
      }
      if stored.None? || net == ReadNotOk {
        return Some(Document(Some([])));
      }
      return stored;
    }

    /** `writeProducts(data)`: overwrite the object, or report that `put` threw. */
    method WriteProducts(data: Document, ok: bool) returns (written: bool)
      modifies this`stored
      ensures written == ok
      ensures stored == if ok then Some(data) else old(stored)
    {
      if ok {
        stored := Some(data);
      }
      return ok;
    }

    /** The upload loop: one `put` per file, in file order, stopping at the first that throws. */
    method UploadAll(uploads: seq<UploadResult>, n: nat) returns (urls: Option<seq<string>>)
      ensures urls.Some? <==> forall i :: 0 <= i < n ==> UploadOutcome(uploads, i).Uploaded?
      ensures urls.Some? ==> |urls.value| == n
      ensures urls.Some? ==> forall i :: 0 <= i < n ==> urls.value[i] == UploadOutcome(uploads, i).url
      ensures urls == AllUploaded(uploads, n)
    {
      var acc: seq<string> := [];
      for i := 0 to n
        invariant |acc| == i
        invariant forall k :: 0 <= k < i ==> UploadOutcome(uploads, k).Uploaded? && acc[k] == UploadOutcome(uploads, k).url
      {
        var r := UploadOutcome(uploads, i);
        if r.UploadFailed? {
          return None;
        }
        acc := acc + [r.url];
      }
      assert acc == seq(n, i requires 0 <= i < n => UploadOutcome(uploads, i).url);
      urls := Some(acc);
    }

    /** `for (const url of urls) if (url.includes(host)) del(url)`; a failing `del` is
        caught per URL, so every blob URL is attempted. */
    method DeleteBlobs(urls: seq<string>)
      modifies this`deleted
      ensures deleted == old(deleted) + Filter(IsBlobUrl, urls)
    {
      for i := 0 to |urls|
        invariant deleted == old(deleted) + Filter(IsBlobUrl, urls[..i])
      {
        assert urls[..i + 1] == urls[..i] + [urls[i]];
        FilterSnoc(IsBlobUrl, urls[..i], urls[i]);
        if IsBlobUrl(urls[i]) {
          deleted := deleted + [urls[i]];
        }
      }
      assert urls[..|urls|] == urls;
    }

    /** The last step of the mutating handlers. */
    method Commit(prod: Option<Product>, ps: seq<Product>, ok: bool) returns (reply: Reply)
      modifies this`stored
      ensures reply == Finish(prod, ps, [], ok).reply
      ensures stored == if ok then Some(Document(Some(ps))) else old(stored)
    {
      var written := WriteProducts(Document(Some(ps)), ok);
      if !written {
        return Reply(500, None);
      }
      return Reply(200, prod);
    }

    method PutMultipart(data: Document, form: PutForm, env: Env) returns (reply: Reply)
      modifies this
      ensures var o := PutMultipartOutcome(data, form, env);
        reply == o.reply && deleted == old(deleted) + o.deletions
        && stored == (if o.written.Some? then o.written else old(stored))
    {
      if !Truthy(form.id) {
        return Reply(400, None);
      }
      if data.products.None? {
        return Reply(500, None);
      }
      var ps := data.products.value;
      var idx := FindIndex(ps, form.id.value);
      if idx == -1 {
        return Reply(404, None);
      }
      var keep := KeptImages(form);
      var prod := PatchMultipart(ps[idx], form);
      var uploaded := UploadAll(env.uploads, |form.newImages|);
      if uploaded.None? {
        return Reply(500, None);
      }
      assert ExistingUrls(prod) == ExistingUrls(ps[idx]);
      DeleteBlobs(Dropped(prod, keep));
      prod := WithImages(prod, keep + uploaded.value);
      reply := Commit(Some(prod), ps[idx := prod], env.writeOk);
    }

    method PutJson(data: Document, body: PutBody, env: Env) returns (reply: Reply)
      modifies this
      ensures var o := PutJsonOutcome(data, body, env);
        reply == o.reply && deleted == old(deleted) + o.deletions
        && stored == (if o.written.Some? then o.written else old(stored))
    {
      if !Truthy(body.id) {
        return Reply(400, None);
      }
      if data.products.None? {
        return Reply(500, None);
      }
      var ps := data.products.value;
      var idx := FindIndex(ps, body.id.value);
      if idx == -1 {
        return Reply(404, None);
      }
      var prod := PatchJson(ps[idx], body);
      reply := Commit(Some(prod), ps[idx := prod], env.writeOk);
    }

    method Put(env: Env, req: PutRequest) returns (reply: Reply)
      modifies this
      ensures var o := PutOutcome(old(stored), env, req);
        reply == o.reply && deleted == old(deleted) + o.deletions
        && stored == (if o.written.Some? then o.written else old(stored))
    {
      var data := ReadProducts(env.net);
      if data.None? {
        return Reply(500, None);
      }
      if Contains(req.contentType, Multipart) {
        reply := PutMultipart(data.value, req.form, env);
      } else if req.json.None? {
        return Reply(500, None);
      } else {
        reply := PutJson(data.value, req.json.value, env);
      }
    }

    method Post(env: Env, form: PostForm) returns (reply: Reply)
      modifies this
      ensures var o := PostOutcome(old(stored), env, form);
        reply == o.reply && deleted == old(deleted) + o.deletions
        && stored == (if o.written.Some? then o.written else old(stored))
    {
      if !HasRequiredFields(form) {
        return Reply(400, None);
      }
      var uploaded := UploadAll(env.uploads, |form.images|);
      if uploaded.None? {
        return Reply(500, None);
      }
      var data := ReadProducts(env.net);
      if data.None? || data.value.products.None? {
        return Reply(500, None);
      }
      var prod := NewProduct(form, uploaded.value, env.timestamp, env.now);
      var ps := data.value.products.value + [prod];
      reply := Commit(Some(prod), ps, env.writeOk);
    }

    method Delete(env: Env, id: Option<string>) returns (reply: Reply)
      modifies this
      ensures var o := DeleteOutcome(old(stored), env, id);
        reply == o.reply && deleted == old(deleted) + o.deletions
        && stored == (if o.written.Some? then o.written else old(stored))
    {
      if !Truthy(id) {
        return Reply(400, None);
      }
      var data := ReadProducts(env.net);
      if data.None? || data.value.products.None? {
        return Reply(500, None);
      }
      var ps := data.value.products.value;
      var idx := FindIndex(ps, id.value);
      if idx == -1 {
        return Reply(404, None);
      }
      DeleteBlobs(ReferencedUrls(ps[idx]));
      reply := Commit(None, RemoveAt(ps, idx), env.writeOk);
    }

    method Get(net: ReadNet) returns (doc: Document)
      ensures doc == GetOutcome(stored, net)
    {
      var data := ReadProducts(net);
      if data.None? {
        return Document(Some([]));
      }
      return data.value;
    }
  }
}
