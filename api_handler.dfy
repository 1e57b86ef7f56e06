/** The serverless catalog handler (one entry point dispatching on the HTTP method)
    with its process-wide memory fallback: when listing or fetching the blob throws,
    the handler works on the memory store's own list (a body that does not parse is
    not caught and answers 500), and when the blob write throws, the
    memory store takes a copy of the list instead. Each operation is specified by
    a pure outcome function over the store's `State` and implemented step by step
    by a method of `ApiStore`. */
module ApiHandler {
  import opened Common
  import opened Text
  import opened Catalog
  import Base64

  /** What the environment answers while one request runs. */
  datatype ApiEnv = ApiEnv(
    net: ReadNet,                 // how reading the document goes
    uploads: seq<UploadResult>,   // the answers of the image `put` calls, in call order
    dels: seq<bool>,              // the answers of the `del` calls (`false`: it threw); later calls succeed
    writeOk: bool,                // whether the blob `put` of the document succeeds
    timestamp: nat,               // `Date.now()`
    now: int)                     // the instant `new Date().toISOString()` records

  /** The `fields` and `files` the multipart parser produces for `POST`. */
  datatype ApiForm = ApiForm(
    category: Option<string>,
    name: Option<string>,
    description: Option<string>,
    link: Option<string>,
    files: seq<ImageFile>)

  /** A request: its method, the parsed `POST` body (`None` when parsing fails) and
      the `id` query parameter. */
  datatype Request = Request(verb: string, form: Option<ApiForm>, id: Option<string>)

  /** The blob at `data/products.json` and the memory store's list. */
  datatype State = State(blob: Option<Document>, mem: seq<Product>)

  /** The answer: a status, the created product, or the listed document of a `GET`. */
  datatype ApiReply = ApiReply(status: int, product: Option<Product>, listed: Option<Document>)

  /** What one request does: the answer, the new state and the `del` calls made. */
  datatype ApiOutcome = ApiOutcome(reply: ApiReply, state: State, deletions: seq<string>)

  function Answer(status: int, st: State): ApiOutcome {
    ApiOutcome(ApiReply(status, None, None), st, [])
  }

  /** `await readProducts()`: the document and whether it is the memory store's own
      object (`list` or `fetch` threw and the `catch` returned the memory store), or
      `None` when the body does not parse. `return res.json()` hands back the pending
      parse without awaiting it, so its rejection escapes the `try` and reaches the
      handler's outer `catch`. */
  function Read(st: State, net: ReadNet): (r: Option<(Document, bool)>)
    ensures r.None? <==> net == ReadBadBody
    ensures net == ReadThrows ==> r == Some((Document(Some(st.mem)), true))
    ensures r.Some? && net != ReadThrows ==> !r.value.1 && Some(r.value.0) == ReadBlob(st.blob, net)
  {
    if net == ReadBadBody then None
    else if net == ReadThrows then Some((Document(Some(st.mem)), true))
    else Some((ReadBlob(st.blob, net).value, false))
  }

  /** The list a `POST` or `DELETE` works on: `None` when the read rejects or the
      document has no array under `products` (then `push` or `findIndex` throws). */
  function ReadList(st: State, net: ReadNet): Option<seq<Product>> {
    match Read(st, net)
    case None => None
    case Some((data, _)) => data.products
  }

  /** The state after the handler sets the list to `ps` and calls `writeProducts`: a
      list that is the memory store's own changes with it, and a failed write copies
      the list into the memory store. */
  function Store(st: State, aliased: bool, ps: seq<Product>, writeOk: bool): State {
    State(if writeOk then Some(Document(Some(ps))) else st.blob,
          if aliased || !writeOk then ps else st.mem)
  }

  const OctetStream: string := "application/octet-stream"

  /** The URL recorded for a file whose upload threw: its content inline. */
  function DataUri(f: ImageFile): string {
    "data:" + (if f.mimetype != "" then f.mimetype else OctetStream) + ";base64," + Base64.Encode(f.bytes)
  }

  /** The URL recorded for the `i`-th file. */
  function FileUrl(files: seq<ImageFile>, uploads: seq<UploadResult>, i: nat): string
    requires i < |files|
  {
    match UploadOutcome(uploads, i)
    case Uploaded(url) => url
    case UploadFailed => DataUri(files[i])
  }

  /** The upload loop: one URL per file, in file order; no failure stops it. */
  function UploadUrls(files: seq<ImageFile>, uploads: seq<UploadResult>): seq<string> {
    seq(|files|, i requires 0 <= i < |files| => FileUrl(files, uploads, i))
  }

  /** The fields `POST` insists on, and at least one file. */
  predicate Accepts(form: ApiForm) {
    Truthy(form.category) && Truthy(form.name) && Truthy(form.description) && Truthy(form.link)
    && |form.files| > 0
  }

  /** The record `POST` appends: no `image`, `partNumber` or `condition`. */
  function NewProduct(form: ApiForm, urls: seq<string>, timestamp: nat, now: int): Product
    requires form.category.Some?
  {
    Product(
      id := form.category.value + "-" + DecimalString(timestamp),
      category := form.category,
      name := form.name,
      description := form.description,
      link := form.link,
      partNumber := None,
      condition := None,
      images := Some(urls),
      image := None,
      createdAt := Some(now),
      manufacturer := None,
      subcategory := None,
      specifications := None)
  }

  function PostOutcome(st: State, env: ApiEnv, form: Option<ApiForm>): ApiOutcome {
    if form.None? then Answer(500, st)
    else if !Accepts(form.value) then Answer(400, st)
    else
      var urls := UploadUrls(form.value.files, env.uploads);
      match ReadList(st, env.net)
      case None => Answer(500, st)
      case Some(ps) =>
        var prod := NewProduct(form.value, urls, env.timestamp, env.now);
        ApiOutcome(ApiReply(200, Some(prod), None),
                   Store(st, env.net == ReadThrows, ps + [prod], env.writeOk), [])
  }

  /** Whether the `i`-th `del` call succeeds. */
  predicate DelOk(dels: seq<bool>, i: nat) {
    i >= |dels| || dels[i]
  }

  /** The index of the first of `n` `del` calls that throws, or `n`. */
  function FirstFailure(dels: seq<bool>, n: nat): (k: nat)
    ensures k <= n
    ensures forall i :: 0 <= i < k ==> DelOk(dels, i)
    ensures k < n ==> !DelOk(dels, k)
  {
    if n == 0 then 0
    else
      var k := FirstFailure(dels, n - 1);
      if k < n - 1 then k else if DelOk(dels, n - 1) then n else n - 1
  }

  /** The `del` calls the clean-up loop makes: the blob-hosted candidates, in order,
      up to and including the first that throws (the throw leaves the loop). */
  function DelCalls(urls: seq<string>, dels: seq<bool>): seq<string> {
    var b := Filter(IsBlobUrl, urls);
    var k := FirstFailure(dels, |b|);
    if k < |b| then b[..k + 1] else b
  }

  function DeleteOutcome(st: State, env: ApiEnv, id: Option<string>): ApiOutcome {
    if !Truthy(id) then Answer(400, st)
    else
      match ReadList(st, env.net)
      case None => Answer(500, st)
      case Some(ps) =>
        var idx := FindIndex(ps, id.value);
        if idx == -1 then Answer(404, st)
        else
          ApiOutcome(ApiReply(200, None, None),
                     Store(st, env.net == ReadThrows, RemoveAt(ps, idx), env.writeOk),
                     DelCalls(ExistingUrls(ps[idx]), env.dels))
  }

  /** `GET`: the document as read, or 500 when the read rejects. */
  function GetOutcome(st: State, net: ReadNet): ApiOutcome {
    match Read(st, net)
    case None => Answer(500, st)
    case Some((data, _)) => ApiOutcome(ApiReply(200, None, Some(data)), st, [])
  }

  /** The entry point: `GET`, `POST` and `DELETE`, and 405 for anything else. */
  function HandleOutcome(st: State, env: ApiEnv, req: Request): ApiOutcome {
    if req.verb == "GET" then GetOutcome(st, env.net)
    else if req.verb == "POST" then PostOutcome(st, env, req.form)
    else if req.verb == "DELETE" then DeleteOutcome(st, env, req.id)
    else Answer(405, st)
  }

  /** The blob store and the process-global memory store as this handler sees them,
      with the log of `del` calls made. */
  class ApiStore {
    var blob: Option<Document>
    var mem: seq<Product>
    var deleted: seq<string>

    /** `getMem()` starts the memory store with an empty list. */
    constructor(initial: Option<Document>)
      ensures blob == initial && mem == [] && deleted == []
    {
      blob := initial;
      mem := [];
      deleted := [];
    }

    /** `await readProducts()`: `ok` is false when the promise rejects; otherwise the
        document, `aliased` when it is the memory store's own list. */
    method ReadProducts(net: ReadNet) returns (ok: bool, data: Document, aliased: bool)
      ensures ok <==> Read(State(blob, mem), net).Some?
      ensures ok ==> (data, aliased) == Read(State(blob, mem), net).value
    {
      if net == ReadBadBody {
        return false, Document(None), false;
      }
      if net == ReadThrows {
        return true, Document(Some(mem)), true;
      }
      if blob.None? || net == ReadNotOk {
        return true, Document(Some([])), false;
      }
      return true, blob.value, false;
    }

    /** `writeProducts(data)`: the blob `put`, or on failure a copy of the list (or `[]`
        when `products` is not an array) into the memory store. It never throws. */
    method WriteProducts(data: Document, ok: bool)
      modifies this`blob, this`mem
      ensures blob == if ok then Some(data) else old(blob)
      ensures mem == if ok then old(mem) else if data.products.Some? then data.products.value else []
    {
      if ok {
        blob := Some(data);
      } else {
        mem := if data.products.Some? then data.products.value else [];
      }
    }

    /** Set the list the handler read to `ps` (the memory store's own when `aliased`)
        and write it back. */
    method Commit(ps: seq<Product>, aliased: bool, ok: bool)
      modifies this`blob, this`mem
      ensures State(blob, mem) == Store(old(State(blob, mem)), aliased, ps, ok)
    {
      if aliased {
        mem := ps;
      }
      WriteProducts(Document(Some(ps)), ok);
    }

    /** The upload loop, with the data-URI fallback for each `put` that throws. */
    method UploadAll(files: seq<ImageFile>, uploads: seq<UploadResult>) returns (urls: seq<string>)
      ensures urls == UploadUrls(files, uploads)
    {
      urls := [];
      for i := 0 to |files|
        invariant |urls| == i
        invariant forall k :: 0 <= k < i ==> urls[k] == FileUrl(files, uploads, k)
      {
        var r := UploadOutcome(uploads, i);
        var url;
        if r.Uploaded? {
          url := r.url;
        } else {
          url := DataUri(files[i]);
        }
        assert url == FileUrl(files, uploads, i);
        urls := urls + [url];
      }
    }

    /** `for (const img of candidates) if (blob-hosted) await del(img)`, inside one
        `try`: the first `del` that throws ends the loop. */
    method DeleteImages(urls: seq<string>, dels: seq<bool>)
      modifies this`deleted
      ensures deleted == old(deleted) + DelCalls(urls, dels)
    {
      var calls := 0;
      var i := 0;
      while i < |urls|
        invariant 0 <= i <= |urls|
        invariant calls == |Filter(IsBlobUrl, urls[..i])|
        invariant forall c :: 0 <= c < calls ==> DelOk(dels, c)
        invariant deleted == old(deleted) + Filter(IsBlobUrl, urls[..i])
      {
        PrefixSnoc(urls, i);
        if IsBlobUrl(urls[i]) {
          deleted := deleted + [urls[i]];
          assert deleted == old(deleted) + Filter(IsBlobUrl, urls[..i + 1]);
          if !DelOk(dels, calls) {
            DelCallsStop(urls, dels, i, calls);
            return;
          }
          calls := calls + 1;
        }
        i := i + 1;
      }
      DelCallsAll(urls, dels, calls);
    }

    method Post(env: ApiEnv, form: Option<ApiForm>) returns (reply: ApiReply)
      modifies this
      ensures var o := PostOutcome(old(State(blob, mem)), env, form);
        reply == o.reply && State(blob, mem) == o.state && deleted == old(deleted) + o.deletions
    {
      if form.None? {
        return ApiReply(500, None, None);
      }
      if !Accepts(form.value) {
        return ApiReply(400, None, None);
      }
      var urls := UploadAll(form.value.files, env.uploads);
      var ok, data, aliased := ReadProducts(env.net);
      if !ok || data.products.None? {
        return ApiReply(500, None, None);
      }
      var prod := NewProduct(form.value, urls, env.timestamp, env.now);
      Commit(data.products.value + [prod], aliased, env.writeOk);
      return ApiReply(200, Some(prod), None);
    }

    method Delete(env: ApiEnv, id: Option<string>) returns (reply: ApiReply)
      modifies this
      ensures var o := DeleteOutcome(old(State(blob, mem)), env, id);
        reply == o.reply && State(blob, mem) == o.state && deleted == old(deleted) + o.deletions
    {
      if !Truthy(id) {
        return ApiReply(400, None, None);
      }
      var ok, data, aliased := ReadProducts(env.net);
      if !ok || data.products.None? {
        return ApiReply(500, None, None);
      }
      var ps := data.products.value;
      var idx := FindIndex(ps, id.value);
      if idx == -1 {
        return ApiReply(404, None, None);
      }
      DeleteImages(ExistingUrls(ps[idx]), env.dels);
      Commit(RemoveAt(ps, idx), aliased, env.writeOk);
      return ApiReply(200, None, None);
    }

    method Handle(env: ApiEnv, req: Request) returns (reply: ApiReply)
      modifies this
      ensures var o := HandleOutcome(old(State(blob, mem)), env, req);
        reply == o.reply && State(blob, mem) == o.state && deleted == old(deleted) + o.deletions
    {
      if req.verb == "GET" {
        var ok, data, _ := ReadProducts(env.net);
        if !ok {
          return ApiReply(500, None, None);
        }
        return ApiReply(200, None, Some(data));
      } else if req.verb == "POST" {
        reply := Post(env, req.form);
      } else if req.verb == "DELETE" {
        reply := Delete(env, req.id);
      } else {
        return ApiReply(405, None, None);
      }
    }
  }

  /** The blob URLs among the first `i` candidates are the first ones among all. */
  lemma FilterPrefix<T>(f: T -> bool, xs: seq<T>, i: nat)
    requires i <= |xs|
    ensures |Filter(f, xs[..i])| <= |Filter(f, xs)|
    ensures Filter(f, xs[..i]) == Filter(f, xs)[..|Filter(f, xs[..i])|]
  {
    assert xs == xs[..i] + xs[i..];
    FilterAppend(f, xs[..i], xs[i..]);
  }

  /** One more candidate extends the blob-hosted prefix by it, when it is blob-hosted. */
  lemma PrefixSnoc(urls: seq<string>, i: nat)
    requires i < |urls|
    ensures Filter(IsBlobUrl, urls[..i + 1]) ==
      Filter(IsBlobUrl, urls[..i]) + (if IsBlobUrl(urls[i]) then [urls[i]] else [])
  {
    assert urls[..i + 1] == urls[..i] + [urls[i]];
    FilterSnoc(IsBlobUrl, urls[..i], urls[i]);
  }

  /** A throwing `del` on the blob-hosted candidate at `i` ends the calls right there. */
  lemma DelCallsStop(urls: seq<string>, dels: seq<bool>, i: nat, calls: nat)
    requires i < |urls| && IsBlobUrl(urls[i])
    requires calls == |Filter(IsBlobUrl, urls[..i])|
    requires forall c :: 0 <= c < calls ==> DelOk(dels, c)
    requires !DelOk(dels, calls)
    ensures DelCalls(urls, dels) == Filter(IsBlobUrl, urls[..i + 1])
  {
    PrefixSnoc(urls, i);
    FilterPrefix(IsBlobUrl, urls, i + 1);
    FirstFailureAt(dels, calls, |Filter(IsBlobUrl, urls)|);
  }

  /** When no call throws, every blob-hosted candidate is deleted. */
  lemma DelCallsAll(urls: seq<string>, dels: seq<bool>, calls: nat)
    requires calls == |Filter(IsBlobUrl, urls[..|urls|])|
    requires forall c :: 0 <= c < calls ==> DelOk(dels, c)
    ensures DelCalls(urls, dels) == Filter(IsBlobUrl, urls[..|urls|])
  {
    assert urls[..|urls|] == urls;
    FirstFailureNone(dels, calls);
  }

  lemma FirstFailureAt(dels: seq<bool>, k: nat, n: nat)
    requires k < n && !DelOk(dels, k) && forall c :: 0 <= c < k ==> DelOk(dels, c)
    ensures FirstFailure(dels, n) == k
  {
  }

  lemma FirstFailureNone(dels: seq<bool>, n: nat)
    requires forall c :: 0 <= c < n ==> DelOk(dels, c)
    ensures FirstFailure(dels, n) == n
  {
  }
}
