/**
 * The image worker of r2-worker/src/index.js: CORS preflight, download of an
 * object by key, upload of the first file of a multipart form, and 404 for
 * everything else. The R2 bucket is a `Bucket` object holding a map from key
 * to stored object; `Handle` is the same dispatch as a function of the
 * bucket's contents, and `Fetch` is proved to behave as it says.
 */
module Worker {
  import opened Wrappers
  import opened Text
  import opened Uri

  /** An object in the bucket: its bytes and the `httpMetadata.contentType` it was stored with, if any. */
  datatype StoredObject = StoredObject(body: seq<Byte>, contentType: Option<string>)

  /** A `File` form value: its file name, its media type (`""` when unknown) and its bytes. */
  datatype File = File(name: string, mediaType: string, bytes: seq<Byte>)

  datatype FormValue = TextValue(text: string) | FileValue(file: File)

  datatype FormEntry = FormEntry(name: string, value: FormValue)

  /** `await request.formData()`: the entries in order, or the message it rejects with. */
  datatype FormData = Parsed(entries: seq<FormEntry>) | Unparsable(message: string)

  /** The parts of a request the worker reads; `pathname` is the URL's path, which starts with `/`. */
  datatype Request = Request(httpMethod: string, pathname: string, form: FormData)

  datatype Body =
    | NoBody
    | PlainText(text: string)
    | Bytes(bytes: seq<Byte>)
    | JsonError(error: string)
    | JsonUpload(url: string, message: string)

  datatype Response = Response(status: int, headers: seq<(string, string)>, body: Body)

  const CorsHeaders: seq<(string, string)> := [
    ("Access-Control-Allow-Origin", "*"),
    ("Access-Control-Allow-Methods", "GET, POST, OPTIONS"),
    ("Access-Control-Allow-Headers", "Content-Type")
  ]
  const JsonHeaders := CorsHeaders + [("Content-Type", "application/json")]
  const OctetStream := "application/octet-stream"
  const UploadPath := "/upload"
  const ImageOrigin := "https://cut-images-worker.cutproject.workers.dev"
  const NoFileMessage := "No file found in form data."
  const UploadReceived := "Upload received."
  /** The TypeError `env["cut-images-worker"].put(…)` throws when the binding is missing. */
  const MissingBindingOnPut := "Cannot read properties of undefined (reading 'put')"

  // -------------------------------------------------------------- dispatch

  datatype Route = Preflight | Download | Upload | NoRoute

  /** The order of the handler's tests: OPTIONS on any path, GET off `/upload`, POST on `/upload`, else nothing. */
  function RouteOf(httpMethod: string, pathname: string): (r: Route)
    ensures r == Preflight <==> httpMethod == "OPTIONS"
    ensures r == Download <==> httpMethod == "GET" && pathname != UploadPath
    ensures r == Upload <==> httpMethod == "POST" && pathname == UploadPath
  {
    if httpMethod == "OPTIONS" then Preflight
    else if httpMethod == "GET" && pathname != UploadPath then Download
    else if httpMethod == "POST" && pathname == UploadPath then Upload
    else NoRoute
  }

  /** `url.pathname.slice(1)`: the path without its first character. */
  function KeyOf(pathname: string): (key: string)
    ensures |pathname| > 0 ==> pathname == pathname[..1] + key
    ensures |pathname| == 0 ==> key == ""
  {
    if |pathname| == 0 then "" else pathname[1..]
  }

  /** `object.httpMetadata?.contentType || "application/octet-stream"`. */
  function ContentTypeOf(stored: Option<string>): (t: string)
    ensures t != ""
    ensures stored.Some? && stored.value != "" ==> t == stored.value
    ensures stored.None? || stored.value == "" ==> t == OctetStream
  {
    if stored.Some? && stored.value != "" then stored.value else OctetStream
  }

  /** The GET branch after the key has been taken from the path; `store` is None when the binding is missing. */
  function DownloadReply(key: string, store: Option<map<string, StoredObject>>): (r: Response)
    ensures key == "" ==> r == Response(400, CorsHeaders, PlainText("Missing key"))
    ensures key != "" && store.None? ==> r == Response(500, CorsHeaders, PlainText("R2 binding missing"))
    ensures key != "" && store.Some? && key !in store.value ==> r == Response(404, CorsHeaders, PlainText("Not found"))
    ensures r.status == 200 <==> key != "" && store.Some? && key in store.value
    ensures r.status == 200 ==>
      r.body == Bytes(store.value[key].body)
      && r.headers == CorsHeaders + [("Content-Type", ContentTypeOf(store.value[key].contentType))]
  {
    if key == "" then Response(400, CorsHeaders, PlainText("Missing key"))
    else if store.None? then Response(500, CorsHeaders, PlainText("R2 binding missing"))
    else if key !in store.value then Response(404, CorsHeaders, PlainText("Not found"))
    else
      var obj := store.value[key];
      Response(200, CorsHeaders + [("Content-Type", ContentTypeOf(obj.contentType))], Bytes(obj.body))
  }

  /** The position of the first entry whose value is a File, if any. */
  function FirstFileIndex(entries: seq<FormEntry>): (r: Option<nat>)
    ensures r.None? <==> forall i :: 0 <= i < |entries| ==> !entries[i].value.FileValue?
    ensures r.Some? ==>
      r.value < |entries| && entries[r.value].value.FileValue?
      && forall i :: 0 <= i < r.value ==> !entries[i].value.FileValue?
    decreases |entries|
  {
    if entries == [] then None
    else if entries[0].value.FileValue? then Some(0)
    else
      match FirstFileIndex(entries[1..])
      case None => None
      case Some(i) => Some(i + 1)
  }

  /** `${timestamp}-${file.name}`, `timestamp` being `Date.now()`. */
  function UploadKey(timestamp: nat, fileName: string): string
  {
    NatText(timestamp) + "-" + fileName
  }

  function ImageUrl(key: string): string
  {
    ImageOrigin + "/" + key
  }

  /** The response and the new bucket contents of a request; `store` is None when the binding is missing. */
  datatype Outcome = Outcome(response: Response, store: Option<map<string, StoredObject>>)

  /** The whole handler as a function of the bucket's contents and the clock. */
  function Handle(req: Request, store: Option<map<string, StoredObject>>, now: nat): (o: Outcome)
    ensures o.store.None? <==> store.None?
    ensures o.store != store ==> RouteOf(req.httpMethod, req.pathname) == Upload && o.response.status == 200
  {
    match RouteOf(req.httpMethod, req.pathname)
    case Preflight => Outcome(Response(204, CorsHeaders, NoBody), store)
    case Download => Outcome(DownloadReply(KeyOf(req.pathname), store), store)
    case NoRoute => Outcome(Response(404, CorsHeaders, PlainText("Not found")), store)
    case Upload =>
      match req.form
      case Unparsable(message) => Outcome(Response(500, JsonHeaders, JsonError(message)), store)
      case Parsed(entries) =>
        match FirstFileIndex(entries)
        case None => Outcome(Response(400, JsonHeaders, JsonError(NoFileMessage)), store)
        case Some(i) =>
          var file := entries[i].value.file;
          var key := UploadKey(now, file.name);
          if store.None? then Outcome(Response(500, JsonHeaders, JsonError(MissingBindingOnPut)), store)
          else
            Outcome(Response(200, JsonHeaders, JsonUpload(ImageUrl(key), UploadReceived)),
                    Some(store.value[key := StoredObject(file.bytes, Some(file.mediaType))]))
  }

  // ---------------------------------------------------------------- bucket

  /** The R2 bucket binding: a mutable map from key to stored object. */
  class Bucket {
    var objects: map<string, StoredObject>

    constructor(initial: map<string, StoredObject>)
      ensures objects == initial
    {
      objects := initial;
    }

    /** `bucket.get(key)`: the object, or null. */
    method Get(key: string) returns (obj: Option<StoredObject>)
      ensures key in objects <==> obj.Some?
      ensures obj.Some? ==> obj.value == objects[key]
    {
      if key in objects {
        obj := Some(objects[key]);
      } else {
        obj := None;
      }
    }

    /** `bucket.put(key, body, {httpMetadata})`: stores the object under the key, replacing any earlier one. */
    method Put(key: string, obj: StoredObject)
      modifies this
      ensures objects == old(objects)[key := obj]
    {
      objects := objects[key := obj];
    }
  }

  /** The `for…of` loop with `break`: the first File entry and its field name. */
  method FirstFile(entries: seq<FormEntry>) returns (file: Option<File>, fieldName: Option<string>)
    ensures file.None? <==> forall i :: 0 <= i < |entries| ==> !entries[i].value.FileValue?
    ensures file.Some? ==>
      exists i :: (0 <= i < |entries| && entries[i].value == FileValue(file.value)
        && fieldName == Some(entries[i].name) && forall j :: 0 <= j < i ==> !entries[j].value.FileValue?)
    ensures file == (if FirstFileIndex(entries).Some? then Some(entries[FirstFileIndex(entries).value].value.file) else None)
  {
    file, fieldName := None, None;
    var k := 0;
    while k < |entries|
      invariant 0 <= k <= |entries|
      invariant forall j :: 0 <= j < k ==> !entries[j].value.FileValue?
    {
      if entries[k].value.FileValue? {
        file, fieldName := Some(entries[k].value.file), Some(entries[k].name);
        assert FirstFileIndex(entries) == Some(k) by {
          FirstFileIndexIs(entries, k);
        }
        return;
      }
      k := k + 1;
    }
  }

  /** The worker's `fetch`: the bucket is null when the binding is missing. */
  method Fetch(req: Request, bucket: Bucket?, now: nat) returns (resp: Response)
    modifies bucket
    ensures bucket == null ==> resp == Handle(req, None, now).response
    ensures bucket != null ==>
      var o := Handle(req, Some(old(bucket.objects)), now);
      resp == o.response && bucket.objects == o.store.value
  {
    ghost var store := if bucket == null then None else Some(bucket.objects);
    var route := RouteOf(req.httpMethod, req.pathname);
    if route == Preflight {
      return Response(204, CorsHeaders, NoBody);
    }
    if route == Download {
      var key := KeyOf(req.pathname);
      if key == "" {
        return Response(400, CorsHeaders, PlainText("Missing key"));
      }
      if bucket == null {
        return Response(500, CorsHeaders, PlainText("R2 binding missing"));
      }
      var obj := bucket.Get(key);
      if obj.None? {
        return Response(404, CorsHeaders, PlainText("Not found"));
      }
      var contentType := ContentTypeOf(obj.value.contentType);
      return Response(200, CorsHeaders + [("Content-Type", contentType)], Bytes(obj.value.body));
    }
    if route == Upload {
      if req.form.Unparsable? {
        return Response(500, JsonHeaders, JsonError(req.form.message));
      }
      var file, fieldName := FirstFile(req.form.entries);
      if file.None? {
        return Response(400, JsonHeaders, JsonError(NoFileMessage));
      }
      var key := UploadKey(now, file.value.name);
      if bucket == null {
        return Response(500, JsonHeaders, JsonError(MissingBindingOnPut));
      }
      bucket.Put(key, StoredObject(file.value.bytes, Some(file.value.mediaType)));
      var imageUrl := ImageUrl(key);
      return Response(200, JsonHeaders, JsonUpload(imageUrl, UploadReceived));
    }
    return Response(404, CorsHeaders, PlainText("Not found"));
  }

  // ------------------------------------------------------------------ lemmas

  lemma {:induction false} FirstFileIndexIs(entries: seq<FormEntry>, k: nat)
    requires k < |entries| && entries[k].value.FileValue?
    requires forall j :: 0 <= j < k ==> !entries[j].value.FileValue?
    ensures FirstFileIndex(entries) == Some(k)
    decreases k
  {
    if k > 0 {
      FirstFileIndexIs(entries[1..], k - 1);
    }
  }

  /** A preflight answers 204 with the CORS headers on any path and leaves the bucket as it was. */
  lemma PreflightTouchesNothing(req: Request, store: Option<map<string, StoredObject>>, now: nat)
    requires req.httpMethod == "OPTIONS"
    ensures Handle(req, store, now) == Outcome(Response(204, CorsHeaders, NoBody), store)
  {
  }

  /** A GET of `/` has no key: 400 before the binding is looked at, whatever the bucket holds. */
  lemma EmptyKeyRejected(req: Request, store: Option<map<string, StoredObject>>, now: nat)
    requires req.httpMethod == "GET" && req.pathname == "/"
    ensures Handle(req, store, now) == Outcome(Response(400, CorsHeaders, PlainText("Missing key")), store)
  {
    assert req.pathname != UploadPath;
  }

  /** Every method and path the worker does not serve gets 404 and changes nothing, GET /upload and POST elsewhere included. */
  lemma OtherRoutesNotFound(req: Request, store: Option<map<string, StoredObject>>, now: nat)
    requires req.httpMethod != "OPTIONS"
    requires req.httpMethod == "GET" ==> req.pathname == UploadPath
    requires req.httpMethod == "POST" ==> req.pathname != UploadPath
    ensures Handle(req, store, now) == Outcome(Response(404, CorsHeaders, PlainText("Not found")), store)
  {
  }

  /** A form without a File gets 400 and leaves the bucket as it was. */
  lemma NoFileNoWrite(req: Request, store: Option<map<string, StoredObject>>, now: nat)
    requires RouteOf(req.httpMethod, req.pathname) == Upload
    requires req.form.Parsed? && forall i :: 0 <= i < |req.form.entries| ==> !req.form.entries[i].value.FileValue?
    ensures Handle(req, store, now) == Outcome(Response(400, JsonHeaders, JsonError(NoFileMessage)), store)
  {
  }

  /**
   * A successful upload writes exactly one key, `${now}-${name}` of the first
   * File, with that file's bytes and type; every other key keeps its object.
   */
  lemma UploadWritesOneKey(req: Request, store: map<string, StoredObject>, now: nat, i: nat)
    requires RouteOf(req.httpMethod, req.pathname) == Upload
    requires req.form.Parsed? && i < |req.form.entries| && req.form.entries[i].value.FileValue?
    requires forall j :: 0 <= j < i ==> !req.form.entries[j].value.FileValue?
    ensures var file := req.form.entries[i].value.file;
      var key := UploadKey(now, file.name);
      var o := Handle(req, Some(store), now);
      && o.response == Response(200, JsonHeaders, JsonUpload(ImageUrl(key), UploadReceived))
      && o.store.Some?
      && o.store.value.Keys == store.Keys + {key}
      && o.store.value[key] == StoredObject(file.bytes, Some(file.mediaType))
      && forall k :: k in store && k != key ==> o.store.value[k] == store[k]
  {
    FirstFileIndexIs(req.form.entries, i);
  }

  /** Upload keys are never the upload path, so the path of an image URL is always served by the download branch. */
  lemma UploadKeyIsNotUploadPath(now: nat, fileName: string)
    ensures "/" + UploadKey(now, fileName) != UploadPath
    ensures UploadKey(now, fileName) != ""
  {
    var key := UploadKey(now, fileName);
    assert IsDigit(key[0]);
    assert ("/" + key)[1] == key[0];
    assert UploadPath[1] == 'u';
  }

  /** The path of the returned image URL is `/` and the key. */
  lemma ImageUrlPath(key: string)
    ensures ImageUrl(key) == ImageOrigin + ("/" + key)
    ensures KeyOf("/" + key) == key
  {
  }

  /**
   * Round trip: after an upload, a GET of the returned URL's path answers
   * 200 with the uploaded bytes and the file's type (or
   * `application/octet-stream` when the type is empty).
   */
  lemma UploadThenDownload(req: Request, store: map<string, StoredObject>, now: nat, i: nat, later: nat)
    requires RouteOf(req.httpMethod, req.pathname) == Upload
    requires req.form.Parsed? && i < |req.form.entries| && req.form.entries[i].value.FileValue?
    requires forall j :: 0 <= j < i ==> !req.form.entries[j].value.FileValue?
    ensures var file := req.form.entries[i].value.file;
      var key := UploadKey(now, file.name);
      var stored := Handle(req, Some(store), now).store;
      var get := Request("GET", "/" + key, Parsed([]));
      Handle(get, stored, later).response
        == Response(200, CorsHeaders + [("Content-Type", ContentTypeOf(Some(file.mediaType)))], Bytes(file.bytes))
  {
    var file := req.form.entries[i].value.file;
    var key := UploadKey(now, file.name);
    UploadWritesOneKey(req, store, now, i);
    UploadKeyIsNotUploadPath(now, file.name);
    ImageUrlPath(key);
  }

  /** Distinct timestamps or file names give distinct keys: the timestamp ends at the first `-`. */
  lemma UploadKeyInjective(t1: nat, n1: string, t2: nat, n2: string)
    requires UploadKey(t1, n1) == UploadKey(t2, n2)
    ensures t1 == t2 && n1 == n2
  {
    var d1, d2 := NatText(t1), NatText(t2);
    assert '-' !in d1 by {
      assert forall i :: 0 <= i < |d1| ==> d1[i] != '-';
    }
    assert '-' !in d2 by {
      assert forall i :: 0 <= i < |d2| ==> d2[i] != '-';
    }
    IndexOfAfter(d1, '-', n1);
    IndexOfAfter(d2, '-', n2);
    assert UploadKey(t1, n1) == d1 + ['-'] + n1;
    assert UploadKey(t2, n2) == d2 + ['-'] + n2;
    assert |d1| == |d2|;
    var k := UploadKey(t1, n1);
    assert d1 == k[..|d1|] && d2 == k[..|d2|];
    NatTextInjective(t1, t2);
    assert n1 == k[|d1| + 1..] && n2 == k[|d2| + 1..];
  }
}
