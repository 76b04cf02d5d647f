/**
 * The Cloudflare Worker variant (src/index.js): PUT-only, every object
 * one-time, no password, no size limit and no expiration. The bucket is an
 * R2 binding; the deletion of a served object is handed to
 * `ctx.waitUntil` and runs after the response, so it is modelled as a
 * pending deletion that `Worker.RunPendingDeletions` carries out later.
 */
module CloudflareWorker {
  import opened Wrappers
  import opened Text
  import opened Decimal
  import opened Keys
  import opened Http

  /** The parts of `new URL(request.url)` the Worker reads; `protocol` keeps its colon (`"https:"`), `port` is "" for the default. */
  datatype Url = Url(protocol: string, hostname: string, port: string, pathname: string)

  /** `url.host`: the host name, then `:port` when the port is not the default. */
  function Host(u: Url): (h: string)
    ensures u.port == "" ==> h == u.hostname
    ensures u.port != "" ==> h == u.hostname + ":" + u.port
  {
    if u.port == "" then u.hostname else u.hostname + ":" + u.port
  }

  /** `url.origin`: scheme, `//` and host. */
  function Origin(u: Url): string {
    u.protocol + "//" + Host(u)
  }

  /** A request; `None` for a header that is absent. */
  datatype Request = Request(verb: string, url: Url, userAgent: Option<string>, contentType: Option<string>, body: Blob)

  /** An R2 object: its `httpMetadata.contentType`, custom metadata, `httpEtag` and bytes. */
  datatype Object = Object(contentType: Option<string>, customMetadata: map<string, string>, httpEtag: string, body: Blob)

  type Bucket = map<string, Object>

  /**
   * What the Worker calls but cannot be seen here: the status the ASSETS
   * binding answers for a bundled file (`None` when the fetch throws),
   * `mime.getType(name)` and `mime.getExtension(type)` (`None` for null).
   */
  datatype Bindings = Bindings(
    assetStatus: string -> Option<int>,
    mimeType: string -> Option<string>,
    mimeExtension: string -> Option<string>)

  /** Per request: the current second, the six draws, R2's error message if its call throws, and the etag R2 assigns to a put. */
  datatype Env = Env(now: int, draws: seq<nat>, storeError: Option<string>, etag: string)

  /** A response, the bucket afterwards, and the key whose deletion was handed to `waitUntil`. */
  datatype Outcome = Outcome(response: Response, bucket: Bucket, deletion: Option<string>)

  /** The content type the runtime gives a `Response` built from a string. */
  const StringBodyType := "text/plain;charset=UTF-8"

  function TextResponse(status: int, text: string): (r: Response)
    ensures r.status == status && r.body == Text(text)
  {
    Response(status, map["Content-Type" := StringBodyType], Text(text))
  }

  /** The usage text for command-line clients is not modelled word for word. */
  const UsageBanner := "bashupload.app usage"

  /** The root: `curl` in the user agent (any case) gets the usage text, anything else a 302 to the page on the same origin. */
  function RootResponse(req: Request): (r: Response)
    ensures r.status == 200 <==> Contains(ToLowerAscii(req.userAgent.GetOr("")), "curl")
    ensures r.status != 200 ==> r.status == 302 && r.headers == map["Location" := Origin(req.url) + "/index.html"]
  {
    if Contains(ToLowerAscii(req.userAgent.GetOr("")), "curl") then
      Response(200, map["Content-Type" := TextPlain], Text(UsageBanner))
    else
      Response(302, map["Location" := Origin(req.url) + "/index.html"], NoBody)
  }

  /** `pathname.substring(1)`. */
  function FileNameOf(pathname: string): (name: string)
    ensures pathname != [] ==> pathname == [pathname[0]] + name
    ensures pathname == [] ==> name == []
  {
    if pathname == [] then [] else pathname[1..]
  }

  /** A bundled file the ASSETS binding serves with status 200. */
  predicate StaticServed(b: Bindings, name: string) {
    name in {"index.html", "style.css", "upload.js"} && b.assetStatus(name) == Some(200)
  }

  /** The Content-Type of a download: by the file name alone, else octet-stream; the stored type is overridden. */
  function DownloadType(b: Bindings, name: string): (ct: string)
    ensures b.mimeType(name).Some? ==> ct == b.mimeType(name).value
    ensures b.mimeType(name).None? ==> ct == OctetStream
  {
    b.mimeType(name).GetOr(OctetStream)
  }

  /** The headers of a download: `writeHttpMetadata`, `etag`, then the type and the one-time and no-cache headers. */
  function DownloadHeaders(b: Bindings, name: string, obj: Object): (h: map<string, string>)
    ensures "Content-Type" in h && h["Content-Type"] == DownloadType(b, name)
    ensures "X-One-Time-Download" in h && h["X-One-Time-Download"] == "true"
    ensures "etag" in h && h["etag"] == obj.httpEtag
    ensures forall k | k in NoCacheHeaders :: k in h && h[k] == NoCacheHeaders[k]
  {
    var written := if obj.contentType.Some? then map["Content-Type" := obj.contentType.value] else map[];
    written["etag" := obj.httpEtag]["Content-Type" := DownloadType(b, name)]["X-One-Time-Download" := "true"]
      + NoCacheHeaders
  }

  /** The R2 branch of a GET: 404 when absent, 500 when R2 throws, else the bytes, with the key's deletion deferred. */
  function DownloadSpec(b: Bindings, bucket: Bucket, name: string, env: Env): (o: Outcome)
    ensures o.bucket == bucket
    ensures o.deletion.Some? <==> o.response.status == 200
    ensures o.response.status == 200 <==> env.storeError.None? && name in bucket
    ensures env.storeError.None? && name !in bucket ==> o.response == TextResponse(404, "File not found\n")
    ensures o.response.status == 200 ==>
              && o.deletion == Some(name)
              && o.response.body == Data(bucket[name].body)
              && o.response.headers == DownloadHeaders(b, name, bucket[name])
  {
    if env.storeError.Some? then
      Outcome(TextResponse(500, "Error: " + env.storeError.value + "\n"), bucket, None)
    else if name !in bucket then
      Outcome(TextResponse(404, "File not found\n"), bucket, None)
    else
      var obj := bucket[name];
      Outcome(Response(200, DownloadHeaders(b, name, obj), Data(obj.body)), bucket, Some(name))
  }

  /** The content type of a PUT: the header, or octet-stream when it is absent or empty. */
  function PutContentType(req: Request): (ct: string)
    ensures ct != ""
    ensures req.contentType.Some? && req.contentType.value != "" ==> ct == req.contentType.value
  {
    if req.contentType.Some? && req.contentType.value != "" then req.contentType.value else OctetStream
  }

  /** The key's extension: `.` and `mime.getExtension`, or nothing when that is null or empty. */
  function Extension(b: Bindings, contentType: string): (ext: string)
    ensures ext == "" || (|ext| >= 2 && ext[0] == '.' && Some(ext[1..]) == b.mimeExtension(contentType))
    ensures ext == "" <==> b.mimeExtension(contentType).None? || b.mimeExtension(contentType).value == ""
  {
    match b.mimeExtension(contentType)
    case Some(e) => if e != "" then "." + e else ""
    case None => ""
  }

  function PutKey(b: Bindings, req: Request, draws: seq<nat>): (key: string)
    requires ValidDraws(draws)
    ensures |key| >= TokenLength && key[..TokenLength] == Token(draws) && IsToken(key[..TokenLength])
    ensures key == Token(draws) + Extension(b, PutContentType(req))
  {
    var key := Token(draws) + Extension(b, PutContentType(req));
    assert key[..TokenLength] == Token(draws);
    key
  }

  /** The object a PUT stores: its type, `oneTime: 'true'` and the upload time (as decimal seconds; ISO 8601 text is not modelled). */
  function PutObject(b: Bindings, req: Request, env: Env): (obj: Object)
    ensures "oneTime" in obj.customMetadata && obj.customMetadata["oneTime"] == "true" && obj.body == req.body
    ensures obj.contentType == Some(PutContentType(req))
  {
    Object(Some(PutContentType(req)), map["oneTime" := "true", "uploadTime" := FormatInt(env.now)], env.etag, req.body)
  }

  /**
   * The link as written: `protocol//hostname/key`. `hostname` has no port,
   * so behind a non-default port the link names another origin.
   */
  function FileUrlAsWritten(u: Url, key: string): string {
    u.protocol + "//" + u.hostname + "/" + key
  }

  /** The link as the redirect already forms addresses: on the request's own origin. */
  function FileUrl(u: Url, key: string): (link: string)
    ensures link == Origin(u) + "/" + key
    ensures u.port == "" ==> link == FileUrlAsWritten(u, key)
  {
    Origin(u) + "/" + key
  }

  /** A request to `http://localhost:8787/` gets a link to `http://localhost/…`, which is not where the object is. */
  lemma LinkDropsPort(key: string)
    ensures var u := Url("http:", "localhost", "8787", "/");
            && FileUrlAsWritten(u, key) == "http://localhost/" + key
            && FileUrl(u, key) == "http://localhost:8787/" + key
            && !StartsWith(FileUrlAsWritten(u, key), Origin(u) + "/")
  {
    var u := Url("http:", "localhost", "8787", "/");
    assert Origin(u) + "/" == "http://localhost:8787/";
    if |FileUrlAsWritten(u, key)| >= 22 {
      assert FileUrlAsWritten(u, key)[16] == '/';
      assert "http://localhost:8787/"[16] == ':';
    }
  }

  /** The one-time notice under the link, without its final line feed. */
  function OneTimeNotice(): (notice: string)
    ensures notice != [] && !IsSpace(notice[0]) && !IsSpace(notice[|notice| - 1])
  {
    var sign := "⚠️";
    var notice := sign + "  注意：此文件只能下载一次，下载后将自动删除！\n   Note: This file can only be downloaded once" + "!";
    assert notice[0] == sign[0];
    notice
  }

  /**
   * The body of a successful PUT: the link, a blank line, the one-time
   * notice and a line feed. Trimmed, it keeps the link as its whole first line.
   */
  function PutResponseText(link: string): (text: string)
    ensures StartsWith(text, link + "\n\n")
    ensures link != [] && !IsSpace(link[0]) ==> Trim(text) == link + "\n\n" + OneTimeNotice()
    ensures link != [] && !IsSpace(link[0]) && '\n' !in link ==> FirstLine(Trim(text)) == link
  {
    var notice := OneTimeNotice();
    var text := link + "\n\n" + notice + "\n";
    assert text[..|link + "\n\n"|] == link + "\n\n";
    LinkThenNotice(link, notice);
    FirstLineBeforeBlank(link, notice);
    text
  }

  /** Trimming the link, a blank line, a notice and a line feed leaves the link and the notice. */
  lemma LinkThenNotice(link: string, notice: string)
    requires notice != [] && !IsSpace(notice[|notice| - 1])
    ensures link != [] && !IsSpace(link[0]) ==> Trim(link + "\n\n" + notice + "\n") == link + "\n\n" + notice
  {
    if link != [] && !IsSpace(link[0]) {
      var body := link + "\n\n" + notice;
      assert link + "\n\n" + notice + "\n" == "" + body + "\n";
      TrimPadded("", body, "\n");
    }
  }

  /** The PUT branch: store under a fresh key and answer with the link, or 500 when R2 throws. */
  function PutSpec(b: Bindings, bucket: Bucket, req: Request, env: Env): (o: Outcome)
    requires ValidDraws(env.draws)
    ensures o.deletion.None?
    ensures env.storeError.Some? ==> o.response.status == 500 && o.bucket == bucket
    ensures env.storeError.None? ==>
              && o.response.status == 200
              && o.response.headers == map["Content-Type" := TextPlain, "X-One-Time-Upload" := "true"]
              && o.bucket == bucket[PutKey(b, req, env.draws) := PutObject(b, req, env)]
              && o.response.body == Text(PutResponseText(FileUrl(req.url, PutKey(b, req, env.draws))))
  {
    if env.storeError.Some? then
      Outcome(Response(500, map["Content-Type" := "text/plain"], Text("Upload failed: " + env.storeError.value + "\n")), bucket, None)
    else
      var key := PutKey(b, req, env.draws);
      var headers := map["Content-Type" := TextPlain, "X-One-Time-Upload" := "true"];
      Outcome(Response(200, headers, Text(PutResponseText(FileUrl(req.url, key)))), bucket[key := PutObject(b, req, env)], None)
  }

  /** `fetch`: the root, bundled files, R2 downloads, PUT uploads, and 405 for everything else. */
  function FetchSpec(b: Bindings, bucket: Bucket, req: Request, env: Env): (o: Outcome)
    requires ValidDraws(env.draws)
    ensures req.verb != "GET" && req.verb != "PUT" ==> o == Outcome(TextResponse(405, "Method Not Allowed\n"), bucket, None)
    ensures req.verb == "GET" ==> o.bucket == bucket
    ensures o.deletion.Some? ==> req.verb == "GET" && o.response.status == 200 && o.deletion == Some(FileNameOf(req.url.pathname))
    ensures o.bucket != bucket ==> req.verb == "PUT" && o.response.status == 200
  {
    var pathname := req.url.pathname;
    var name := FileNameOf(pathname);
    if req.verb == "GET" && (pathname == "/" || pathname == "") then
      Outcome(RootResponse(req), bucket, None)
    else if req.verb == "GET" && StaticServed(b, name) then
      Outcome(Response(200, map[], Asset(name)), bucket, None)
    else if req.verb == "GET" && name != "" then
      DownloadSpec(b, bucket, name, env)
    else if req.verb != "PUT" then
      Outcome(TextResponse(405, "Method Not Allowed\n"), bucket, None)
    else
      PutSpec(b, bucket, req, env)
  }

  /** The keys a run of the deferred deletions removes: those scheduled whose delete did not fail. */
  function Removed(scheduled: seq<string>, failed: set<string>): (keys: set<string>)
    ensures forall k :: k in keys <==> k in scheduled && k !in failed
  {
    set k | k in scheduled && k !in failed
  }

  /** `generateRandomId`: appends one drawn character six times. */
  method GenerateRandomId(draws: seq<nat>) returns (result: string)
    requires ValidDraws(draws)
    ensures result == Token(draws)
  {
    result := "";
    for i := 0 to TokenLength
      invariant result == Token(draws)[..i]
    {
      result := result + [Chars[draws[i]]];
    }
  }

  class Worker {
    const bindings: Bindings
    var bucket: Bucket
    /** Deletions handed to `ctx.waitUntil` that have not run yet, oldest first. */
    var pending: seq<string>

    constructor (bindings: Bindings)
      ensures this.bindings == bindings && bucket == map[] && pending == []
    {
      this.bindings := bindings;
      bucket := map[];
      pending := [];
    }

    method Fetch(req: Request, env: Env) returns (resp: Response)
      requires ValidDraws(env.draws)
      modifies this
      ensures var o := FetchSpec(bindings, old(bucket), req, env);
              resp == o.response && bucket == o.bucket
              && pending == old(pending) + (if o.deletion.Some? then [o.deletion.value] else [])
    {
      var pathname := req.url.pathname;
      if req.verb == "GET" {
        if pathname == "/" || pathname == "" {
          return RootResponse(req);
        }
        var fileName := FileNameOf(pathname);
        if StaticServed(bindings, fileName) {
          return Response(200, map[], Asset(fileName));
        }
        if fileName != "" {
          if env.storeError.Some? {
            return TextResponse(500, "Error: " + env.storeError.value + "\n");
          }
          if fileName !in bucket {
            return TextResponse(404, "File not found\n");
          }
          var obj := bucket[fileName];
          pending := pending + [fileName];
          return Response(200, DownloadHeaders(bindings, fileName, obj), Data(obj.body));
        }
      }
      if req.verb != "PUT" {
        return TextResponse(405, "Method Not Allowed\n");
      }
      var randomId := GenerateRandomId(env.draws);
      var contentType := PutContentType(req);
      var fileName := randomId + Extension(bindings, contentType);
      if env.storeError.Some? {
        return Response(500, map["Content-Type" := "text/plain"], Text("Upload failed: " + env.storeError.value + "\n"));
      }
      bucket := bucket[fileName := PutObject(bindings, req, env)];
      var link := FileUrl(req.url, fileName);
      resp := Response(200, map["Content-Type" := TextPlain, "X-One-Time-Upload" := "true"], Text(PutResponseText(link)));
    }

    /** The deferred deletions run; a delete that fails is only logged, so its object stays. */
    method RunPendingDeletions(failed: set<string>)
      modifies this
      ensures bucket == old(bucket) - Removed(old(pending), failed)
      ensures pending == []
    {
      var i := 0;
      while i < |pending|
        invariant 0 <= i <= |pending|
        invariant pending == old(pending)
        invariant bucket == old(bucket) - Removed(pending[..i], failed)
      {
        if pending[i] !in failed {
          bucket := bucket - {pending[i]};
        }
        assert pending[..i + 1] == pending[..i] + [pending[i]];
        i := i + 1;
      }
      assert pending[..i] == pending;
      pending := [];
    }
  }
}
