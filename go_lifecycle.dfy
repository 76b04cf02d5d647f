/**
 * The life of one upload in the Go gateway, across several requests: a
 * one-time object is served once and then gone, an expiring object is
 * served until its instant and then gone, the sweeper's decision for each
 * kind, and a request that fails the password check changes nothing.
 */
module GoLifecycle {
  import opened Wrappers
  import opened Text
  import opened Keys
  import opened Http
  import opened GoGateway

  /** The request passes the password check, or no password is configured. */
  predicate Authorized(cfg: Config, req: Request) {
    cfg.password == "" || CheckPassword(cfg.password, cfg.base64Decode, req.authorization)
  }

  /**
   * An upload the gateway stores: PUT or POST, authorized, within the size
   * limit, of a type the MIME library knows (or a POST), and the put succeeds.
   */
  predicate Accepted(cfg: Config, up: Request, env: Env) {
    && ValidDraws(env.draws)
    && (up.verb == "PUT" || up.verb == "POST")
    && Authorized(cfg, up)
    && up.contentLength <= cfg.maxUploadSize
    && UploadExtension(cfg, up).Some?
    && env.storeError.None?
  }

  /** An authorized GET of `/key`. */
  predicate FetchOf(cfg: Config, get: Request, key: string) {
    get.verb == "GET" && get.path == "/" + key && Authorized(cfg, get)
  }

  /** A GET only removes objects: what is left is part of what was there. */
  lemma GetOnlyRemoves(cfg: Config, bucket: Bucket, req: Request, env: Env)
    requires ValidDraws(env.draws) && req.verb == "GET"
    ensures var s := RequestSpec(cfg, bucket, req, env);
            s.bucket.Keys <= bucket.Keys && forall k | k in s.bucket :: s.bucket[k] == bucket[k]
  {
    var s := RequestSpec(cfg, bucket, req, env);
    assert s.bucket == bucket || s.bucket == bucket - {TrimPrefix(req.path, "/")};
  }

  /**
   * No way back: the only object a request adds or replaces is the one an
   * accepted upload stores under its key.
   */
  lemma OnlyUploadWrites(cfg: Config, bucket: Bucket, req: Request, env: Env)
    requires ValidDraws(env.draws)
    ensures var s := RequestSpec(cfg, bucket, req, env);
            forall k | k in s.bucket && (k !in bucket || s.bucket[k] != bucket[k]) ::
              Accepted(cfg, req, env) && k == UploadKey(cfg, req, env.draws) && s.bucket[k] == NewObject(req, env)
  {
    var s := RequestSpec(cfg, bucket, req, env);
    if req.verb == "GET" {
      GetOnlyRemoves(cfg, bucket, req, env);
    } else if s.bucket != bucket {
      assert s == UploadSpec(cfg, bucket, req, env, false);
      assert s.bucket == bucket[UploadKey(cfg, req, env.draws) := NewObject(req, env)];
    }
  }

  /** Storing under a key and then deleting it leaves the bucket without that key. */
  lemma StoreThenDelete(bucket: Bucket, key: string, obj: StoredObject)
    ensures bucket[key := obj] - {key} == bucket - {key}
  {
  }

  /** The path `/key` names the object `key`. */
  lemma PathNamesKey(key: string)
    ensures TrimPrefix("/" + key, "/") == key
  {
    assert StartsWith("/" + key, "/");
  }

  /** An accepted upload answers 200 and stores its object under its key, overwriting nothing else. */
  lemma AcceptedUploadStores(cfg: Config, bucket: Bucket, up: Request, env: Env)
    requires Accepted(cfg, up, env)
    ensures Answers(RequestSpec(cfg, bucket, up, env), 200)
    ensures RequestSpec(cfg, bucket, up, env).bucket == bucket[UploadKey(cfg, up, env.draws) := NewObject(up, env)]
  {
  }

  /**
   * An authorized PUT within the size limit whose type the MIME library
   * does not know makes the handler panic: no answer, nothing stored.
   */
  lemma UnknownTypeDropped(cfg: Config, bucket: Bucket, up: Request, env: Env)
    requires ValidDraws(env.draws) && up.verb == "PUT" && Authorized(cfg, up)
    requires up.contentLength <= cfg.maxUploadSize
    requires cfg.extensionFor(StoredContentType(up)).None?
    ensures RequestSpec(cfg, bucket, up, env) == Dropped(bucket)
    ensures ShortSpec(cfg, bucket, up, env) == Dropped(bucket)
  {
  }

  /** An authorized GET of a key that is not a bundled file is a download of that key. */
  lemma FetchIsDownload(cfg: Config, bucket: Bucket, get: Request, key: string, env: Env)
    requires FetchOf(cfg, get, key) && key != "" && key !in StaticFiles && ValidDraws(env.draws)
    ensures RequestSpec(cfg, bucket, get, env) == DownloadSpec(cfg, bucket, key, env)
  {
    PathNamesKey(key);
  }

  /** Through the ServeMux too, an authorized GET of a stored object's key is its download. */
  lemma ServedFetchIsDownload(cfg: Config, bucket: Bucket, get: Request, key: string, env: Env)
    requires FetchOf(cfg, get, key) && key !in StaticFiles && ValidDraws(env.draws)
    requires |key| >= TokenLength && IsToken(key[..TokenLength])
    ensures ServeSpec(cfg, bucket, get, env) == DownloadSpec(cfg, bucket, key, env)
  {
    KeyPathRoutesToRequest(key);
    FetchIsDownload(cfg, bucket, get, key, env);
  }

  /**
   * Without `X-Expiration-Seconds` an upload is one-time: the first GET
   * returns its bytes with `X-One-Time-Download: true` and deletes it, so
   * the bucket is back to where it was before the upload.
   */
  lemma OneTimeUploadServedOnce(cfg: Config, bucket: Bucket, up: Request, env: Env, get: Request, env1: Env)
    requires Accepted(cfg, up, env) && RequestedExpiration(up.expirationSeconds).None?
    requires FetchOf(cfg, get, UploadKey(cfg, up, env.draws)) && UploadKey(cfg, up, env.draws) !in StaticFiles
    requires ValidDraws(env1.draws) && env1.storeError.None?
    ensures var s0 := RequestSpec(cfg, bucket, up, env);
            var s1 := RequestSpec(cfg, s0.bucket, get, env1);
            && Answers(s0, 200)
            && s1.response == Response(200, s1.response.headers, Data(up.body))
            && "X-One-Time-Download" in s1.response.headers
            && s1.response.headers["X-One-Time-Download"] == "true"
            && s1.bucket == bucket - {UploadKey(cfg, up, env.draws)}
  {
    var key := UploadKey(cfg, up, env.draws);
    AcceptedUploadStores(cfg, bucket, up, env);
    var s0 := RequestSpec(cfg, bucket, up, env);
    assert s0.bucket[key] == NewObject(up, env);
    assert IsOneTime(s0.bucket[key].metadata);
    FetchIsDownload(cfg, s0.bucket, get, key, env1);
    StoreThenDelete(bucket, key, NewObject(up, env));
  }

  /** Once a one-time object has been served, any later GET of it answers 404 and changes nothing. */
  lemma OneTimeUploadGoneAfterServed(cfg: Config, bucket: Bucket, up: Request, env: Env, get: Request, env1: Env, env2: Env)
    requires Accepted(cfg, up, env) && RequestedExpiration(up.expirationSeconds).None?
    requires FetchOf(cfg, get, UploadKey(cfg, up, env.draws)) && UploadKey(cfg, up, env.draws) !in StaticFiles
    requires ValidDraws(env1.draws) && ValidDraws(env2.draws) && env1.storeError.None?
    ensures var s0 := RequestSpec(cfg, bucket, up, env);
            var s1 := RequestSpec(cfg, s0.bucket, get, env1);
            var s2 := RequestSpec(cfg, s1.bucket, get, env2);
            s2.response.status == 404 && s2.bucket == s1.bucket
  {
    var key := UploadKey(cfg, up, env.draws);
    OneTimeUploadServedOnce(cfg, bucket, up, env, get, env1);
    var s1 := RequestSpec(cfg, RequestSpec(cfg, bucket, up, env).bucket, get, env1);
    assert key !in s1.bucket;
    FetchIsDownload(cfg, s1.bucket, get, key, env2);
  }

  /** The object an expiring upload stores: not one-time, and its `Expirationtime` reads back as upload time + s. */
  lemma ExpiringObject(up: Request, env: Env)
    requires RequestedExpiration(up.expirationSeconds).Some?
    requires Decimal.IsInt64(env.now + RequestedExpiration(up.expirationSeconds).value)
    ensures var md := NewObject(up, env).metadata;
            var expiry := env.now + RequestedExpiration(up.expirationSeconds).value;
            && !IsOneTime(md)
            && ExpirationtimeKey in md && md[ExpirationtimeKey] == FormatTime(expiry)
            && ParseTime(md[ExpirationtimeKey]) == Some(expiry)
  {
    var seconds := RequestedExpiration(up.expirationSeconds).value;
    var md := UploadMetadata(env.now, Some(seconds));
    assert NewObject(up, env).metadata == md;
    assert ExpirationTime(env.now, seconds) == env.now + seconds;
    assert md[OnetimeKey] != "true";
  }

  /** Below the nanosecond wrap-around the stored expiry is also the one the code as written computes. */
  lemma ExpiringObjectAsWritten(up: Request, env: Env)
    requires RequestedExpiration(up.expirationSeconds).Some?
    requires RequestedExpiration(up.expirationSeconds).value * NanosPerSecond <= Decimal.Int64Max
    ensures var md := NewObject(up, env).metadata;
            ExpirationtimeKey in md
            && md[ExpirationtimeKey] == FormatTime(ExpirationTimeAsWritten(env.now, RequestedExpiration(up.expirationSeconds).value))
  {
    var seconds := RequestedExpiration(up.expirationSeconds).value;
    AsWrittenAgreesWithoutOverflow(env.now, seconds);
  }

  /**
   * With `X-Expiration-Seconds: s` the object stays: a GET at or before
   * upload time + s returns its bytes, names the expiry in
   * `X-Expiration-Time` and leaves the bucket as it is.
   */
  lemma ExpiringUploadServedUntilExpiry(cfg: Config, bucket: Bucket, up: Request, env: Env, get: Request, env1: Env)
    requires Accepted(cfg, up, env) && RequestedExpiration(up.expirationSeconds).Some?
    requires Decimal.IsInt64(env.now + RequestedExpiration(up.expirationSeconds).value)
    requires FetchOf(cfg, get, UploadKey(cfg, up, env.draws)) && UploadKey(cfg, up, env.draws) !in StaticFiles
    requires ValidDraws(env1.draws) && env1.storeError.None?
    requires env1.now <= env.now + RequestedExpiration(up.expirationSeconds).value
    ensures var s0 := RequestSpec(cfg, bucket, up, env);
            var s1 := RequestSpec(cfg, s0.bucket, get, env1);
            && Answers(s0, 200)
            && s1.response == Response(200, s1.response.headers, Data(up.body))
            && "X-Expiration-Time" in s1.response.headers
            && s1.response.headers["X-Expiration-Time"] == FormatTime(env.now + RequestedExpiration(up.expirationSeconds).value)
            && s1.bucket == s0.bucket
  {
    var key := UploadKey(cfg, up, env.draws);
    var seconds := RequestedExpiration(up.expirationSeconds).value;
    ExpiringObject(up, env);
    AcceptedUploadStores(cfg, bucket, up, env);
    var s0 := RequestSpec(cfg, bucket, up, env);
    var obj := NewObject(up, env);
    assert s0.bucket[key] == obj;
    assert !IsOneTime(obj.metadata) && !Expired(obj.metadata, env1.now);
    FetchIsDownload(cfg, s0.bucket, get, key, env1);
    var s1 := DownloadSpec(cfg, s0.bucket, key, env1);
    assert s1.response.status == 200 && s1.bucket == s0.bucket;
  }

  /** After upload time + s the next GET answers 404 and the object is deleted. */
  lemma ExpiringUploadGoneAfterExpiry(cfg: Config, bucket: Bucket, up: Request, env: Env, get: Request, env1: Env)
    requires Accepted(cfg, up, env) && RequestedExpiration(up.expirationSeconds).Some?
    requires Decimal.IsInt64(env.now + RequestedExpiration(up.expirationSeconds).value)
    requires FetchOf(cfg, get, UploadKey(cfg, up, env.draws)) && UploadKey(cfg, up, env.draws) !in StaticFiles
    requires ValidDraws(env1.draws)
    requires env1.now > env.now + RequestedExpiration(up.expirationSeconds).value
    ensures var s0 := RequestSpec(cfg, bucket, up, env);
            var s1 := RequestSpec(cfg, s0.bucket, get, env1);
            && s1.response.status == 404
            && s1.bucket == bucket - {UploadKey(cfg, up, env.draws)}
  {
    var key := UploadKey(cfg, up, env.draws);
    ExpiringObject(up, env);
    AcceptedUploadStores(cfg, bucket, up, env);
    var s0 := RequestSpec(cfg, bucket, up, env);
    FetchIsDownload(cfg, s0.bucket, get, key, env1);
    StoreThenDelete(bucket, key, NewObject(up, env));
  }

  /**
   * The sweeper's decision for an object the gateway stored at `t0`: an
   * expiring one goes exactly when `now` is past `t0 + s`, whatever
   * `maxAge` is; any other goes exactly when its age, saturated as a
   * `time.Duration`, is more than `maxAge` seconds, which for an age that
   * fits a `Duration` means older than `maxAge`.
   */
  lemma SweepOfUpload(cfg: Config, up: Request, env: Env, now: int)
    requires Decimal.IsInt64(env.now)
    requires RequestedExpiration(up.expirationSeconds).Some? ==>
               Decimal.IsInt64(env.now + RequestedExpiration(up.expirationSeconds).value)
    ensures var obj := NewObject(up, env);
            var delete := ShouldDelete(obj.metadata, obj.lastModified, now, cfg.maxAge);
            && (RequestedExpiration(up.expirationSeconds).Some? ==>
                  (delete <==> now > env.now + RequestedExpiration(up.expirationSeconds).value))
            && (RequestedExpiration(up.expirationSeconds).None? ==>
                  (delete <==> AgeNanos(now, env.now) > cfg.maxAge * NanosPerSecond))
            && (RequestedExpiration(up.expirationSeconds).None? && Decimal.IsInt64((now - env.now) * NanosPerSecond) ==>
                  (delete <==> now - env.now > cfg.maxAge))
  {
  }

  /** A request that fails the password check is refused with 401 and leaves the bucket as it was. */
  lemma UnauthorizedChangesNothing(cfg: Config, bucket: Bucket, req: Request, env: Env)
    requires ValidDraws(env.draws) && !Authorized(cfg, req)
    requires req.verb == "PUT" || req.verb == "POST"
               || (req.verb == "GET" && req.path != "/" && TrimPrefix(req.path, "/") !in StaticFiles)
    ensures Answers(RequestSpec(cfg, bucket, req, env), 401)
    ensures RequestSpec(cfg, bucket, req, env).bucket == bucket
  {
  }

  /** The bundled page files are served to anyone, before the password check, and never touch the bucket. */
  lemma StaticFilesNeedNoPassword(cfg: Config, bucket: Bucket, req: Request, env: Env)
    requires ValidDraws(env.draws) && req.verb == "GET" && req.path in {"/index.html", "/style.css", "/upload.js"}
    ensures RequestSpec(cfg, bucket, req, env) == Step(Response(200, map[], Asset(req.path[1..])), bucket)
  {
    assert StartsWith(req.path, "/");
  }
}
