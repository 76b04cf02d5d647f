/**
 * The life of one upload in the Worker: stored by PUT, served by the next
 * GET, deleted when the deferred deletion runs. Until it runs the object is
 * still there, so a second GET in that window is served as well.
 */
module CloudflareLifecycle {
  import opened Wrappers
  import opened Text
  import opened Keys
  import opened Http
  import opened CloudflareWorker

  /** A PUT that R2 stores. */
  predicate StoredPut(req: Request, env: Env) {
    req.verb == "PUT" && ValidDraws(env.draws) && env.storeError.None?
  }

  /** A GET of `/key` that reaches R2 (the key is not a bundled file the ASSETS binding serves). */
  predicate FetchOf(b: Bindings, get: Request, key: string) {
    get.verb == "GET" && get.url.pathname == "/" + key && !StaticServed(b, key)
  }

  lemma FileNameOfPath(key: string)
    ensures FileNameOf("/" + key) == key
  {
  }

  /**
   * A stored PUT is served by the next GET with its bytes, typed by its
   * name alone, and its deletion is scheduled; once the deletion has run
   * (and did not fail) a further GET answers 404.
   */
  lemma UploadServedThenDeleted(b: Bindings, bucket: Bucket, put: Request, env: Env, get: Request, env1: Env, env2: Env, failed: set<string>)
    requires StoredPut(put, env) && FetchOf(b, get, PutKey(b, put, env.draws))
    requires ValidDraws(env1.draws) && env1.storeError.None?
    requires ValidDraws(env2.draws) && env2.storeError.None?
    requires PutKey(b, put, env.draws) !in failed
    ensures var key := PutKey(b, put, env.draws);
            var o0 := FetchSpec(b, bucket, put, env);
            var o1 := FetchSpec(b, o0.bucket, get, env1);
            var after := o1.bucket - Removed([key], failed);
            && o0.response.status == 200
            && o1.response.status == 200
            && o1.response.body == Data(put.body)
            && o1.response.headers["Content-Type"] == DownloadType(b, key)
            && o1.deletion == Some(key)
            && after == bucket - {key}
            && FetchSpec(b, after, get, env2).response == TextResponse(404, "File not found\n")
  {
    var key := PutKey(b, put, env.draws);
    FileNameOfPath(key);
    var o0 := FetchSpec(b, bucket, put, env);
    assert o0.bucket == bucket[key := PutObject(b, put, env)];
    assert Removed([key], failed) == {key};
    assert o0.bucket - {key} == bucket - {key};
    assert key !in bucket - {key};
  }

  /** Until the deferred deletion runs, a second GET of the same key is served the same bytes again. */
  lemma ServedAgainBeforeDeletion(b: Bindings, bucket: Bucket, get: Request, env1: Env, env2: Env)
    requires FetchOf(b, get, FileNameOf(get.url.pathname)) && FileNameOf(get.url.pathname) != ""
    requires ValidDraws(env1.draws) && ValidDraws(env2.draws)
    requires FetchSpec(b, bucket, get, env1).response.status == 200
    requires env2.storeError.None?
    ensures var o1 := FetchSpec(b, bucket, get, env1);
            var o2 := FetchSpec(b, o1.bucket, get, env2);
            o2.response == o1.response && o2.deletion == o1.deletion
  {
  }

  /** The type an object was uploaded with never reaches the download: only its name decides. */
  lemma StoredTypeIgnored(b: Bindings, name: string, obj: Object, other: Option<string>)
    ensures DownloadHeaders(b, name, obj) == DownloadHeaders(b, name, obj.(contentType := other))
  {
  }
}
