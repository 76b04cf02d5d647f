/**
 * The upload page talking to either gateway: what the page sends is what
 * the gateway reads, and what the gateway answers is what the page records.
 */
module EndToEnd {
  import opened Wrappers
  import opened Text
  import opened Decimal
  import opened Keys
  import opened Http
  import Go = GoGateway
  import Worker = CloudflareWorker
  import Client = UploadClient

  /** A link the page can pick out of a body: it starts with `http` and holds no line feed. */
  predicate IsLink(url: string) {
    StartsWith(url, "http") && '\n' !in url
  }

  /** The Go server's view of the page's request: a header the page does not set reads as "". */
  function ToGo(r: Client.UploadRequest, host: string, tls: bool, contentLength: int, browserType: string, body: Blob)
    : (req: Go.Request)
    ensures req.verb == r.verb && req.path == r.path
    ensures req.authorization == r.authorization.GetOr("")
    ensures req.expirationSeconds == r.expirationSeconds.GetOr("")
  {
    Go.Request(r.verb, r.path, host, tls, contentLength, r.authorization.GetOr(""),
               r.contentType.GetOr(browserType), r.expirationSeconds.GetOr(""), "", body)
  }

  /** The Worker's view of the page's request on a given origin. */
  function ToWorker(r: Client.UploadRequest, protocol: string, hostname: string, port: string, browserType: Option<string>, body: Blob)
    : (req: Worker.Request)
    ensures req.verb == r.verb && req.url.pathname == r.path
  {
    Worker.Request(r.verb, Worker.Url(protocol, hostname, port, r.path), None,
                   if r.contentType.Some? then r.contentType else browserType, body)
  }

  /** The Go server's link is read back whole from its 200 body, whatever the notice under it says. */
  lemma {:induction false} GoBodyYieldsLink(url: string, expiration: Option<int>)
    requires IsLink(url)
    requires expiration.Some? ==> expiration.value > 0
    ensures Client.Classify(Client.Status(200, Go.UploadResponseText(url, expiration))) == Client.Succeeded(url)
  {
    assert url[0] == url[..4][0] == 'h';
    assert !IsSpace(url[0]);
    var text := Go.UploadResponseText(url, expiration);
    assert Trim(text) == url + "\n\n" + Go.UploadNotice(expiration);
    Client.ClassifyParagraph(text, url, Go.UploadNotice(expiration));
  }

  /** A Go file link is a link when the host and the key hold no line feed. */
  lemma GoFileUrlIsLink(req: Go.Request, key: string)
    requires '\n' !in req.host && '\n' !in key
    ensures IsLink(Go.FileURL(req, key))
  {
    var scheme := if req.tls then "https" else "http";
    var url := Go.FileURL(req, key);
    assert url == scheme + "://" + req.host + "/" + key;
    forall i | 0 <= i < |url|
      ensures url[i] != '\n'
    {
      var n1 := |scheme + "://"|;
      var n2 := |scheme + "://" + req.host|;
      if i < n1 {
        assert url[i] == (scheme + "://")[i];
      } else if i < n2 {
        assert url[i] == req.host[i - n1];
      } else if i == n2 {
        assert url[i] == '/';
      } else {
        assert url[i] == key[i - n2 - 1];
      }
    }
  }

  /** The body of a 200 from the Go server: the padded link and notice. */
  lemma GoUploadBody(cfg: Go.Config, bucket: Go.Bucket, req: Go.Request, env: Go.Env, forceShortURL: bool)
    requires ValidDraws(env.draws)
    requires Go.Answers(Go.UploadSpec(cfg, bucket, req, env, forceShortURL), 200)
    ensures Go.UploadSpec(cfg, bucket, req, env, forceShortURL).response.body
            == Text(Go.UploadResponseText(Go.ShownURL(cfg, req, Go.UploadKey(cfg, req, env.draws), env, forceShortURL),
                                          Go.RequestedExpiration(req.expirationSeconds)))
  {
    assert Go.UploadSpec(cfg, bucket, req, env, forceShortURL).response == Go.UploadedResponse(cfg, req, env, forceShortURL);
  }

  /**
   * An upload the Go server accepts is recorded by the page on its first
   * attempt, under exactly the link the server showed.
   */
  lemma GoUploadRecorded(cfg: Go.Config, bucket: Go.Bucket, req: Go.Request, env: Go.Env, forceShortURL: bool,
                         later: seq<Client.Outcome>, maxRetries: nat)
    requires ValidDraws(env.draws) && maxRetries >= 1
    requires Go.Answers(Go.UploadSpec(cfg, bucket, req, env, forceShortURL), 200)
    requires IsLink(Go.ShownURL(cfg, req, Go.UploadKey(cfg, req, env.draws), env, forceShortURL))
    ensures var s := Go.UploadSpec(cfg, bucket, req, env, forceShortURL);
            && s.response.body.Text?
            && Client.RetrySpec([Client.Status(200, s.response.body.text)] + later, maxRetries)
               == Client.Run(1, [], Client.Uploaded(Go.ShownURL(cfg, req, Go.UploadKey(cfg, req, env.draws), env, forceShortURL)))
  {
    var url := Go.ShownURL(cfg, req, Go.UploadKey(cfg, req, env.draws), env, forceShortURL);
    var text := Go.UploadResponseText(url, Go.RequestedExpiration(req.expirationSeconds));
    GoUploadBody(cfg, bucket, req, env, forceShortURL);
    GoBodyYieldsLink(url, Go.RequestedExpiration(req.expirationSeconds));
    Client.FirstAttemptDecides([Client.Status(200, text)] + later, maxRetries);
  }

  /** The Worker's link is read back whole from its 200 body. */
  lemma WorkerBodyYieldsLink(link: string)
    requires IsLink(link)
    ensures Client.Classify(Client.Status(200, Worker.PutResponseText(link))) == Client.Succeeded(link)
  {
    assert link[0] == link[..4][0] == 'h';
    Client.ClassifyParagraph(Worker.PutResponseText(link), link, Worker.OneTimeNotice());
  }

  /** A PUT the Worker stores is recorded by the page on its first attempt, under the Worker's link. */
  lemma WorkerUploadRecorded(b: Worker.Bindings, bucket: Worker.Bucket, req: Worker.Request, env: Worker.Env,
                             later: seq<Client.Outcome>, maxRetries: nat)
    requires ValidDraws(env.draws) && maxRetries >= 1
    requires req.verb == "PUT" && env.storeError.None?
    requires IsLink(Worker.FileUrl(req.url, Worker.PutKey(b, req, env.draws)))
    ensures var o := Worker.FetchSpec(b, bucket, req, env);
            && o.response.status == 200 && o.response.body.Text?
            && Client.RetrySpec([Client.Status(200, o.response.body.text)] + later, maxRetries)
               == Client.Run(1, [], Client.Uploaded(Worker.FileUrl(req.url, Worker.PutKey(b, req, env.draws))))
    ensures req.url.port == "" ==>
              Worker.FileUrl(req.url, Worker.PutKey(b, req, env.draws))
              == Worker.FileUrlAsWritten(req.url, Worker.PutKey(b, req, env.draws))
  {
    var link := Worker.FileUrl(req.url, Worker.PutKey(b, req, env.draws));
    assert Worker.FetchSpec(b, bucket, req, env) == Worker.PutSpec(b, bucket, req, env);
    WorkerBodyYieldsLink(link);
    Client.FirstAttemptDecides([Client.Status(200, Worker.PutResponseText(link))] + later, maxRetries);
  }

  /**
   * The Go server reads the page's expiration choice as the page meant it:
   * no header means one-time, the default header means one hour, and a
   * stored positive number of seconds means that many seconds.
   */
  lemma ExpirationUnderstood(form: Client.Form, attribute: Option<int>)
    requires attribute.Some? ==> IsInt64(attribute.value)
    ensures var mode := Go.RequestedExpiration(Client.ExpirationHeader(form, attribute).GetOr(""));
            && (!form.useExpiration ==> mode.None?)
            && (form.useExpiration && attribute.None? ==> mode == Some(3600))
            && (form.useExpiration && attribute.Some? && attribute.value > 0 ==> mode == attribute)
            && (form.useExpiration && attribute.Some? && attribute.value <= 0 ==> mode.None?)
  {
    if form.useExpiration {
      match attribute
      case None =>
        assert FormatInt(3600) == "3600";
        Go.RequestedExpirationOfText(3600);
      case Some(s) =>
        ParseFormatInt(s);
    }
  }

  /** A duration set with the page's controls reaches the Go server unchanged. */
  lemma SetDurationUnderstood(form: Client.Form, value: int, unit: string)
    requires form.useExpiration && value > 0 && unit in Client.Units
    requires value * Client.UnitSeconds(unit) <= Int64Max
    ensures Go.RequestedExpiration(Client.ExpirationHeader(form, Some(value * Client.UnitSeconds(unit))).GetOr(""))
            == Some(value * Client.UnitSeconds(unit))
  {
    var s := value * Client.UnitSeconds(unit);
    assert s >= value;
    ExpirationUnderstood(form, Some(s));
  }

  /** The page's password, sent as typed, passes the Go check when it is the configured one (and does not look like a Basic header). */
  lemma PasswordUnderstood(cfg: Go.Config, form: Client.Form)
    requires form.usePassword && form.password == cfg.password && cfg.password != ""
    requires !StartsWith(form.password, Go.BasicPrefix)
    ensures Go.CheckPassword(cfg.password, cfg.base64Decode, Client.AuthorizationHeader(form).GetOr(""))
  {
  }

  /**
   * Without the password box checked the page sends no `Authorization`; a
   * Go server with a password answers 401, stores nothing, and the page
   * stops after that one attempt.
   */
  lemma MissingPasswordStopsAtOnce(cfg: Go.Config, bucket: Go.Bucket, form: Client.Form, attribute: Option<int>,
                                   file: Client.FileInput, host: string, tls: bool, browserType: string,
                                   env: Go.Env, later: seq<Client.Outcome>)
    requires !form.usePassword && cfg.password != "" && ValidDraws(env.draws)
    ensures var req := ToGo(Client.FileRequest(form, attribute, file), host, tls, file.size, browserType, file.content);
            var s := Go.UploadSpec(cfg, bucket, req, env, form.useShortUrl);
            && Go.Answers(s, 401) && s.bucket == bucket
            && s.response.body.Text?
            && Client.RetrySpec([Client.Status(401, s.response.body.text)] + later, 3) == Client.Run(1, [], Client.PasswordRejected)
  {
    var req := ToGo(Client.FileRequest(form, attribute, file), host, tls, file.size, browserType, file.content);
    assert req.authorization == "";
    var s := Go.UploadSpec(cfg, bucket, req, env, form.useShortUrl);
    assert s.response == Go.ErrorResponse(401, "Unauthorized", map[]);
    Client.UnauthorizedStopsAtOnce([Client.Status(401, s.response.body.text)] + later, 3, s.response.body.text);
  }

  /**
   * What the page's XMLHttpRequest sees of a Go step: a dropped connection is a
   * network error, an answer its status and its response text.
   */
  function GoAnswer(s: Go.Step): (o: Client.Outcome)
    ensures o.NetworkError? <==> s.Dropped?
    ensures s.Step? ==> o.code == s.response.status
    ensures s.Step? && s.response.body.Text? ==> o.body == s.response.body.text
  {
    match s
    case Dropped(_) => Client.NetworkError
    case Step(r, _) => Client.Status(r.status, if r.body.Text? then r.body.text else "")
  }

  /**
   * A file of a type the MIME library does not know makes the Go handler
   * panic on every attempt: nothing is stored, the page sees three network
   * errors, waits one and then two seconds, and gives up.
   */
  lemma UnknownTypeGivesUp(cfg: Go.Config, bucket: Go.Bucket, form: Client.Form, attribute: Option<int>,
                           file: Client.FileInput, host: string, tls: bool, browserType: string, env: Go.Env)
    requires ValidDraws(env.draws)
    requires var req := ToGo(Client.FileRequest(form, attribute, file), host, tls, file.size, browserType, file.content);
             !Go.PasswordRefused(cfg, req) && file.size <= cfg.maxUploadSize
             && cfg.extensionFor(Go.StoredContentType(req)).None?
    ensures var req := ToGo(Client.FileRequest(form, attribute, file), host, tls, file.size, browserType, file.content);
            var s := Go.UploadSpec(cfg, bucket, req, env, form.useShortUrl);
            && s == Go.Dropped(bucket)
            && Client.RetrySpec([GoAnswer(s), GoAnswer(s), GoAnswer(s)], 3)
               == Client.Run(3, [1000, 2000], Client.GaveUp(Client.NetworkErrorMessage))
  {
    var req := ToGo(Client.FileRequest(form, attribute, file), host, tls, file.size, browserType, file.content);
    var s := Go.UploadSpec(cfg, bucket, req, env, form.useShortUrl);
    assert s == Go.Dropped(bucket);
    var answer := GoAnswer(s);
    assert answer == Client.NetworkError;
    var e := Client.NetworkErrorMessage;
    assert Client.Verdicts([answer, answer, answer], 3) == [Client.Failed(e), Client.Failed(e), Client.Failed(e)];
    Client.ThreeFailures(e);
  }

  /** The page's reading of the Go server's `/api/config` answer. */
  function PageConfig(f: Go.ConfigFields): (c: Client.ServerConfig)
    ensures c.maxUploadSize == Some(f.maxUploadSize) && c.needPassword == f.needPassword
  {
    Client.ServerConfig(Some(f.maxUploadSize), f.needPassword)
  }

  /**
   * What the page learns from `/api/config` agrees with the Go server's
   * checks: with a password set on the server, the page refuses to send
   * without one; with a non-zero limit, the page refuses exactly the files
   * larger than the limit the server enforces with 413.
   */
  lemma ConfigUnderstood(cfg: Go.Config, bucket: Go.Bucket, get: Go.Request, env: Go.Env, form: Client.Form, file: Client.FileInput)
    requires ValidDraws(env.draws) && get.path == "/api/config"
    ensures Go.ServeSpec(cfg, bucket, get, env) == Go.Step(Go.ConfigResponse(cfg), bucket)
    ensures var page := Some(PageConfig(Go.PublishedSettings(cfg)));
            && (cfg.password != "" ==> (Client.MissingPassword(page, form) <==> Trim(form.password) == ""))
            && (cfg.maxUploadSize != 0 ==>
                  (Client.FileRefusal(page, form, file) == Some(Client.TooLarge(cfg.maxUploadSize))
                   <==> file.size > cfg.maxUploadSize))
  {
  }

  /**
   * Text is sent with POST, which the Worker refuses with 405 every time:
   * the page tries three times, waits one and then two seconds, and gives up.
   */
  lemma TextToWorkerGivesUp(b: Worker.Bindings, bucket: Worker.Bucket, form: Client.Form, attribute: Option<int>,
                            text: string, protocol: string, hostname: string, port: string, env: Worker.Env)
    requires ValidDraws(env.draws)
    ensures var req := ToWorker(Client.TextRequest(form, attribute, text), protocol, hostname, port, None, []);
            var o := Worker.FetchSpec(b, bucket, req, env);
            && o.response.status == 405 && o.bucket == bucket && o.deletion.None?
            && o.response.body.Text?
            && var answer := Client.Status(405, o.response.body.text);
               Client.RetrySpec([answer, answer, answer], 3)
               == Client.Run(3, [1000, 2000], Client.GaveUp("Server returned status " + FormatInt(405)))
  {
    var req := ToWorker(Client.TextRequest(form, attribute, text), protocol, hostname, port, None, []);
    assert req.verb == "POST";
    var o := Worker.FetchSpec(b, bucket, req, env);
    Client.ThreeRefusals(405, o.response.body.text);
  }
}
