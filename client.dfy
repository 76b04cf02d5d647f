/**
 * The browser upload client (public/upload.js) without its page: the checks
 * made before a request, the request it sends, the expiration-unit
 * arithmetic, and the retry loop. The transport is abstract: the answer to
 * attempt k is the k-th entry of a sequence of outcomes.
 */
module UploadClient {
  import opened Wrappers
  import opened Text
  import opened Decimal
  import opened Http

  // ---------------------------------------------------------------------
  // Before a request
  // ---------------------------------------------------------------------

  /** The fields of `/api/config` the client reads; `maxUploadSize` is `None` when absent. */
  datatype ServerConfig = ServerConfig(maxUploadSize: Option<int>, needPassword: bool)

  /** The form: the password box and its value, the expiration box, and the short-link box. */
  datatype Form = Form(usePassword: bool, password: string, useExpiration: bool, useShortUrl: bool)

  datatype FileInput = FileInput(name: string, size: int, content: Blob)

  const DefaultMaxFileSize: int := 5 * 1024 * 1024 * 1024

  /** `serverConfig?.maxUploadSize || 5 GiB`: the server's limit unless the config is missing or the limit is absent or 0. */
  function MaxFileSize(config: Option<ServerConfig>): (limit: int)
    ensures config.None? ==> limit == DefaultMaxFileSize
    ensures (config.Some? && config.value.maxUploadSize.Some? && config.value.maxUploadSize.value != 0) ==>
              limit == config.value.maxUploadSize.value
    ensures (config.Some? && (config.value.maxUploadSize.None? || config.value.maxUploadSize.value == 0)) ==>
              limit == DefaultMaxFileSize
  {
    match config
    case None => DefaultMaxFileSize
    case Some(c) =>
      match c.maxUploadSize
      case Some(m) => if m != 0 then m else DefaultMaxFileSize
      case None => DefaultMaxFileSize
  }

  /** Why the page refuses to send. */
  datatype Refusal = TooLarge(limit: int) | PasswordMissing | EmptyText

  /** A password is needed (the server requires one or the box is checked) and the trimmed value is empty. */
  predicate MissingPassword(config: Option<ServerConfig>, form: Form) {
    ((config.Some? && config.value.needPassword) || form.usePassword) && Trim(form.password) == ""
  }

  /** `uploadFile`'s checks, in order: the size limit, then the password. */
  function FileRefusal(config: Option<ServerConfig>, form: Form, file: FileInput): (r: Option<Refusal>)
    ensures r.None? <==> file.size <= MaxFileSize(config) && !MissingPassword(config, form)
    ensures file.size > MaxFileSize(config) ==> r == Some(TooLarge(MaxFileSize(config)))
    ensures r == Some(PasswordMissing) <==> file.size <= MaxFileSize(config) && MissingPassword(config, form)
  {
    if file.size > MaxFileSize(config) then Some(TooLarge(MaxFileSize(config)))
    else if MissingPassword(config, form) then Some(PasswordMissing)
    else None
  }

  /** `handleTextUpload`'s checks, in order: the trimmed text, then the password. */
  function TextRefusal(config: Option<ServerConfig>, form: Form, input: string): (r: Option<Refusal>)
    ensures r.None? <==> !AllSpace(input) && !MissingPassword(config, form)
    ensures AllSpace(input) ==> r == Some(EmptyText)
    ensures r == Some(PasswordMissing) <==> !AllSpace(input) && MissingPassword(config, form)
  {
    if Trim(input) == "" then Some(EmptyText)
    else if MissingPassword(config, form) then Some(PasswordMissing)
    else None
  }

  // ---------------------------------------------------------------------
  // The request
  // ---------------------------------------------------------------------

  datatype Payload = FileBody(content: Blob) | TextBody(text: string)

  /** The request as the page opens it; paths are relative to the page's origin; `None` for a header not set. */
  datatype UploadRequest = UploadRequest(
    verb: string,
    path: string,
    authorization: Option<string>,
    expirationSeconds: Option<string>,
    contentType: Option<string>,
    payload: Payload)

  /** The raw password as `Authorization`, when the box is checked and the value (untrimmed) is non-empty. */
  function AuthorizationHeader(form: Form): (h: Option<string>)
    ensures h.Some? <==> form.usePassword && form.password != ""
    ensures h.Some? ==> h.value == form.password
  {
    if form.usePassword && form.password != "" then Some(form.password) else None
  }

  /** The default when the box is checked but no duration was set: one hour. */
  const DefaultExpiration := "3600"

  /** `X-Expiration-Seconds` when the box is checked: the stored attribute, else `"3600"`. */
  function ExpirationHeader(form: Form, attribute: Option<int>): (h: Option<string>)
    ensures h.Some? <==> form.useExpiration
    ensures form.useExpiration && attribute.None? ==> h == Some(DefaultExpiration)
    ensures form.useExpiration && attribute.Some? ==> h == Some(FormatInt(attribute.value))
  {
    if !form.useExpiration then None
    else
      match attribute
      case Some(s) => Some(FormatInt(s))
      case None => Some(DefaultExpiration)
  }

  /** `uploadWithProgress`: a PUT to `/short` or to `/<file name>`. */
  function FileRequest(form: Form, attribute: Option<int>, file: FileInput): (r: UploadRequest)
    ensures r.verb == "PUT" && r.payload == FileBody(file.content) && r.contentType.None?
    ensures r.path == (if form.useShortUrl then "/short" else "/" + file.name)
    ensures r.authorization == AuthorizationHeader(form) && r.expirationSeconds == ExpirationHeader(form, attribute)
  {
    UploadRequest("PUT", if form.useShortUrl then "/short" else "/" + file.name,
                  AuthorizationHeader(form), ExpirationHeader(form, attribute), None, FileBody(file.content))
  }

  /** `uploadTextWithProgress`: a form-encoded POST to `/short` or `/`. */
  function TextRequest(form: Form, attribute: Option<int>, text: string): (r: UploadRequest)
    ensures r.verb == "POST" && r.payload == TextBody(text)
    ensures r.contentType == Some("application/x-www-form-urlencoded")
    ensures r.path == (if form.useShortUrl then "/short" else "/")
    ensures r.authorization == AuthorizationHeader(form) && r.expirationSeconds == ExpirationHeader(form, attribute)
  {
    UploadRequest("POST", if form.useShortUrl then "/short" else "/",
                  AuthorizationHeader(form), ExpirationHeader(form, attribute),
                  Some("application/x-www-form-urlencoded"), TextBody(text))
  }

  // ---------------------------------------------------------------------
  // Expiration units
  // ---------------------------------------------------------------------

  const Units: seq<string> := ["seconds", "minutes", "hours", "days"]

  /** The click handler's `switch`: 1, 60, 3600 or 86400, and 0 for any other unit. */
  function UnitSeconds(unit: string): (n: nat)
    ensures unit in Units <==> n > 0
    ensures n in {0, 1, 60, 3600, 86400}
  {
    if unit == "seconds" then 1
    else if unit == "minutes" then 60
    else if unit == "hours" then 3600
    else if unit == "days" then 86400
    else 0
  }

  /**
   * The display arithmetic: the largest of days, hours and minutes that
   * divides `seconds` exactly, else seconds.
   */
  function ExpirationDisplay(seconds: int): (d: (int, string))
    ensures d.1 in Units
    ensures d.0 * UnitSeconds(d.1) == seconds
    ensures forall u | u in Units && UnitSeconds(u) > UnitSeconds(d.1) :: seconds % UnitSeconds(u) != 0
  {
    if seconds % 86400 == 0 then (seconds / 86400, "days")
    else if seconds % 3600 == 0 then (seconds / 3600, "hours")
    else if seconds % 60 == 0 then (seconds / 60, "minutes")
    else (seconds, "seconds")
  }

  /** A duration entered as value × unit is shown in that unit or a larger one, with the same number of seconds. */
  lemma DisplayOfEntered(value: int, unit: string)
    requires unit in Units
    ensures var d := ExpirationDisplay(value * UnitSeconds(unit));
            d.0 * UnitSeconds(d.1) == value * UnitSeconds(unit) && UnitSeconds(d.1) >= UnitSeconds(unit)
  {
  }

  // ---------------------------------------------------------------------
  // The retry loop
  // ---------------------------------------------------------------------

  /** What one attempt brings back: a status and body, or the XHR error event. */
  datatype Outcome = Status(code: int, body: string) | NetworkError

  /** How the loop reads one attempt. */
  datatype Attempt = Succeeded(url: string) | Unauthorized | Failed(error: string)

  const UnexpectedResponse := "Upload completed but received unexpected response"
  const NetworkErrorMessage := "Network error occurred"

  /**
   * A 200 whose trimmed body starts with `http` succeeds with the first line
   * of that body; a 401 stops; a 200 with any other body, any other status
   * and a network error fail with the message the loop records.
   */
  function Classify(o: Outcome): Attempt
  {
    match o
    case NetworkError => Failed(NetworkErrorMessage)
    case Status(code, body) =>
      if code == 200 then
        var trimmed := Trim(body);
        if StartsWith(trimmed, "http") then Succeeded(FirstLine(trimmed)) else Failed(UnexpectedResponse)
      else if code == 401 then Unauthorized
      else Failed("Server returned status " + FormatInt(code))
  }

  /** What each kind of answer means to the loop. */
  lemma ClassifyMeaning(o: Outcome)
    ensures Classify(o).Succeeded? <==> o.Status? && o.code == 200 && StartsWith(Trim(o.body), "http")
    ensures Classify(o).Succeeded? ==> Classify(o).url == FirstLine(Trim(o.body)) && '\n' !in Classify(o).url
    ensures Classify(o).Unauthorized? <==> o.Status? && o.code == 401
    ensures o.NetworkError? ==> Classify(o) == Failed(NetworkErrorMessage)
    ensures o.Status? && o.code == 200 && !StartsWith(Trim(o.body), "http") ==> Classify(o) == Failed(UnexpectedResponse)
    ensures o.Status? && o.code != 200 && o.code != 401 ==> Classify(o) == Failed("Server returned status " + FormatInt(o.code))
  {
  }

  /** A 200 whose trimmed body starts with `http` succeeds with the body's first line. */
  lemma ClassifyLink(body: string)
    requires StartsWith(Trim(body), "http")
    ensures Classify(Status(200, body)) == Succeeded(FirstLine(Trim(body)))
  {
  }

  /** A 200 whose trimmed body is a link, a blank line and more succeeds with that link. */
  lemma ClassifyParagraph(body: string, url: string, rest: string)
    requires Trim(body) == url + "\n\n" + rest
    requires StartsWith(url, "http") && '\n' !in url
    ensures Classify(Status(200, body)) == Succeeded(url)
  {
    assert url + "\n\n" + rest == url + ("\n\n" + rest);
    StartsWithAppend(url, "\n\n" + rest, "http");
    FirstLineBeforeBlank(url, rest);
    ClassifyLink(body);
  }

  function Pow2(k: nat): (p: nat)
    ensures p >= 1
  {
    if k == 0 then 1 else 2 * Pow2(k - 1)
  }

  /** The wait after failed attempt `k`: `2^(k-1)` seconds, in milliseconds. */
  function Backoff(k: nat): (ms: nat)
    requires k >= 1
    ensures ms >= 1000
  {
    Pow2(k - 1) * 1000
  }

  /** Each wait is twice the one before it, starting from one second. */
  lemma BackoffDoubles(k: nat)
    requires k >= 1
    ensures Backoff(1) == 1000
    ensures Backoff(k + 1) == 2 * Backoff(k)
  {
  }

  /** How the loop ends: a recorded link, the password error, or giving up with the last error. */
  datatype Result = Uploaded(url: string) | PasswordRejected | GaveUp(lastError: string)

  /** The attempts made, the waits between them in order, and the result. */
  datatype Run = Run(attempts: nat, delays: seq<nat>, result: Result)

  /** The answer to attempt `k` (from 1); attempts the transport does not cover fail as network errors. */
  function OutcomeAt(transport: seq<Outcome>, k: nat): Outcome {
    if 1 <= k <= |transport| then transport[k - 1] else NetworkError
  }

  /** How each of the `maxRetries` attempts would be read: entry `k - 1` is attempt `k`. */
  function Verdicts(transport: seq<Outcome>, maxRetries: nat): (v: seq<Attempt>)
    ensures |v| == maxRetries
    ensures forall k | 1 <= k <= maxRetries :: v[k - 1] == Classify(OutcomeAt(transport, k))
  {
    seq(maxRetries, i requires 0 <= i < maxRetries => Classify(OutcomeAt(transport, i + 1)))
  }

  /** The loop from attempt `k` on, over the verdicts of all attempts, with the error of the previous attempt. */
  function RetryFrom(verdicts: seq<Attempt>, k: nat, lastError: string): Run
    requires k >= 1
    decreases |verdicts| + 1 - k
  {
    if k > |verdicts| then Run(k - 1, [], GaveUp(lastError))
    else
      match verdicts[k - 1]
      case Succeeded(url) => Run(k, [], Uploaded(url))
      case Unauthorized => Run(k, [], PasswordRejected)
      case Failed(e) =>
        var rest := RetryFrom(verdicts, k + 1, e);
        Run(rest.attempts, (if k < |verdicts| then [Backoff(k)] else []) + rest.delays, rest.result)
  }

  /** `for (attempt = 1; attempt <= maxRetries; attempt++)` with its try/catch. */
  function RetrySpec(transport: seq<Outcome>, maxRetries: nat): Run
    requires maxRetries >= 1
  {
    RetryFrom(Verdicts(transport, maxRetries), 1, "")
  }

  /** The whole run, given the waits already made before attempt `k` and the loop from `k` on. */
  function Resume(verdicts: seq<Attempt>, k: nat, lastError: string, delays: seq<nat>): Run
    requires k >= 1
  {
    var rest := RetryFrom(verdicts, k, lastError);
    Run(rest.attempts, delays + rest.delays, rest.result)
  }

  /** A failed attempt `k` moves the loop on to attempt `k + 1`, after its wait unless it was the last. */
  lemma ResumeAfterFailure(verdicts: seq<Attempt>, k: nat, lastError: string, delays: seq<nat>)
    requires 1 <= k <= |verdicts| && verdicts[k - 1].Failed?
    ensures Resume(verdicts, k, lastError, delays)
            == Resume(verdicts, k + 1, verdicts[k - 1].error, delays + (if k < |verdicts| then [Backoff(k)] else []))
  {
    var rest := RetryFrom(verdicts, k + 1, verdicts[k - 1].error);
    var wait: seq<nat> := if k < |verdicts| then [Backoff(k)] else [];
    assert RetryFrom(verdicts, k, lastError) == Run(rest.attempts, wait + rest.delays, rest.result);
    assert delays + (wait + rest.delays) == (delays + wait) + rest.delays;
  }

  /** A success or a 401 at attempt `k` ends the run there. */
  lemma ResumeAtDecision(verdicts: seq<Attempt>, k: nat, lastError: string, delays: seq<nat>)
    requires 1 <= k <= |verdicts|
    ensures verdicts[k - 1].Succeeded? ==> Resume(verdicts, k, lastError, delays) == Run(k, delays, Uploaded(verdicts[k - 1].url))
    ensures verdicts[k - 1].Unauthorized? ==> Resume(verdicts, k, lastError, delays) == Run(k, delays, PasswordRejected)
  {
    assert delays + [] == delays;
  }

  /** From attempt `k`: the attempts made stay within `k..|verdicts|`, with one wait after each failed attempt but the last. */
  lemma {:induction false} RetryFromDelays(verdicts: seq<Attempt>, k: nat, lastError: string)
    requires 1 <= k <= |verdicts|
    ensures var r := RetryFrom(verdicts, k, lastError);
            && k <= r.attempts <= |verdicts|
            && |r.delays| == r.attempts - k
            && (forall i | 0 <= i < |r.delays| :: r.delays[i] == Backoff(k + i))
    decreases |verdicts| - k
  {
    var r := RetryFrom(verdicts, k, lastError);
    var a := verdicts[k - 1];
    if a.Failed? && k < |verdicts| {
      RetryFromDelays(verdicts, k + 1, a.error);
      var rest := RetryFrom(verdicts, k + 1, a.error);
      assert r.delays == [Backoff(k)] + rest.delays;
    }
  }

  /** From attempt `k`: every attempt before the last one failed, and the last one decided the result. */
  lemma {:induction false} RetryFromDecided(verdicts: seq<Attempt>, k: nat, lastError: string)
    requires 1 <= k <= |verdicts|
    ensures var r := RetryFrom(verdicts, k, lastError);
            && k <= r.attempts <= |verdicts|
            && (forall j | k - 1 <= j < r.attempts - 1 :: verdicts[j].Failed?)
            && (r.result.Uploaded? ==> verdicts[r.attempts - 1] == Succeeded(r.result.url))
            && (r.result.PasswordRejected? ==> verdicts[r.attempts - 1].Unauthorized?)
            && (r.result.GaveUp? ==> r.attempts == |verdicts| && verdicts[r.attempts - 1] == Failed(r.result.lastError))
    decreases |verdicts| - k
  {
    var a := verdicts[k - 1];
    if a.Failed? && k < |verdicts| {
      RetryFromDecided(verdicts, k + 1, a.error);
    }
  }

  /**
   * At most `maxRetries` attempts, numbered from 1, and a wait of
   * `2^(k-1)` seconds after each failed attempt `k` but the last: none after
   * a success, a 401 or the final attempt.
   */
  lemma RetryWaits(transport: seq<Outcome>, maxRetries: nat)
    requires maxRetries >= 1
    ensures var r := RetrySpec(transport, maxRetries);
            && 1 <= r.attempts <= maxRetries
            && |r.delays| == r.attempts - 1
            && (forall i | 0 <= i < |r.delays| :: r.delays[i] == Backoff(i + 1))
  {
    RetryFromDelays(Verdicts(transport, maxRetries), 1, "");
  }

  /** Every attempt before the last failed, and the result is what the last attempt decided. */
  lemma RetryDecidedByLast(transport: seq<Outcome>, maxRetries: nat)
    requires maxRetries >= 1
    ensures var r := RetrySpec(transport, maxRetries);
            && (forall j | 1 <= j < r.attempts :: Classify(OutcomeAt(transport, j)).Failed?)
            && (r.result.Uploaded? ==> Classify(OutcomeAt(transport, r.attempts)) == Succeeded(r.result.url))
            && (r.result.PasswordRejected? ==> Classify(OutcomeAt(transport, r.attempts)).Unauthorized?)
            && (r.result.GaveUp? ==> r.attempts == maxRetries
                                     && Classify(OutcomeAt(transport, maxRetries)) == Failed(r.result.lastError))
  {
    var v := Verdicts(transport, maxRetries);
    RetryFromDecided(v, 1, "");
    var r := RetrySpec(transport, maxRetries);
    forall j | 1 <= j < r.attempts
      ensures Classify(OutcomeAt(transport, j)).Failed?
    {
      assert v[j - 1].Failed?;
    }
  }

  /** A first answer that succeeds or is a 401 ends the loop there: one attempt, no wait. */
  lemma FirstAttemptDecides(transport: seq<Outcome>, maxRetries: nat)
    requires maxRetries >= 1 && transport != []
    ensures Classify(transport[0]).Succeeded? ==>
              RetrySpec(transport, maxRetries) == Run(1, [], Uploaded(Classify(transport[0]).url))
    ensures Classify(transport[0]).Unauthorized? ==> RetrySpec(transport, maxRetries) == Run(1, [], PasswordRejected)
  {
    var v := Verdicts(transport, maxRetries);
    assert v[0] == Classify(OutcomeAt(transport, 1)) == Classify(transport[0]);
  }

  /** A 401 on the first attempt ends the loop there: one attempt, no wait. */
  lemma UnauthorizedStopsAtOnce(transport: seq<Outcome>, maxRetries: nat, body: string)
    requires maxRetries >= 1 && transport != [] && transport[0] == Status(401, body)
    ensures RetrySpec(transport, maxRetries) == Run(1, [], PasswordRejected)
  {
    FirstAttemptDecides(transport, maxRetries);
  }

  /** Two failures and then a success, out of three attempts: waits of one and two seconds. */
  lemma FailFailSucceed(e1: string, e2: string, url: string)
    ensures RetryFrom([Failed(e1), Failed(e2), Succeeded(url)], 1, "") == Run(3, [1000, 2000], Uploaded(url))
  {
    var v := [Failed(e1), Failed(e2), Succeeded(url)];
    assert RetryFrom(v, 3, e2) == Run(3, [], Uploaded(url));
    assert Backoff(2) == 2000 && Backoff(1) == 1000;
    assert RetryFrom(v, 2, e1) == Run(3, [2000], Uploaded(url));
  }

  /** Three failures out of three attempts: waits of one and two seconds, then the last error. */
  lemma ThreeFailures(e: string)
    ensures RetryFrom([Failed(e), Failed(e), Failed(e)], 1, "") == Run(3, [1000, 2000], GaveUp(e))
  {
    var v := [Failed(e), Failed(e), Failed(e)];
    assert RetryFrom(v, 4, e) == Run(3, [], GaveUp(e));
    assert RetryFrom(v, 3, e) == Run(3, [], GaveUp(e));
    assert Backoff(2) == 2000 && Backoff(1) == 1000;
    assert RetryFrom(v, 2, e) == Run(3, [2000], GaveUp(e));
  }

  /** The same refusal (neither 200 nor 401) three times over: three attempts, waits of one and two seconds, then that error. */
  lemma ThreeRefusals(code: int, body: string)
    requires code != 200 && code != 401
    ensures var answer := Status(code, body);
            RetrySpec([answer, answer, answer], 3)
            == Run(3, [1000, 2000], GaveUp("Server returned status " + FormatInt(code)))
  {
    var answer := Status(code, body);
    var e := "Server returned status " + FormatInt(code);
    assert Classify(answer) == Failed(e);
    assert Verdicts([answer, answer, answer], 3) == [Failed(e), Failed(e), Failed(e)];
    ThreeFailures(e);
  }

  /** A link and a line feed, trimmed, is the link; it is its own first line. */
  lemma LinkLine(link: string)
    requires link != [] && !IsSpace(link[0]) && !IsSpace(link[|link| - 1]) && '\n' !in link
    requires StartsWith(link, "http")
    ensures Classify(Status(200, link + "\n")) == Succeeded(link)
  {
    assert Trim(link + "\n") == link by {
      assert AllSpace("\n");
      TrimPadded("", link, "\n");
      assert "" + link + "\n" == link + "\n";
    }
    FirstLineTrailing(link);
    ClassifyLink(link + "\n");
  }

  /** A network error, then a 500, then the link: three attempts with waits of 1 and 2 seconds. */
  lemma TwoFailuresThenSuccess(link: string)
    requires link != [] && !IsSpace(link[0]) && !IsSpace(link[|link| - 1]) && '\n' !in link
    requires StartsWith(link, "http")
    ensures RetrySpec([NetworkError, Status(500, ""), Status(200, link + "\n")], 3) == Run(3, [1000, 2000], Uploaded(link))
  {
    var transport := [NetworkError, Status(500, ""), Status(200, link + "\n")];
    var e2 := "Server returned status " + FormatInt(500);
    LinkLine(link);
    assert Verdicts(transport, 3) == [Failed(NetworkErrorMessage), Failed(e2), Succeeded(link)];
    FailFailSucceed(NetworkErrorMessage, e2, link);
  }

  /** A line with no line feed is its own first line. */
  lemma FirstLineTrailing(line: string)
    requires '\n' !in line
    ensures FirstLine(line) == line
  {
  }

  /** One pass of the loop's `try` block: read the answer to one attempt. */
  method ReadOutcome(outcome: Outcome) returns (verdict: Attempt)
    ensures verdict == Classify(outcome)
  {
    match outcome {
      case Status(code, body) =>
        if code == 200 {
          var responseUrl := Trim(body);
          if StartsWith(responseUrl, "http") {
            return Succeeded(FirstLine(responseUrl));
          }
          verdict := Failed(UnexpectedResponse);
        } else if code == 401 {
          verdict := Unauthorized;
        } else {
          verdict := Failed("Server returned status " + FormatInt(code));
        }
      case NetworkError =>
        verdict := Failed(NetworkErrorMessage);
    }
  }

  /** The loop shared by `uploadSimpleFile` and `uploadText`. */
  method RetryLoop(transport: seq<Outcome>, maxRetries: nat) returns (run: Run)
    requires maxRetries >= 1
    ensures run == RetrySpec(transport, maxRetries)
  {
    ghost var verdicts := Verdicts(transport, maxRetries);
    var lastError := "";
    var delays: seq<nat> := [];
    var attempt := 1;
    assert [] + RetryFrom(verdicts, 1, "").delays == RetryFrom(verdicts, 1, "").delays;
    while attempt <= maxRetries
      invariant 1 <= attempt <= maxRetries + 1
      invariant RetrySpec(transport, maxRetries) == Resume(verdicts, attempt, lastError, delays)
      decreases maxRetries + 1 - attempt
    {
      var verdict := ReadOutcome(OutcomeAt(transport, attempt));
      assert verdict == verdicts[attempt - 1];
      ResumeAtDecision(verdicts, attempt, lastError, delays);
      match verdict {
        case Succeeded(url) =>
          return Run(attempt, delays, Uploaded(url));
        case Unauthorized =>
          return Run(attempt, delays, PasswordRejected);
        case Failed(e) =>
          ResumeAfterFailure(verdicts, attempt, lastError, delays);
          lastError := e;
      }
      if attempt < maxRetries {
        delays := delays + [Pow2(attempt - 1) * 1000];
      }
      attempt := attempt + 1;
    }
    assert delays + [] == delays;
    run := Run(maxRetries, delays, GaveUp(lastError));
  }

  // ---------------------------------------------------------------------
  // The page
  // ---------------------------------------------------------------------

  /** An entry of the page's `uploadedFiles` list. */
  datatype UploadedFile = UploadedFile(name: string, url: string, passwordProtected: bool)

  /** How a submission ends: refused before any request, or sent with the loop's run. */
  datatype Submission = Refused(reason: Refusal) | Sent(request: UploadRequest, run: Run)

  class UploadPage {
    /** The global `uploadedFiles` array. */
    var uploadedFiles: seq<UploadedFile>
    /** The `data-expiration-seconds` attribute of the set-expiration button, `None` until it is set. */
    var expirationSeconds: Option<int>

    constructor ()
      ensures uploadedFiles == [] && expirationSeconds == None
    {
      uploadedFiles := [];
      expirationSeconds := None;
    }

    /** The set-expiration click: a positive value is stored as value × unit seconds; anything else changes nothing. */
    method SetExpiration(value: Option<int>, unit: string)
      modifies this
      ensures uploadedFiles == old(uploadedFiles)
      ensures value.Some? && value.value > 0 ==> expirationSeconds == Some(value.value * UnitSeconds(unit))
      ensures !(value.Some? && value.value > 0) ==> expirationSeconds == old(expirationSeconds)
    {
      if value.Some? && value.value > 0 {
        var seconds := 0;
        if unit == "seconds" {
          seconds := value.value;
        } else if unit == "minutes" {
          seconds := value.value * 60;
        } else if unit == "hours" {
          seconds := value.value * 3600;
        } else if unit == "days" {
          seconds := value.value * 86400;
        }
        expirationSeconds := Some(seconds);
      }
    }

    /** `uploadSimpleFile`: the loop, then one `uploadedFiles` entry for a success and none otherwise. */
    method UploadSimpleFile(form: Form, file: FileInput, transport: seq<Outcome>, maxRetries: nat)
      returns (request: UploadRequest, run: Run)
      requires maxRetries >= 1
      modifies this
      ensures request == FileRequest(form, old(expirationSeconds), file)
      ensures run == RetrySpec(transport, maxRetries)
      ensures expirationSeconds == old(expirationSeconds)
      ensures uploadedFiles == old(uploadedFiles)
                + (if run.result.Uploaded? then [UploadedFile(file.name, run.result.url, form.usePassword)] else [])
    {
      request := FileRequest(form, expirationSeconds, file);
      run := RetryLoop(transport, maxRetries);
      if run.result.Uploaded? {
        uploadedFiles := uploadedFiles + [UploadedFile(file.name, run.result.url, form.usePassword)];
      }
    }

    /** `uploadText`: as for a file, recorded under the name `text.txt`. */
    method UploadText(form: Form, text: string, transport: seq<Outcome>, maxRetries: nat)
      returns (request: UploadRequest, run: Run)
      requires maxRetries >= 1
      modifies this
      ensures request == TextRequest(form, old(expirationSeconds), text)
      ensures run == RetrySpec(transport, maxRetries)
      ensures expirationSeconds == old(expirationSeconds)
      ensures uploadedFiles == old(uploadedFiles)
                + (if run.result.Uploaded? then [UploadedFile("text.txt", run.result.url, form.usePassword)] else [])
    {
      request := TextRequest(form, expirationSeconds, text);
      run := RetryLoop(transport, maxRetries);
      if run.result.Uploaded? {
        uploadedFiles := uploadedFiles + [UploadedFile("text.txt", run.result.url, form.usePassword)];
      }
    }

    /** `uploadFile`: refuse, or send with three attempts. */
    method UploadFile(config: Option<ServerConfig>, form: Form, file: FileInput, transport: seq<Outcome>)
      returns (submission: Submission)
      modifies this
      ensures FileRefusal(config, form, file).Some? ==>
                submission == Refused(FileRefusal(config, form, file).value) && uploadedFiles == old(uploadedFiles)
      ensures FileRefusal(config, form, file).None? ==>
                submission == Sent(FileRequest(form, old(expirationSeconds), file), RetrySpec(transport, 3))
      ensures submission.Sent? && submission.run.result.Uploaded? ==>
                uploadedFiles == old(uploadedFiles) + [UploadedFile(file.name, submission.run.result.url, form.usePassword)]
      ensures !(submission.Sent? && submission.run.result.Uploaded?) ==> uploadedFiles == old(uploadedFiles)
      ensures expirationSeconds == old(expirationSeconds)
    {
      var refusal := FileRefusal(config, form, file);
      if refusal.Some? {
        return Refused(refusal.value);
      }
      var request, run := UploadSimpleFile(form, file, transport, 3);
      submission := Sent(request, run);
    }

    /** `handleTextUpload`: trim, refuse, or send the trimmed text with three attempts. */
    method HandleTextUpload(config: Option<ServerConfig>, form: Form, input: string, transport: seq<Outcome>)
      returns (submission: Submission)
      modifies this
      ensures TextRefusal(config, form, input).Some? ==>
                submission == Refused(TextRefusal(config, form, input).value) && uploadedFiles == old(uploadedFiles)
      ensures TextRefusal(config, form, input).None? ==>
                submission == Sent(TextRequest(form, old(expirationSeconds), Trim(input)), RetrySpec(transport, 3))
      ensures submission.Sent? && submission.run.result.Uploaded? ==>
                uploadedFiles == old(uploadedFiles) + [UploadedFile("text.txt", submission.run.result.url, form.usePassword)]
      ensures !(submission.Sent? && submission.run.result.Uploaded?) ==> uploadedFiles == old(uploadedFiles)
      ensures expirationSeconds == old(expirationSeconds)
    {
      var text := Trim(input);
      var refusal := TextRefusal(config, form, input);
      if refusal.Some? {
        return Refused(refusal.value);
      }
      var request, run := UploadText(form, text, transport, 3);
      submission := Sent(request, run);
    }
  }
}
