/**
 * The Go storage gateway (docker/go/main.go): an HTTP handler over an S3/R2
 * bucket. The bucket is a map from key to object; the clock, the random
 * draws, the store's failures and the short-link service are supplied per
 * request in `Env`; Base64 decoding and the MIME library are functions held
 * in `Config`.
 *
 * Each handler is specified by a pure function returning the response and
 * the new bucket (`ServeSpec`, `RequestSpec`, `GetFileSpec`, `DownloadSpec`,
 * `UploadSpec`); the `Gateway` class performs the same steps on its
 * `bucket` field.
 */
module GoGateway {
  import opened Wrappers
  import opened Text
  import opened Decimal
  import opened Keys
  import opened Http

  /** An object as HeadObject/GetObject report it: Content-Type, user metadata, LastModified (seconds) and the bytes. */
  datatype StoredObject = StoredObject(contentType: Option<string>, metadata: map<string, string>, lastModified: int, content: Blob)

  type Bucket = map<string, StoredObject>

  /** The user-metadata keys as the S3 SDK reports them back. */
  const UploadtimeKey := "Uploadtime"
  const OnetimeKey := "Onetime"
  const ExpirationtimeKey := "Expirationtime"
  const ExpirationsecondsKey := "Expirationseconds"

  /**
   * Process-wide settings read at start-up (`password`, `maxUploadSize`,
   * `maxAge`, `maxAgeForMultiDownload`, `enableShortURL`) and the library
   * calls the model cannot see: `base64.StdEncoding.DecodeString`,
   * `mimetype.Lookup(name)` (its `String()`, `None` for nil) and
   * `mimetype.Lookup(contentType)` (its `Extension()`, `None` for nil).
   */
  datatype Config = Config(
    password: string,
    maxUploadSize: int,
    maxAge: int,
    maxAgeForMultiDownload: int,
    enableShortURL: bool,
    base64Decode: string -> Option<string>,
    mimeByName: string -> Option<string>,
    extensionFor: string -> Option<string>)

  /** A request; a header that is absent reads as "", as `Header.Get` returns it. */
  datatype Request = Request(
    verb: string,
    path: string,
    host: string,
    tls: bool,
    contentLength: int,
    authorization: string,
    contentType: string,
    expirationSeconds: string,
    userAgent: string,
    body: Blob)

  /**
   * What the world supplies to one request: the current second, the six
   * random draws, the store's error message if the put or get fails, and
   * the short-link service's answer (`None` when it fails).
   */
  datatype Env = Env(now: int, draws: seq<nat>, storeError: Option<string>, shortURL: Option<string>)

  /**
   * A handler's outcome: the response and the bucket afterwards, or a
   * handler that panicked, which net/http answers by closing the
   * connection without a response.
   */
  datatype Step = Step(response: Response, bucket: Bucket) | Dropped(bucket: Bucket)

  /** The step answered with this status. */
  predicate Answers(s: Step, status: int) {
    s.Step? && s.response.status == status
  }

  /** The step a handler method's answer makes: `None` is a dropped connection. */
  function Outcome(resp: Option<Response>, bucket: Bucket): Step {
    if resp.Some? then Step(resp.value, bucket) else Dropped(bucket)
  }

  // ---------------------------------------------------------------------
  // Time. Go stores instants as RFC 3339 text; here an instant is a whole
  // second and its text is the decimal numeral, which reads back exactly.
  // ---------------------------------------------------------------------

  function FormatTime(t: int): string {
    FormatInt(t)
  }

  function ParseTime(s: string): Option<int> {
    ParseInt64(s)
  }

  /** A stored instant reads back as itself. */
  lemma ParseFormatTime(t: int)
    ensures IsInt64(t) ==> ParseTime(FormatTime(t)) == Some(t)
  {
    if IsInt64(t) {
      ParseFormatInt(t);
    }
  }

  /** `time.Time{}`, the value `time.Parse` leaves behind on failure, as seconds since 1970. */
  const GoZeroTime: int := -62135596800

  // ---------------------------------------------------------------------
  // Helpers: checkPassword, parseInt64, formatBytes, generateRandomID
  // ---------------------------------------------------------------------

  const BasicPrefix := "Basic "

  /** The part of a decoded `user:password` pair after its first colon (`SplitN(d, ":", 2)[1]`). */
  function CredentialPassword(decoded: string): (r: Option<string>)
    ensures r.None? <==> ':' !in decoded
    ensures r.Some? ==> |r.value| < |decoded| && decoded == decoded[..|decoded| - |r.value| - 1] + ":" + r.value
    ensures r.Some? ==> ':' !in decoded[..|decoded| - |r.value| - 1]
  {
    match IndexOf(decoded, ':')
    case None => None
    case Some(i) =>
      assert decoded == decoded[..i] + ":" + decoded[i + 1..];
      Some(decoded[i + 1..])
  }

  /**
   * `checkPassword`: a lax HTTP Basic check (section 2 of RFC 7617). With no
   * password configured everything passes; an empty header fails; a
   * `Basic ` header whose payload decodes (Base64, section 4 of RFC 4648)
   * to text holding a colon passes exactly when the text after the first
   * colon is the password; a payload that does not decode fails; any other
   * header passes exactly when it is the password itself.
   */
  function CheckPassword(password: string, decode: string -> Option<string>, auth: string): (ok: bool)
    ensures password == "" ==> ok
    ensures password != "" && auth == "" ==> !ok
    ensures password != "" && !StartsWith(auth, BasicPrefix) ==> (ok <==> auth == password)
    ensures password != "" && StartsWith(auth, BasicPrefix) && decode(auth[|BasicPrefix|..]).None? ==> !ok
    ensures (password != "" && StartsWith(auth, BasicPrefix) && decode(auth[|BasicPrefix|..]).Some?
             && ':' in decode(auth[|BasicPrefix|..]).value)
            ==> (ok <==> CredentialPassword(decode(auth[|BasicPrefix|..]).value) == Some(password))
    ensures (password != "" && StartsWith(auth, BasicPrefix) && decode(auth[|BasicPrefix|..]).Some?
             && ':' !in decode(auth[|BasicPrefix|..]).value)
            ==> (ok <==> auth == password)
  {
    if password == "" then true
    else if auth == "" then false
    else if StartsWith(auth, BasicPrefix) then
      match decode(auth[|BasicPrefix|..])
      case None => false
      case Some(decoded) =>
        match CredentialPassword(decoded)
        case Some(p) => p == password
        case None => auth == password
    else auth == password
  }

  /** Browser Basic authentication with the right password passes, whatever the user name. */
  lemma BasicCredentialAccepted(password: string, decode: string -> Option<string>, user: string, payload: string)
    requires ':' !in user
    requires decode(payload) == Some(user + ":" + password)
    ensures CheckPassword(password, decode, BasicPrefix + payload)
  {
    assert (BasicPrefix + payload)[|BasicPrefix|..] == payload;
    assert user + ":" + password == user + [':'] + password;
    IndexOfAfter(user, ':', password);
  }

  /** A header that passes shows the password: verbatim, or after the colon of a decoded Basic payload. */
  lemma AcceptedHeaderCarriesPassword(password: string, decode: string -> Option<string>, auth: string)
    requires password != ""
    requires CheckPassword(password, decode, auth)
    ensures auth == password
            || (StartsWith(auth, BasicPrefix) && decode(auth[|BasicPrefix|..]).Some?
                && CredentialPassword(decode(auth[|BasicPrefix|..]).value) == Some(password))
  {
  }

  /** `parseInt64`: the value of a valid base-10 int64 text, else `default` (also for ""). */
  function ParseInt64OrDefault(s: string, default: int): (r: int)
    ensures s == "" ==> r == default
    ensures s != "" && ParseInt64(s).Some? ==> r == ParseInt64(s).value
    ensures r != default ==> ParseInt64(s) == Some(r)
    ensures ParseInt64(s).None? ==> r == default
  {
    if s == "" then default
    else
      match ParseInt64(s)
      case None => default
      case Some(v) => v
  }

  /** A setting written as the decimal text of an int64 is read as that number. */
  lemma ParseInt64OrDefaultOfText(n: int, default: int)
    requires IsInt64(n)
    ensures ParseInt64OrDefault(FormatInt(n), default) == n
  {
    ParseFormatInt(n);
  }

  const SizeUnits: seq<string> := ["B", "KB", "MB", "GB", "TB"]

  function Pow1024(k: nat): (p: nat)
    ensures p >= 1
  {
    if k == 0 then 1 else 1024 * Pow1024(k - 1)
  }

  /**
   * `formatBytes` without its `%.2f` rendering: either the plain byte count,
   * or the divisor and the index into `SizeUnits` it picked, or the index it
   * picked beyond the end of `SizeUnits` (where Go panics).
   */
  datatype ByteSize = Plain(bytes: int) | Scaled(divisor: nat, unitIndex: nat, unit: string) | IndexOutOfRange(unitIndex: nat)

  /** Multiplying by a natural number keeps the order. */
  lemma MulLe(k: nat, x: int, y: int)
    requires x <= y
    ensures k * x <= k * y
  {
  }

  /** One turn of `formatBytes`'s loop keeps `n` the quotient of `bytes` by `div`. */
  lemma ScaleStep(div: nat, n: nat, bytes: int)
    requires n >= 1024
    requires div * n <= bytes < div * (n + 1)
    ensures n / 1024 >= 1
    ensures (div * 1024) * (n / 1024) <= bytes < (div * 1024) * (n / 1024 + 1)
  {
    var q, r := n / 1024, n % 1024;
    assert n == 1024 * q + r && q >= 1;
    MulLe(div, 1024 * q, n);
    MulLe(div, n + 1, 1024 * (q + 1));
    assert div * (1024 * q) == (div * 1024) * q;
    assert div * (1024 * (q + 1)) == (div * 1024) * (q + 1);
  }

  /** When the loop stops, `div` is the largest power of 1024 not above `bytes`. */
  lemma ScaleBounds(div: nat, n: nat, bytes: int)
    requires 1 <= n < 1024
    requires div * n <= bytes < div * (n + 1)
    ensures div <= bytes < div * 1024
  {
    MulLe(div, 1, n);
    MulLe(div, n + 1, 1024);
  }

  /** `formatBytes`'s unit selection: `1024^(exp+1) <= bytes < 1024^(exp+2)` picks `sizes[exp+1]`. */
  method FormatBytes(bytes: int) returns (size: ByteSize)
    ensures bytes < 1024 <==> size.Plain?
    ensures size.Plain? ==> size.bytes == bytes
    ensures size.Scaled? ==> 1 <= size.unitIndex < |SizeUnits| && size.unit == SizeUnits[size.unitIndex]
                             && size.divisor == Pow1024(size.unitIndex)
                             && size.divisor <= bytes < size.divisor * 1024
    ensures size.IndexOutOfRange? <==> bytes >= Pow1024(|SizeUnits|)
    ensures size.IndexOutOfRange? ==> Pow1024(size.unitIndex) <= bytes < Pow1024(size.unitIndex) * 1024
  {
    if bytes < 1024 {
      return Plain(bytes);
    }
    var div: nat, exp: nat := 1024, 0;
    var n: nat := bytes / 1024;
    while n >= 1024
      invariant div == Pow1024(exp + 1)
      invariant n >= 1
      invariant div * n <= bytes < div * (n + 1)
      decreases n
    {
      ScaleStep(div, n, bytes);
      div := div * 1024;
      exp := exp + 1;
      n := n / 1024;
    }
    ScaleBounds(div, n, bytes);
    if exp + 1 < |SizeUnits| {
      size := Scaled(div, exp + 1, SizeUnits[exp + 1]);
      if bytes >= Pow1024(|SizeUnits|) {
        PowMonotone(exp + 2, |SizeUnits|);
      }
    } else {
      PowMonotone(|SizeUnits|, exp + 1);
      size := IndexOutOfRange(exp + 1);
    }
  }

  lemma {:induction false} PowMonotone(i: nat, j: nat)
    requires i <= j
    ensures Pow1024(i) <= Pow1024(j)
  {
    if i < j {
      PowMonotone(i, j - 1);
    }
  }

  /** `generateRandomID`: fills a six-byte buffer with the drawn characters. */
  method GenerateRandomID(draws: seq<nat>) returns (id: string)
    requires ValidDraws(draws)
    ensures id == Token(draws)
  {
    var result := new char[TokenLength];
    for i := 0 to TokenLength
      invariant forall j | 0 <= j < i :: result[j] == Chars[draws[j]]
    {
      result[i] := Chars[draws[i]];
    }
    id := result[..];
  }

  // ---------------------------------------------------------------------
  // Upload decisions
  // ---------------------------------------------------------------------

  /** Expiring mode: the `X-Expiration-Seconds` header is a base-10 int64 greater than zero. */
  function RequestedExpiration(header: string): (r: Option<int>)
    ensures r.Some? ==> 0 < r.value <= Int64Max
    ensures r.Some? <==> ParseInt64(header).Some? && ParseInt64(header).value > 0
    ensures r.Some? ==> r.value == ParseInt64(header).value
  {
    if header != "" then
      match ParseInt64(header)
      case Some(s) => if s > 0 then Some(s) else None
      case None => None
    else None
  }

  /** Any positive int64 sent as its decimal text selects expiring mode with that many seconds. */
  lemma RequestedExpirationOfText(seconds: int)
    requires 0 < seconds <= Int64Max
    ensures RequestedExpiration(FormatInt(seconds)) == Some(seconds)
  {
    ParseFormatInt(seconds);
  }

  /** The instant an expiring upload lapses: `seconds` after the upload. */
  function ExpirationTime(now: int, seconds: int): (t: int)
    requires seconds > 0
    ensures t > now && t - now == seconds
  {
    now + seconds
  }

  const NanosPerSecond: int := 1_000_000_000

  /** Go's signed 64-bit wrap-around. */
  function WrapInt64(x: int): (r: int)
    ensures IsInt64(r)
    ensures IsInt64(x) ==> r == x
  {
    (x - Int64Min) % 0x1_0000_0000_0000_0000 + Int64Min
  }

  /**
   * The expiry the code as written stores: `time.Duration(s) * time.Second`
   * is an int64 count of nanoseconds that wraps around, and the RFC 3339
   * text keeps the whole second (the floor).
   */
  function ExpirationTimeAsWritten(now: int, seconds: int): int {
    now + WrapInt64(seconds * NanosPerSecond) / NanosPerSecond
  }

  /** Up to about 292 years the code computes the intended instant. */
  lemma AsWrittenAgreesWithoutOverflow(now: int, seconds: int)
    requires 0 < seconds && seconds * NanosPerSecond <= Int64Max
    ensures ExpirationTimeAsWritten(now, seconds) == ExpirationTime(now, seconds)
  {
  }

  /** The wrapped nanosecond count for 9223372037 seconds, and its floor in seconds. */
  lemma WrappedDuration()
    ensures WrapInt64(9223372037 * NanosPerSecond) / NanosPerSecond == -9223372037
  {
    var x := 9223372037 * NanosPerSecond;
    assert x - Int64Min == 0x1_0000_0000_0000_0000 + 145224192;
    assert (x - Int64Min) % 0x1_0000_0000_0000_0000 == 145224192;
    var w := WrapInt64(x);
    assert w == -9223372036709551616;
    assert w == NanosPerSecond * -9223372037 + 290448384;
  }

  /** `X-Expiration-Seconds: 9223372037` is accepted and stores an expiry about 292 years before the upload. */
  lemma AsWrittenExpiresBeforeUpload(now: int)
    ensures RequestedExpiration(FormatInt(9223372037)) == Some(9223372037)
    ensures ExpirationTimeAsWritten(now, 9223372037) == now - 9223372037
    ensures ExpirationTimeAsWritten(now, 9223372037) < now
  {
    RequestedExpirationOfText(9223372037);
    WrappedDuration();
  }

  /** The content type stored with an upload: text for POST, else the header or the octet-stream default. */
  function StoredContentType(req: Request): (ct: string)
    ensures req.verb == "POST" ==> ct == TextPlain
    ensures req.verb != "POST" ==> ct == (if req.contentType == "" then OctetStream else req.contentType)
  {
    if req.verb == "POST" then TextPlain
    else if req.contentType == "" then OctetStream
    else req.contentType
  }

  /**
   * The key's extension: `.txt` for POST, else the MIME library's extension
   * for the stored type; `None` when `Lookup` knows no such type, where the
   * source calls `Extension()` on nil and panics.
   */
  function UploadExtension(cfg: Config, req: Request): (ext: Option<string>)
    ensures req.verb == "POST" ==> ext == Some(".txt")
    ensures req.verb != "POST" ==> ext == cfg.extensionFor(StoredContentType(req))
  {
    if req.verb == "POST" then Some(".txt") else cfg.extensionFor(StoredContentType(req))
  }

  /** The key: the random token, then `.txt` for POST or the MIME library's extension for the content type. */
  function UploadKey(cfg: Config, req: Request, draws: seq<nat>): (key: string)
    requires ValidDraws(draws) && UploadExtension(cfg, req).Some?
    ensures |key| >= TokenLength && IsToken(key[..TokenLength])
    ensures key[..TokenLength] == Token(draws)
    ensures req.verb == "POST" ==> key == Token(draws) + ".txt"
    ensures req.verb != "POST" ==> key == Token(draws) + cfg.extensionFor(StoredContentType(req)).value
  {
    var ext := UploadExtension(cfg, req).value;
    var key := Token(draws) + ext;
    assert key[..TokenLength] == Token(draws);
    key
  }

  /** The metadata an upload attaches. */
  function UploadMetadata(now: int, expiration: Option<int>): (md: map<string, string>)
    requires expiration.Some? ==> expiration.value > 0
    ensures UploadtimeKey in md && OnetimeKey in md
    ensures IsInt64(now) ==> ParseTime(md[UploadtimeKey]) == Some(now)
    ensures md[OnetimeKey] == "true" <==> expiration.None?
    ensures expiration.None? ==> md.Keys == {UploadtimeKey, OnetimeKey}
    ensures expiration.Some? ==> md.Keys == {UploadtimeKey, OnetimeKey, ExpirationtimeKey, ExpirationsecondsKey}
    ensures expiration.Some? ==> md[ExpirationsecondsKey] == FormatInt(expiration.value)
    ensures expiration.Some? ==> md[ExpirationtimeKey] == FormatTime(ExpirationTime(now, expiration.value))
    ensures (expiration.Some? && IsInt64(ExpirationTime(now, expiration.value)))
            ==> ParseTime(md[ExpirationtimeKey]) == Some(ExpirationTime(now, expiration.value))
  {
    ParseFormatTime(now);
    match expiration
    case None =>
      map[UploadtimeKey := FormatTime(now), OnetimeKey := "true"]
    case Some(s) =>
      ParseFormatTime(ExpirationTime(now, s));
      map[UploadtimeKey := FormatTime(now), OnetimeKey := "false",
          ExpirationtimeKey := FormatTime(ExpirationTime(now, s)),
          ExpirationsecondsKey := FormatInt(s)]
  }

  /** The object an accepted upload stores. */
  function NewObject(req: Request, env: Env): StoredObject {
    var expiration := RequestedExpiration(req.expirationSeconds);
    StoredObject(Some(StoredContentType(req)), UploadMetadata(env.now, expiration), env.now, req.body)
  }

  /** `scheme://host/key`, the scheme being `https` exactly when the request came over TLS. */
  function FileURL(req: Request, key: string): (url: string)
    ensures url == (if req.tls then "https" else "http") + "://" + req.host + "/" + key
    ensures StartsWith(url, "http")
  {
    (if req.tls then "https" else "http") + "://" + req.host + "/" + key
  }

  /** The link shown: the short link when one was asked for and the service gave a non-empty one. */
  function ShownURL(cfg: Config, req: Request, key: string, env: Env, forceShortURL: bool): (url: string)
    ensures (forceShortURL || cfg.enableShortURL) && env.shortURL.Some? && env.shortURL.value != "" ==> url == env.shortURL.value
    ensures !(forceShortURL || cfg.enableShortURL) ==> url == FileURL(req, key)
    ensures env.shortURL.None? || env.shortURL == Some("") ==> url == FileURL(req, key)
    ensures url != FileURL(req, key) ==> env.shortURL.Some? && url == env.shortURL.value
  {
    if (forceShortURL || cfg.enableShortURL) && env.shortURL.Some? && env.shortURL.value != "" then env.shortURL.value
    else FileURL(req, key)
  }

  /** `hours = s / 3600` and `minutes = (s % 3600) / 60`: whole hours, then whole minutes of the rest. */
  function HoursMinutes(seconds: int): (hm: (nat, nat))
    requires seconds > 0
    ensures hm.1 < 60
    ensures hm.0 * 3600 + hm.1 * 60 <= seconds < hm.0 * 3600 + hm.1 * 60 + 60
  {
    (seconds / 3600, (seconds % 3600) / 60)
  }

  /** The duration as the response spells it: `<h>小时<m>分钟`, the minutes only when non-zero, the hours only when non-zero. */
  function ExpirationText(seconds: int): (text: string)
    requires seconds > 0
    ensures seconds < 60 ==> text == "0分钟"
    ensures seconds < 3600 ==> text == FormatNat(seconds / 60) + "分钟"
    ensures seconds >= 3600 && seconds % 3600 < 60 ==> text == FormatNat(seconds / 3600) + "小时"
    ensures (seconds >= 3600 && seconds % 3600 >= 60)
            ==> text == FormatNat(seconds / 3600) + "小时" + FormatNat((seconds % 3600) / 60) + "分钟"
  {
    var (hours, minutes) := HoursMinutes(seconds);
    if hours > 0 then
      FormatInt(hours) + "小时" + (if minutes > 0 then FormatInt(minutes) + "分钟" else "")
    else
      FormatInt(minutes) + "分钟"
  }

  /** The notice under the link: how long an expiring upload lives, or the one-time warning. */
  function UploadNotice(expiration: Option<int>): (notice: string)
    requires expiration.Some? ==> expiration.value > 0
    ensures notice != [] && !IsSpace(notice[0]) && !IsSpace(notice[|notice| - 1])
    ensures expiration.Some? ==> StartsWith(notice, "🕐 注意：此文件将在 " + ExpirationText(expiration.value))
  {
    match expiration
    case Some(s) =>
      var duration := ExpirationText(s);
      var head := "🕐 注意：此文件将在 " + duration;
      var notice := head + " 后过期，期间可以多次下载。\n   Note: This file will expire after "
                    + duration + " and can be downloaded multiple times.";
      assert notice[..|head|] == head;
      notice
    case None =>
      var sign := "⚠️";
      var notice := sign + "  注意：此文件只能下载一次，下载后将自动删除！\n   Note: This file can only be downloaded once" + "!";
      assert notice[0] == sign[0];
      notice
  }

  /**
   * The body of a successful upload: two blank lines, the link, a blank
   * line, the notice and a line feed. Trimmed, it starts with the link,
   * which is the whole of its first line.
   */
  function UploadResponseText(url: string, expiration: Option<int>): (text: string)
    requires expiration.Some? ==> expiration.value > 0
    ensures url != [] && !IsSpace(url[0]) ==> Trim(text) == url + "\n\n" + UploadNotice(expiration)
    ensures url != [] && !IsSpace(url[0]) && '\n' !in url ==> FirstLine(Trim(text)) == url
  {
    var notice := UploadNotice(expiration);
    PaddedLink(url, notice);
    FirstLineBeforeBlank(url, notice);
    "\n\n" + url + "\n\n" + notice + "\n"
  }

  /** Trimming the padded body leaves the link and the notice. */
  lemma PaddedLink(url: string, notice: string)
    requires notice != [] && !IsSpace(notice[|notice| - 1])
    ensures url != [] && !IsSpace(url[0]) ==>
              Trim("\n\n" + url + "\n\n" + notice + "\n") == url + "\n\n" + notice
  {
    if url != [] && !IsSpace(url[0]) {
      var body := url + "\n\n" + notice;
      assert "\n\n" + url + "\n\n" + notice + "\n" == "\n\n" + body + "\n";
      TrimPadded("\n\n", body, "\n");
    }
  }

  /** `http.Error`: plain text, `nosniff`, the message and a line feed; `extra` holds headers set beforehand. */
  function ErrorResponse(status: int, message: string, extra: map<string, string>): (r: Response)
    ensures r.status == status && r.body == Text(message + "\n")
  {
    Response(status, extra + map["Content-Type" := TextPlain, "X-Content-Type-Options" := "nosniff"], Text(message + "\n"))
  }

  /** The 413 message; the maximum size it names is rendered with `%.2f`, which is not modelled. */
  const TooLargeMessage := "Upload failed: file too large."

  /** The mode header of a successful upload. */
  function OneTimeUploadHeader(expiration: Option<int>): string {
    if expiration.Some? then "false" else "true"
  }

  /** A password is configured and the request does not pass `checkPassword`. */
  predicate PasswordRefused(cfg: Config, req: Request) {
    cfg.password != "" && !CheckPassword(cfg.password, cfg.base64Decode, req.authorization)
  }

  /**
   * `handleUpload` (with `forceShortURL` for the `/short` route): 401, then
   * 413, then a dropped connection for a PUT type the MIME library does not
   * know, then 500 when the put fails, else 200 with the object stored.
   */
  function UploadSpec(cfg: Config, bucket: Bucket, req: Request, env: Env, forceShortURL: bool): (s: Step)
    requires ValidDraws(env.draws)
    ensures s.Step? ==> s.response.status in {200, 401, 413, 500}
    ensures Answers(s, 401) <==> PasswordRefused(cfg, req)
    ensures Answers(s, 413) <==> !PasswordRefused(cfg, req) && req.contentLength > cfg.maxUploadSize
    ensures s.Dropped? <==>
              !PasswordRefused(cfg, req) && req.contentLength <= cfg.maxUploadSize && UploadExtension(cfg, req).None?
    ensures s.Dropped? ==> req.verb != "POST" && s.bucket == bucket
    ensures !Answers(s, 200) ==> s.bucket == bucket
    ensures Answers(s, 200) <==>
              !PasswordRefused(cfg, req) && req.contentLength <= cfg.maxUploadSize
              && UploadExtension(cfg, req).Some? && env.storeError.None?
    ensures Answers(s, 200) ==> s.bucket == bucket[UploadKey(cfg, req, env.draws) := NewObject(req, env)]
  {
    if PasswordRefused(cfg, req) then
      Step(ErrorResponse(401, "Unauthorized", map[]), bucket)
    else if req.contentLength > cfg.maxUploadSize then
      Step(ErrorResponse(413, TooLargeMessage, map[]), bucket)
    else if UploadExtension(cfg, req).None? then
      Dropped(bucket)
    else if env.storeError.Some? then
      Step(ErrorResponse(500, "Upload failed: " + env.storeError.value, map[]), bucket)
    else
      Step(UploadedResponse(cfg, req, env, forceShortURL), bucket[UploadKey(cfg, req, env.draws) := NewObject(req, env)])
  }

  /** The 200 answer to an upload: the shown link and the mode notice, with the mode header. */
  function UploadedResponse(cfg: Config, req: Request, env: Env, forceShortURL: bool): (r: Response)
    requires ValidDraws(env.draws) && UploadExtension(cfg, req).Some?
    ensures r.status == 200 && "X-One-Time-Upload" in r.headers
    ensures r.headers["X-One-Time-Upload"] == "true" <==> RequestedExpiration(req.expirationSeconds).None?
  {
    var expiration := RequestedExpiration(req.expirationSeconds);
    var url := ShownURL(cfg, req, UploadKey(cfg, req, env.draws), env, forceShortURL);
    var headers := map["Content-Type" := TextPlain, "X-One-Time-Upload" := OneTimeUploadHeader(expiration)];
    Response(200, headers, Text(UploadResponseText(url, expiration)))
  }

  // ---------------------------------------------------------------------
  // Download decisions
  // ---------------------------------------------------------------------

  /** One-time unless the `Onetime` metadata is present and not "true". */
  predicate IsOneTime(md: map<string, string>) {
    OnetimeKey !in md || md[OnetimeKey] == "true"
  }

  /** The stored `Expirationtime` parses and `now` is strictly after it. */
  predicate Expired(md: map<string, string>, now: int) {
    && ExpirationtimeKey in md
    && ParseTime(md[ExpirationtimeKey]).Some?
    && now > ParseTime(md[ExpirationtimeKey]).value
  }

  /** Content-Type precedence: the name-based lookup, then the stored type, then octet-stream. */
  function ContentTypeFor(byName: Option<string>, stored: Option<string>): (ct: string)
    ensures byName.Some? ==> ct == byName.value
    ensures byName.None? && stored.Some? ==> ct == stored.value
    ensures byName.None? && stored.None? ==> ct == OctetStream
  {
    byName.GetOr(stored.GetOr(OctetStream))
  }

  /** The headers of a served download. */
  function DownloadHeaders(contentType: string, md: map<string, string>): (h: map<string, string>)
    ensures "Content-Type" in h && h["Content-Type"] == contentType
    ensures IsOneTime(md) ==> "X-One-Time-Download" in h && h["X-One-Time-Download"] == "true" && "X-Expiration-Download" !in h
    ensures !IsOneTime(md) ==> "X-Expiration-Download" in h && h["X-Expiration-Download"] == "true" && "X-One-Time-Download" !in h
    ensures ExpirationtimeKey in md && !IsOneTime(md) ==> "X-Expiration-Time" in h && h["X-Expiration-Time"] == md[ExpirationtimeKey]
    ensures forall k | k in NoCacheHeaders :: k in h && h[k] == NoCacheHeaders[k]
  {
    var base := NoCacheHeaders["Content-Type" := contentType];
    if IsOneTime(md) then base["X-One-Time-Download" := "true"]
    else if ExpirationtimeKey in md then
      base["X-Expiration-Download" := "true"]["X-Expiration-Time" := md[ExpirationtimeKey]]
    else base["X-Expiration-Download" := "true"]
  }

  /** `downloadFile`. */
  function DownloadSpec(cfg: Config, bucket: Bucket, name: string, env: Env): (s: Step)
    ensures s.Step?
    ensures s.bucket == bucket || s.bucket == bucket - {name}
    ensures name !in bucket ==> s.response.status == 404 && s.bucket == bucket
    ensures (name in bucket && Expired(bucket[name].metadata, env.now))
            ==> s.response.status == 404 && s.bucket == bucket - {name}
    ensures s.response.status == 200 <==> name in bucket && !Expired(bucket[name].metadata, env.now) && env.storeError.None?
    ensures s.response.status == 200 ==>
              && s.response.body == Data(bucket[name].content)
              && "Content-Type" in s.response.headers
              && s.response.headers["Content-Type"] == ContentTypeFor(cfg.mimeByName(name), bucket[name].contentType)
              && (s.bucket == bucket - {name} <==> IsOneTime(bucket[name].metadata))
              && (!IsOneTime(bucket[name].metadata) ==> s.bucket == bucket)
    ensures s.response.status == 500 ==> s.bucket == bucket
  {
    if name !in bucket then
      Step(ErrorResponse(404, "File not found", map[]), bucket)
    else
      var obj := bucket[name];
      if Expired(obj.metadata, env.now) then
        Step(ErrorResponse(404, "File not found (expired)", map[]), bucket - {name})
      else if env.storeError.Some? then
        Step(ErrorResponse(500, "Error downloading file", map[]), bucket)
      else
        var headers := DownloadHeaders(ContentTypeFor(cfg.mimeByName(name), obj.contentType), obj.metadata);
        var after := if IsOneTime(obj.metadata) then bucket - {name} else bucket;
        assert name in bucket && name !in bucket - {name};
        Step(Response(200, headers, Data(obj.content)), after)
  }

  /** The names `handleGetFile` serves from the bundled files, before any password check. */
  const StaticFiles: set<string> := {"index.html", "style.css", "upload.js"}

  const UnauthorizedHeaders: map<string, string> := map["WWW-Authenticate" := "Basic realm=\"Password Required\""]

  /** `handleGetFile`: static names, then the password check, then the download. */
  function GetFileSpec(cfg: Config, bucket: Bucket, req: Request, env: Env): (s: Step)
    ensures s.Step?
    ensures s.bucket == bucket || s.bucket == bucket - {TrimPrefix(req.path, "/")}
    ensures TrimPrefix(req.path, "/") in StaticFiles ==>
              s == Step(Response(200, map[], Asset(TrimPrefix(req.path, "/"))), bucket)
    ensures (TrimPrefix(req.path, "/") !in StaticFiles
             && PasswordRefused(cfg, req))
            ==> s.response.status == 401 && s.bucket == bucket
  {
    var name := TrimPrefix(req.path, "/");
    if name in StaticFiles then
      Step(Response(200, map[], Asset(name)), bucket)
    else if PasswordRefused(cfg, req) then
      Step(ErrorResponse(401, "Unauthorized", UnauthorizedHeaders), bucket)
    else
      DownloadSpec(cfg, bucket, name, env)
  }

  /** The wording of the usage text for command-line clients is not modelled. */
  const UsageBanner := "bashupload.app usage"

  /** What `http.Redirect` writes for a GET: the location, an HTML content type, and a short link as the body. */
  const RedirectHeaders: map<string, string> := map["Location" := "/index.html", "Content-Type" := "text/html; charset=utf-8"]
  const RedirectBody := "<a href=\"/index.html\">Found</a>.\n\n"

  /** `handleRoot` (reached on GET only): a `curl` user agent (any case) gets the usage text, anything else a redirect to the page. */
  function RootResponse(userAgent: string): (r: Response)
    ensures r.status == 200 <==> Contains(ToLowerAscii(userAgent), "curl")
    ensures r.status == 200 ==> r.headers == map["Content-Type" := TextPlain]
    ensures r.status != 200 ==>
              && r.status == 302 && "Location" in r.headers && r.headers["Location"] == "/index.html"
              && r.headers == RedirectHeaders && r.body == Text(RedirectBody)
  {
    if Contains(ToLowerAscii(userAgent), "curl") then Response(200, map["Content-Type" := TextPlain], Text(UsageBanner))
    else Response(302, RedirectHeaders, Text(RedirectBody))
  }

  /** `handleRequest`: GET to the root or a file, PUT and POST to the upload, anything else 405. */
  function RequestSpec(cfg: Config, bucket: Bucket, req: Request, env: Env): (s: Step)
    requires ValidDraws(env.draws)
    ensures req.verb !in {"GET", "PUT", "POST"} ==> Answers(s, 405) && s.bucket == bucket
    ensures req.verb != "GET" && !Answers(s, 200) ==> s.bucket == bucket
    ensures s.Dropped? ==> req.verb == "PUT"
  {
    if req.verb == "GET" then
      if req.path == "/" then Step(RootResponse(req.userAgent), bucket)
      else GetFileSpec(cfg, bucket, req, env)
    else if req.verb == "PUT" || req.verb == "POST" then
      UploadSpec(cfg, bucket, req, env, false)
    else
      Step(ErrorResponse(405, "Method Not Allowed", map[]), bucket)
  }

  /** `handleShort` (the `/short` route): PUT and POST upload and always ask for a short link; anything else 405. */
  function ShortSpec(cfg: Config, bucket: Bucket, req: Request, env: Env): (s: Step)
    requires ValidDraws(env.draws)
    ensures req.verb != "PUT" && req.verb != "POST" ==> Answers(s, 405) && s.bucket == bucket
    ensures Answers(s, 200) ==>
              && req.verb in {"PUT", "POST"} && UploadExtension(cfg, req).Some?
              && s.bucket.Keys == bucket.Keys + {UploadKey(cfg, req, env.draws)}
  {
    if req.verb == "PUT" || req.verb == "POST" then UploadSpec(cfg, bucket, req, env, true)
    else Step(ErrorResponse(405, "Method Not Allowed", map[]), bucket)
  }

  /** On the `/` route with short links enabled, an accepted upload shows the short link whenever the service returns a non-empty one. */
  lemma EnabledShortLinkShown(cfg: Config, bucket: Bucket, req: Request, env: Env)
    requires ValidDraws(env.draws) && cfg.enableShortURL
    requires env.shortURL.Some? && env.shortURL.value != ""
    requires Answers(RequestSpec(cfg, bucket, req, env), 200) && req.verb != "GET"
    ensures RequestSpec(cfg, bucket, req, env).response.body
            == Text(UploadResponseText(env.shortURL.value, RequestedExpiration(req.expirationSeconds)))
  {
    assert RequestSpec(cfg, bucket, req, env).response == UploadedResponse(cfg, req, env, false);
  }

  /** An empty answer from the short-link service leaves the file link in the body. */
  lemma EmptyShortLinkFallsBack(cfg: Config, bucket: Bucket, req: Request, env: Env, forceShortURL: bool)
    requires ValidDraws(env.draws) && env.shortURL == Some("")
    requires Answers(UploadSpec(cfg, bucket, req, env, forceShortURL), 200)
    ensures UploadSpec(cfg, bucket, req, env, forceShortURL).response.body
            == Text(UploadResponseText(FileURL(req, UploadKey(cfg, req, env.draws)), RequestedExpiration(req.expirationSeconds)))
  {
    assert UploadSpec(cfg, bucket, req, env, forceShortURL).response == UploadedResponse(cfg, req, env, forceShortURL);
  }

  /** On the `/short` route an accepted upload shows the short link whenever the service returns a non-empty one, even with short links off. */
  lemma ShortRouteShowsShortLink(cfg: Config, bucket: Bucket, req: Request, env: Env)
    requires ValidDraws(env.draws)
    requires env.shortURL.Some? && env.shortURL.value != ""
    requires Answers(ShortSpec(cfg, bucket, req, env), 200)
    ensures ShortSpec(cfg, bucket, req, env).response.body
            == Text(UploadResponseText(env.shortURL.value, RequestedExpiration(req.expirationSeconds)))
  {
    assert ShortSpec(cfg, bucket, req, env).response == UploadedResponse(cfg, req, env, true);
  }

  // ---------------------------------------------------------------------
  // Routes and the configuration endpoint
  // ---------------------------------------------------------------------

  /** The handlers `main` registers on the default ServeMux. */
  datatype Route = RequestRoute | ConfigRoute | ShortRoute

  /** The ServeMux's choice: `/api/config` exactly, `/short` exactly or anything under `/short/`, else the `/` catch-all. */
  function RouteOf(path: string): (r: Route)
    ensures r == ConfigRoute <==> path == "/api/config"
    ensures r == ShortRoute <==> path == "/short" || StartsWith(path, "/short/")
  {
    if path == "/api/config" then
      assert path[..7] != "/short/" by { assert path[..7][1] == 'a'; }
      ConfigRoute
    else if path == "/short" || StartsWith(path, "/short/") then ShortRoute
    else RequestRoute
  }

  /** The path of a stored object reaches `handleRequest`: its key opens with six token characters, none of them `/`. */
  lemma KeyPathRoutesToRequest(key: string)
    requires |key| >= TokenLength && IsToken(key[..TokenLength])
    ensures RouteOf("/" + key) == RequestRoute
  {
    var path := "/" + key;
    assert path[4] == key[..TokenLength][3] && path[6] == key[..TokenLength][5];
    assert path[4] != "/api/config"[4];
  }

  /** The fields of `configResponse`. */
  datatype ConfigFields = ConfigFields(maxAgeForMultiDownload: int, maxUploadSize: int, maxAge: int, needPassword: bool)

  /** `encoding/json`'s rendering of `configResponse`, with the line feed `Encode` appends. */
  function ConfigJson(f: ConfigFields): string {
    "{\"maxAgeForMultiDownload\":" + FormatInt(f.maxAgeForMultiDownload)
    + ",\"maxUploadSize\":" + FormatInt(f.maxUploadSize)
    + ",\"maxAge\":" + FormatInt(f.maxAge)
    + ",\"needPassword\":" + (if f.needPassword then "true" else "false") + "}\n"
  }

  const ConfigHeaders: map<string, string> :=
    map["Content-Type" := "application/json", "Access-Control-Allow-Origin" := "*",
        "Access-Control-Allow-Methods" := "GET", "Access-Control-Allow-Headers" := "Content-Type"]

  /** The settings `handleConfig` publishes: the three limits, and whether a password is set. */
  function PublishedSettings(cfg: Config): (f: ConfigFields)
    ensures f.maxUploadSize == cfg.maxUploadSize && f.maxAge == cfg.maxAge
    ensures f.maxAgeForMultiDownload == cfg.maxAgeForMultiDownload
    ensures f.needPassword <==> cfg.password != ""
  {
    ConfigFields(cfg.maxAgeForMultiDownload, cfg.maxUploadSize, cfg.maxAge, cfg.password != "")
  }

  /** `handleConfig`: the published settings as JSON for any method, with open CORS headers. */
  function ConfigResponse(cfg: Config): (r: Response)
    ensures r.status == 200 && r.headers == ConfigHeaders
    ensures r.body == Text(ConfigJson(PublishedSettings(cfg)))
  {
    Response(200, ConfigHeaders, Text(ConfigJson(PublishedSettings(cfg))))
  }

  /** The server: the ServeMux's route, then that route's handler. */
  function ServeSpec(cfg: Config, bucket: Bucket, req: Request, env: Env): (s: Step)
    requires ValidDraws(env.draws)
    ensures req.path == "/api/config" ==> s == Step(ConfigResponse(cfg), bucket)
    ensures RouteOf(req.path) == ShortRoute ==> s == ShortSpec(cfg, bucket, req, env)
    ensures RouteOf(req.path) == RequestRoute ==> s == RequestSpec(cfg, bucket, req, env)
  {
    match RouteOf(req.path)
    case ConfigRoute => Step(ConfigResponse(cfg), bucket)
    case ShortRoute => ShortSpec(cfg, bucket, req, env)
    case RequestRoute => RequestSpec(cfg, bucket, req, env)
  }

  /** A PUT or POST to `/short` or to any path under `/short/` shows the short link, even with short links off. */
  lemma ShortPathShowsShortLink(cfg: Config, bucket: Bucket, req: Request, env: Env)
    requires ValidDraws(env.draws)
    requires req.path == "/short" || StartsWith(req.path, "/short/")
    requires env.shortURL.Some? && env.shortURL.value != ""
    requires Answers(ServeSpec(cfg, bucket, req, env), 200)
    ensures ServeSpec(cfg, bucket, req, env).response.body
            == Text(UploadResponseText(env.shortURL.value, RequestedExpiration(req.expirationSeconds)))
  {
    ShortRouteShowsShortLink(cfg, bucket, req, env);
  }

  // ---------------------------------------------------------------------
  // Cleanup sweeper
  // ---------------------------------------------------------------------

  /** The upload instant the sweeper uses: `Uploadtime` (the zero time if it does not parse), else LastModified. */
  function UploadTimeOf(md: map<string, string>, lastModified: int): int {
    if UploadtimeKey in md then ParseTime(md[UploadtimeKey]).GetOr(GoZeroTime) else lastModified
  }

  /**
   * `now.Sub(uploadTime)` in nanoseconds: a `time.Duration` is an int64
   * that saturates at its bounds instead of wrapping.
   */
  function AgeNanos(now: int, uploadTime: int): (age: int)
    ensures IsInt64(age)
    ensures IsInt64((now - uploadTime) * NanosPerSecond) ==> age == (now - uploadTime) * NanosPerSecond
    ensures (now - uploadTime) * NanosPerSecond > Int64Max ==> age == Int64Max
    ensures (now - uploadTime) * NanosPerSecond < Int64Min ==> age == Int64Min
  {
    var exact := (now - uploadTime) * NanosPerSecond;
    if exact > Int64Max then Int64Max else if exact < Int64Min then Int64Min else exact
  }

  /**
   * The per-object decision of `cleanupExpiredFiles`: an object with an
   * `Expirationtime` goes exactly when it has expired and is never
   * age-checked; any other goes when its saturated age exceeds `maxAge`
   * seconds.
   */
  function ShouldDelete(md: map<string, string>, lastModified: int, now: int, maxAge: int): (delete: bool)
    ensures ExpirationtimeKey in md ==> (delete <==> Expired(md, now))
    ensures ExpirationtimeKey !in md ==>
              (delete <==> AgeNanos(now, UploadTimeOf(md, lastModified)) > maxAge * NanosPerSecond)
    ensures ExpirationtimeKey !in md && IsInt64((now - UploadTimeOf(md, lastModified)) * NanosPerSecond) ==>
              (delete <==> now - UploadTimeOf(md, lastModified) > maxAge)
  {
    if ExpirationtimeKey in md then Expired(md, now)
    else AgeNanos(now, UploadTimeOf(md, lastModified)) > maxAge * NanosPerSecond
  }

  /**
   * An `Uploadtime` that does not parse reads as the zero time, whose age
   * saturates near 292 years: with a larger `maxAge` the object is kept,
   * although `now` is far more than `maxAge` seconds after the zero time.
   */
  lemma UnparsableUploadtimeSaturates()
    ensures var md := map[UploadtimeKey := "garbage"];
            && 1_760_000_000 - UploadTimeOf(md, 0) > 10_000_000_000
            && !ShouldDelete(md, 0, 1_760_000_000, 10_000_000_000)
  {
    var md := map[UploadtimeKey := "garbage"];
    assert !IsDigit("garbage"[0]);
    assert UploadTimeOf(md, 0) == GoZeroTime;
  }

  /** What one sweep leaves: the objects the decision keeps. */
  function Swept(bucket: Bucket, now: int, maxAge: int): (kept: Bucket)
    ensures kept.Keys <= bucket.Keys
    ensures forall k | k in bucket ::
              (k in kept <==> !ShouldDelete(bucket[k].metadata, bucket[k].lastModified, now, maxAge))
    ensures forall k | k in kept :: kept[k] == bucket[k]
  {
    map k | k in bucket && !ShouldDelete(bucket[k].metadata, bucket[k].lastModified, now, maxAge) :: bucket[k]
  }

  // ---------------------------------------------------------------------
  // The server
  // ---------------------------------------------------------------------

  class Gateway {
    const cfg: Config
    var bucket: Bucket

    constructor (cfg: Config)
      ensures this.cfg == cfg && bucket == map[]
    {
      this.cfg := cfg;
      bucket := map[];
    }

    /** The ServeMux: dispatch on the path; `None` is a connection dropped without an answer. */
    method Serve(req: Request, env: Env) returns (resp: Option<Response>)
      requires ValidDraws(env.draws)
      modifies this
      ensures Outcome(resp, bucket) == ServeSpec(cfg, old(bucket), req, env)
    {
      if req.path == "/api/config" {
        resp := Some(ConfigResponse(cfg));
      } else if req.path == "/short" || StartsWith(req.path, "/short/") {
        resp := HandleShort(req, env);
      } else {
        resp := HandleRequest(req, env);
      }
    }

    method HandleRequest(req: Request, env: Env) returns (resp: Option<Response>)
      requires ValidDraws(env.draws)
      modifies this
      ensures Outcome(resp, bucket) == RequestSpec(cfg, old(bucket), req, env)
    {
      if req.verb == "GET" {
        if req.path == "/" {
          resp := Some(RootResponse(req.userAgent));
        } else {
          var r := HandleGetFile(req, env);
          resp := Some(r);
        }
      } else if req.verb == "PUT" || req.verb == "POST" {
        resp := HandleUpload(req, env, false);
      } else {
        resp := Some(ErrorResponse(405, "Method Not Allowed", map[]));
      }
    }

    method HandleShort(req: Request, env: Env) returns (resp: Option<Response>)
      requires ValidDraws(env.draws)
      modifies this
      ensures Outcome(resp, bucket) == ShortSpec(cfg, old(bucket), req, env)
    {
      if req.verb == "PUT" || req.verb == "POST" {
        resp := HandleUpload(req, env, true);
      } else {
        resp := Some(ErrorResponse(405, "Method Not Allowed", map[]));
      }
    }

    method HandleGetFile(req: Request, env: Env) returns (resp: Response)
      modifies this
      ensures Step(resp, bucket) == GetFileSpec(cfg, old(bucket), req, env)
    {
      var fileName := TrimPrefix(req.path, "/");
      if fileName in StaticFiles {
        return Response(200, map[], Asset(fileName));
      }
      if PasswordRefused(cfg, req) {
        return ErrorResponse(401, "Unauthorized", UnauthorizedHeaders);
      }
      resp := DownloadFile(fileName, env);
    }

    /** Head, expiry check (delete on expiry), get, serve, then delete a one-time object. */
    method DownloadFile(fileName: string, env: Env) returns (resp: Response)
      modifies this
      ensures Step(resp, bucket) == DownloadSpec(cfg, old(bucket), fileName, env)
    {
      if fileName !in bucket {
        return ErrorResponse(404, "File not found", map[]);
      }
      var head := bucket[fileName];
      var isOneTime := true;
      if OnetimeKey in head.metadata {
        isOneTime := head.metadata[OnetimeKey] == "true";
      }
      if ExpirationtimeKey in head.metadata {
        var expirationTime := ParseTime(head.metadata[ExpirationtimeKey]);
        if expirationTime.Some? && env.now > expirationTime.value {
          bucket := bucket - {fileName};
          return ErrorResponse(404, "File not found (expired)", map[]);
        }
      }
      if env.storeError.Some? {
        return ErrorResponse(500, "Error downloading file", map[]);
      }
      var contentType := OctetStream;
      var byName := cfg.mimeByName(fileName);
      if byName.Some? {
        contentType := byName.value;
      } else if head.contentType.Some? {
        contentType := head.contentType.value;
      }
      resp := Response(200, DownloadHeaders(contentType, head.metadata), Data(head.content));
      if isOneTime {
        bucket := bucket - {fileName};
      }
    }

    /**
     * The password and size checks, then the expiration, the key, the
     * metadata and the put, then the answer; `None` when the MIME lookup
     * for a PUT's type comes back nil and the handler panics.
     */
    method HandleUpload(req: Request, env: Env, forceShortURL: bool) returns (resp: Option<Response>)
      requires ValidDraws(env.draws)
      modifies this
      ensures Outcome(resp, bucket) == UploadSpec(cfg, old(bucket), req, env, forceShortURL)
    {
      if PasswordRefused(cfg, req) {
        return Some(ErrorResponse(401, "Unauthorized", map[]));
      }
      if req.contentLength > cfg.maxUploadSize {
        return Some(ErrorResponse(413, TooLargeMessage, map[]));
      }
      var expiration := RequestedExpiration(req.expirationSeconds);
      var randomID := GenerateRandomID(env.draws);
      var contentType, ext := UploadTypeAndExtension(req);
      if ext.None? {
        return None;
      }
      var fileName := randomID + ext.value;
      var metadata := UploadMetadata(env.now, expiration);
      if env.storeError.Some? {
        return Some(ErrorResponse(500, "Upload failed: " + env.storeError.value, map[]));
      }
      resp := Store(req, env, forceShortURL, fileName, StoredObject(Some(contentType), metadata, env.now, req.body));
    }

    /** The accepted path of `handleUpload`: the put, then the link and the answer. */
    method Store(req: Request, env: Env, forceShortURL: bool, fileName: string, obj: StoredObject)
      returns (resp: Option<Response>)
      requires ValidDraws(env.draws) && UploadExtension(cfg, req).Some?
      requires fileName == UploadKey(cfg, req, env.draws) && obj == NewObject(req, env)
      modifies this
      ensures resp == Some(UploadedResponse(cfg, req, env, forceShortURL))
      ensures bucket == old(bucket)[UploadKey(cfg, req, env.draws) := NewObject(req, env)]
    {
      var expiration := RequestedExpiration(req.expirationSeconds);
      bucket := bucket[fileName := obj];
      var fileURL := FileURL(req, fileName);
      if (forceShortURL || cfg.enableShortURL) && env.shortURL.Some? && env.shortURL.value != "" {
        fileURL := env.shortURL.value;
      }
      var headers := map["Content-Type" := TextPlain, "X-One-Time-Upload" := OneTimeUploadHeader(expiration)];
      resp := Some(Response(200, headers, Text(UploadResponseText(fileURL, expiration))));
    }

    /** The content type to store and the key's extension: `.txt` text for POST, else by the MIME library (`None` for nil). */
    method UploadTypeAndExtension(req: Request) returns (contentType: string, ext: Option<string>)
      ensures contentType == StoredContentType(req)
      ensures ext == UploadExtension(cfg, req)
    {
      contentType := req.contentType;
      if contentType == "" {
        contentType := OctetStream;
      }
      if req.verb == "POST" {
        contentType := TextPlain;
        ext := Some(".txt");
      } else {
        ext := cfg.extensionFor(contentType);
      }
    }

    /** `cleanupExpiredFiles`, one object at a time. */
    method Sweep(now: int)
      modifies this
      ensures bucket == Swept(old(bucket), now, cfg.maxAge)
    {
      ghost var start := bucket;
      var unchecked := bucket.Keys;
      while unchecked != {}
        invariant unchecked <= start.Keys
        invariant bucket.Keys <= start.Keys
        invariant forall k | k in bucket :: bucket[k] == start[k]
        invariant forall k | k in start ::
                    (k in bucket <==> k in unchecked || !ShouldDelete(start[k].metadata, start[k].lastModified, now, cfg.maxAge))
        decreases unchecked
      {
        var key :| key in unchecked;
        var obj := bucket[key];
        if ShouldDelete(obj.metadata, obj.lastModified, now, cfg.maxAge) {
          bucket := bucket - {key};
        }
        unchecked := unchecked - {key};
      }
    }
  }
}
