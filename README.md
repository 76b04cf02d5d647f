# bashupload: one-time and expiring blob sharing, modelled in Dafny

bashupload shares a blob once, or until it expires. A client PUTs a file (or
POSTs text) and gets back a short link. The first GET of that link returns
the bytes and deletes the object. If the uploader asked for an expiration
instead, the object can be fetched any number of times until its
`Expirationtime` has passed. The protocol is written three times, and this
project models each version:

- **The Go storage gateway** (`docker/go/main.go`), module `GoGateway`. This
  is the full gateway. It checks a shared password (a lax HTTP Basic, section
  2 of RFC 7617, whose payload is Base64 as in section 4 of RFC 4648), limits
  the upload size, reads `X-Expiration-Seconds`, draws a six-character key,
  stores the object with its metadata, and answers with the link and a
  notice. On download it picks one-time or expiring mode, deletes expired
  objects, chooses the content type, and deletes one-time objects after
  serving them. A sweeper deletes what has expired or grown too old. Every
  handler is a pure function from (bucket, request, environment) to
  (response, bucket), or to a dropped connection where the handler panics
  (`ServeSpec`, `UploadSpec`, `DownloadSpec`, `GetFileSpec`, `RequestSpec`,
  `ShortSpec`, `Swept`). The class `Gateway` holds the
  bucket and runs the same steps imperatively, and each of its methods is
  proved equal to its function. Module `GoLifecycle` proves the object life
  cycle across requests: `CREATED → AVAILABLE → CONSUMED/EXPIRED`, with no
  way back.
- **The Cloudflare Worker** (`src/index.js`), module `CloudflareWorker`. It
  accepts PUT only, has no password and no expiration, and makes every
  object one-time. A served object's deletion goes to `ctx.waitUntil` and
  runs after the response. The model therefore keeps it as a pending
  deletion that `Worker.RunPendingDeletions` carries out later, and
  `CloudflareLifecycle` proves that a second GET inside that window is
  still served.
- **The upload page** (`public/upload.js`), module `UploadClient`, with the
  DOM removed. It checks size and password before any request, builds the
  request headers, converts expiration units, and runs a retry loop over an
  abstract transport. The transport is a sequence of outcomes, one per
  attempt: `Status(code, body)` or `NetworkError`. `RetryLoop` is proved
  equal to the recursive specification `RetrySpec`, and the lemmas state
  the attempt bound, the backoff waits and the terminal cases.
- Module `EndToEnd` connects the page to both gateways. The link a gateway
  answers with is exactly the link the page records. The expiration the page
  asks for is the one Go stores. A missing password stops the page after one
  401. Text, which the page sends as POST, is refused by the Worker on every
  attempt.

Supporting modules: `Wrappers` (Option), `Text` (JavaScript `trim`,
`split('\n')[0]`, `startsWith`, `includes`; Go `HasPrefix`, `TrimPrefix`,
`SplitN`, `ToLower`), `Decimal` (Go's `strconv.ParseInt(s, 10, 64)` and
`FormatInt`, with their round trip), `Keys` (the 36-symbol alphabet) and
`Http` (responses).

Outside inputs are parameters:
- The clock is an integer second, `Env.now`.
- The random source is the six drawn indices in `[0, 36)`, `Env.draws`.
- A failure of the store is an error message, `Env.storeError`.
- The short-link service's answer is `Env.shortURL`.
- Base64 decoding, the MIME libraries and the Worker's ASSETS binding are
  uninterpreted function values in `Config` or `Bindings`.

## Model

| member | source | states |
|---|---|---|
| `GoGateway.CheckPassword` | docker/go/main.go:560-583 | No password configured passes everything. An empty header fails. A `Basic ` header whose payload decodes to text with a colon passes exactly when the text after the first colon is the password. A payload that does not decode fails. Every other header passes exactly when it equals the password. |
| `GoGateway.CredentialPassword` | docker/go/main.go:576-579 | `None` exactly when the decoded text has no colon; otherwise the text is `<no colon> + ":" + r`, so `r` follows the first colon. |
| `GoGateway.BasicCredentialAccepted` | docker/go/main.go:570-579 | A browser Basic header `user:password` with the right password passes, whatever the user name. |
| `GoGateway.AcceptedHeaderCarriesPassword` | docker/go/main.go:560-583 | A header that passes carries the password, either verbatim or after the colon of a decoded Basic payload. |
| `GoGateway.ParseInt64OrDefault` | docker/go/main.go:608-617 | Empty or unparsable text gives the default. Text that parses gives exactly the value `strconv.ParseInt` reads. |
| `GoGateway.ParseInt64OrDefaultOfText` | docker/go/main.go:608-617 | A setting written as an int64's decimal text is read as that number. |
| `Decimal.ParseInt64` | docker/go/main.go:344 | A parse succeeds exactly when the text after an optional `+` or `-` is a non-empty run of digits whose signed value is an int64, and then gives that value. |
| `Decimal.ParseInt64Signs` | docker/go/main.go:344 | `+7` reads as 7 and `-0` as 0. |
| `Decimal.ParseInt64LeadingZeros` | docker/go/main.go:344 | `007` reads as 7. |
| `Decimal.ParseInt64Refusals` | docker/go/main.go:344 | Empty text, a lone sign, a space, a unit suffix and a digit separator are refused. |
| `Decimal.FormatNat` | docker/go/main.go:380 | The text is non-empty digits with no leading zero, and reads back as `n`. |
| `Decimal.ParseFormatInt` | docker/go/main.go:379-380 | Every int64 written by `FormatInt` parses back to itself. |
| `Decimal.ParseRefusesOutOfRange` | docker/go/main.go:344 | A value outside int64 is refused, whatever its digits. |
| `GoGateway.ParseFormatTime` | docker/go/main.go:379 | A stored instant reads back as itself. |
| `GoGateway.FormatBytes` | docker/go/main.go:594-606 | `bytes < 1024` gives the plain count. Otherwise the loop picks unit index `k` and divisor `1024^k` with `1024^k <= bytes < 1024^(k+1)`. The index is within `sizes` exactly when `bytes < 1024^5`. |
| `GoGateway.GenerateRandomID` | docker/go/main.go:585-592 | The filled buffer is the token the draws select. |
| `Keys.Token` | docker/go/main.go:585-592 | Six characters from `[a-z0-9]`. |
| `Keys.TokenInjective` | docker/go/main.go:585-592 | Different draws give different tokens, so the 36^6 possible draws give 36^6 distinct keys. |
| `GoGateway.RequestedExpiration` | docker/go/main.go:338-351 | Expiring mode holds exactly when the header parses as a base-10 int64 greater than 0, and then carries that value. |
| `GoGateway.RequestedExpirationOfText` | docker/go/main.go:343-346 | Every positive int64 sent as decimal text selects expiring mode with that many seconds. |
| `GoGateway.ExpirationTime` | docker/go/main.go:348 | The expiry lies exactly `seconds` after the upload (the corrected form of the overflow finding below). |
| `GoGateway.AsWrittenAgreesWithoutOverflow` | docker/go/main.go:348 | Up to about 292 years, the code as written computes the intended expiry. |
| `GoGateway.AsWrittenExpiresBeforeUpload` | docker/go/main.go:348 | `X-Expiration-Seconds: 9223372037` is accepted, yet the code as written stores an expiry 9223372037 seconds before the upload. |
| `GoGateway.StoredContentType` | docker/go/main.go:355-368 | POST stores `text/plain; charset=utf-8`. Otherwise the header is stored, or `application/octet-stream` when the header is empty. |
| `GoGateway.UploadExtension` | docker/go/main.go:361-368 | `.txt` for POST. For PUT, the MIME library's extension for the stored type, or none when `Lookup` knows no such type. |
| `GoGateway.UploadKey` | docker/go/main.go:354-370 | Once the extension is known, the key is the six-character token, then `.txt` for POST or the MIME library's extension for the stored type. |
| `GoGateway.UploadMetadata` | docker/go/main.go:372-383 | `Uploadtime` reads back as the upload second. One-time mode stores `Onetime="true"` and no other key. Expiring mode stores `Onetime="false"`, `Expirationseconds=<decimal>` and an `Expirationtime` that reads back as upload time + seconds. |
| `GoGateway.FileURL` | docker/go/main.go:401-406 | `scheme://host/key`, with `https` exactly when the request used TLS. |
| `GoGateway.ShownURL` | docker/go/main.go:408-417 | The service's short link exactly when a short link was requested (`/short` or `ENABLE_SHORT_URL`) and the service gave a non-empty one. Otherwise, including an empty answer or none, the file link. |
| `GoGateway.EnabledShortLinkShown` | docker/go/main.go:408-421 | With `ENABLE_SHORT_URL` on, an accepted upload to `/` shows the service's non-empty short link in the body. |
| `GoGateway.EmptyShortLinkFallsBack` | docker/go/main.go:408-421 | An empty answer from the short-link service leaves the file link in the body. |
| `GoGateway.HoursMinutes` | docker/go/main.go:422-423 | Whole hours, then minutes below 60: `h*3600 + m*60 <= s < h*3600 + m*60 + 60`. |
| `GoGateway.ExpirationText` | docker/go/main.go:420-432 | `s < 60` gives "0分钟". Under an hour only minutes are shown. Minutes are appended to hours only when both are non-zero. |
| `GoGateway.UploadNotice` | docker/go/main.go:433-435 | The notice is non-empty with visible ends. For expiring uploads it names the duration text. |
| `GoGateway.UploadResponseText` | docker/go/main.go:433-436 | Trimmed, the body is the link, a blank line and the notice, so its first line is exactly the link. |
| `GoGateway.UploadSpec` | docker/go/main.go:323-446 | 401 exactly when the password check fails. 413 exactly when it passes and `ContentLength > maxUploadSize`. After both checks, a PUT whose type `mimetype.Lookup` does not know panics at line 367: no response, and the bucket is unchanged. 200 exactly when the checks pass, the extension is known and the put succeeds, and then the object is stored under the key. Every other outcome leaves the bucket unchanged. |
| `GoGateway.UploadedResponse` | docker/go/main.go:438-445 | 200, with `X-One-Time-Upload` equal to "true" exactly in one-time mode. |
| `GoGateway.ContentTypeFor` | docker/go/main.go:280-286 | The name-based lookup, then the stored ContentType, then `application/octet-stream`. |
| `GoGateway.DownloadHeaders` | docker/go/main.go:288-300 | Content type, the no-cache headers, and either `X-One-Time-Download: true`, or `X-Expiration-Download: true` with `X-Expiration-Time` when the expiry is stored. |
| `GoGateway.DownloadSpec` | docker/go/main.go:232-321 | A missing object gives 404 and no change. An expired object is deleted and gives 404. 200 exactly when the object is present, unexpired and the get succeeds, and then the response has its bytes and precedence-chosen type. A served object is deleted exactly when it is one-time, and an expiring one stays. |
| `GoGateway.GetFileSpec` | docker/go/main.go:186-207 | The three bundled names are served before any password check and never touch the bucket. Any other name without the password gives 401 and no change. |
| `GoGateway.RootResponse` | docker/go/main.go:158-184 | A User-Agent containing `curl` in any case gets 200 plain text. Anything else gets what `http.Redirect` writes for a GET: 302, `Location: /index.html`, an HTML content type and the `<a href="/index.html">Found</a>.` body. |
| `GoGateway.RequestSpec` | docker/go/main.go:140-156 | Methods other than GET, PUT and POST give 405 and no change. A non-GET that is not 200 leaves the bucket unchanged. Only a PUT can drop the connection. |
| `GoGateway.ShortSpec` | docker/go/main.go:132-138 | Only PUT and POST upload. A 200 adds exactly the new key. |
| `GoGateway.ShortRouteShowsShortLink` | docker/go/main.go:408-417 | On `/short`, an accepted upload shows the short link whenever the service returns a non-empty one. |
| `GoGateway.RouteOf` | docker/go/main.go:105-108 | `/api/config` exactly goes to `handleConfig`. `/short` exactly or any path under `/short/` goes to `handleShort`. Everything else goes to `handleRequest`. |
| `GoGateway.KeyPathRoutesToRequest` | docker/go/main.go:105-108 | A stored object's path `/key` always reaches `handleRequest`, because a key starts with six token characters and none of them is `/`. |
| `GoGateway.PublishedSettings` | docker/go/main.go:117-122 | The published limits are the configured ones, and `needPassword` holds exactly when a password is set. |
| `GoGateway.ConfigResponse` | docker/go/main.go:116-130 | Any method gets 200 with the JSON content type and the open CORS headers. The body is the JSON of the published settings. |
| `GoGateway.ServeSpec` | docker/go/main.go:105-108 | `/api/config` answers the settings whatever the method. The short-link paths behave as `handleShort`, and every other path behaves as `handleRequest`. |
| `GoGateway.ShortPathShowsShortLink` | docker/go/main.go:107-108 | A PUT or POST to `/short` or to any path under `/short/` that is answered 200 shows the short link, even with short links off. |
| `GoGateway.ShouldDelete` | docker/go/main.go:508-545 | An object with `Expirationtime` goes exactly when the expiry parses and `now` is after it, and is never age-checked. Any other object goes exactly when its age `now.Sub(uploadTime)`, saturated as a `time.Duration`, is more than `maxAge` seconds. For an age that fits a `Duration` that is `now - uploadTime > maxAge`. `Uploadtime` falls back to LastModified, and an unparsable one reads as Go's zero time. |
| `GoGateway.AgeNanos` | docker/go/main.go:534 | The age in nanoseconds is an int64: exact when it fits, otherwise the nearer bound. |
| `GoGateway.UnparsableUploadtimeSaturates` | docker/go/main.go:528-535 | An unparsable `Uploadtime` with `maxAge = 10^10` s is kept, although `now` is more than `10^10` s after the zero time, because the age saturates near 292 years. |
| `GoGateway.Swept` | docker/go/main.go:491-549 | One sweep keeps exactly the objects the decision keeps, each unchanged. |
| `GoGateway.Gateway.Serve` | docker/go/main.go:105-108 | Dispatching on the path gives `ServeSpec` of the old bucket: the response, or a dropped connection, and the new bucket. |
| `GoGateway.Gateway.HandleRequest` | docker/go/main.go:140-156 | The response (or a dropped connection) and the new bucket are `RequestSpec` of the old bucket. |
| `GoGateway.Gateway.HandleShort` | docker/go/main.go:132-138 | The response (or a dropped connection) and the new bucket are `ShortSpec` of the old bucket. |
| `GoGateway.Gateway.HandleGetFile` | docker/go/main.go:186-207 | The response and the new bucket are `GetFileSpec` of the old bucket. |
| `GoGateway.Gateway.DownloadFile` | docker/go/main.go:232-321 | Head, expiry check with delete, get, serve, then delete if one-time: the result is `DownloadSpec` of the old bucket. |
| `GoGateway.Gateway.HandleUpload` | docker/go/main.go:323-446 | The steps in the source's order, with no answer when the MIME lookup comes back nil, give `UploadSpec` of the old bucket. |
| `GoGateway.Gateway.Store` | docker/go/main.go:385-445 | The bucket gains the new object under the upload key, and the response is the 200 answer. |
| `GoGateway.Gateway.UploadTypeAndExtension` | docker/go/main.go:355-368 | The stored content type, and the key's extension as POST and PUT choose it. A PUT type the MIME library does not know gives none. |
| `GoGateway.Gateway.Sweep` | docker/go/main.go:479-558 | Visiting the objects one at a time leaves `Swept` of the old bucket. |
| `GoLifecycle.GetOnlyRemoves` | docker/go/main.go:232-321 | A GET never adds or changes an object; it can only remove one. |
| `GoLifecycle.OnlyUploadWrites` | docker/go/main.go:140-156 | The only object any request adds or replaces is the one an accepted upload stores under its key. |
| `GoLifecycle.PathNamesKey` | docker/go/main.go:187 | The path `/key` names the object `key`. |
| `GoLifecycle.AcceptedUploadStores` | docker/go/main.go:323-399 | An authorized PUT or POST within the limit gives 200 and stores its object when its type is known (always for POST) and the store works. |
| `GoLifecycle.UnknownTypeDropped` | docker/go/main.go:362-368 | An authorized PUT within the limit whose type the MIME library does not know gets no answer on either route and stores nothing. |
| `GoLifecycle.FetchIsDownload` | docker/go/main.go:186-207 | An authorized GET of a non-bundled key is the download of that key. |
| `GoLifecycle.ServedFetchIsDownload` | docker/go/main.go:105-108 | Through the route table too, an authorized GET of a stored object's key is its download. |
| `GoLifecycle.OneTimeUploadServedOnce` | docker/go/main.go:293-320 | A one-time upload's first GET returns its bytes with `X-One-Time-Download: true`, and the bucket is back to what it was before the upload. |
| `GoLifecycle.OneTimeUploadGoneAfterServed` | docker/go/main.go:239-243 | Any GET after that answers 404 and changes nothing. |
| `GoLifecycle.ExpiringObject` | docker/go/main.go:377-383 | An expiring upload is not one-time, and its `Expirationtime` reads back as upload time + seconds. |
| `GoLifecycle.ExpiringObjectAsWritten` | docker/go/main.go:348 | Below the nanosecond wrap-around, the stored `Expirationtime` is also the one the code as written computes. |
| `GoLifecycle.ExpiringUploadServedUntilExpiry` | docker/go/main.go:251-300 | A GET at or before upload time + s returns the bytes, names the expiry, and leaves the object in place. |
| `GoLifecycle.ExpiringUploadGoneAfterExpiry` | docker/go/main.go:251-265 | A GET after upload time + s answers 404 and deletes the object. |
| `GoLifecycle.SweepOfUpload` | docker/go/main.go:508-545 | The sweeper removes an expiring upload exactly after its expiry, whatever `maxAge` is, and any other upload exactly when its saturated age is more than `maxAge` seconds. For an age that fits a `Duration`, that means older than `maxAge`. |
| `GoLifecycle.UnauthorizedChangesNothing` | docker/go/main.go:324-328 | An upload or download that fails the password check gives 401 and leaves the bucket unchanged. |
| `GoLifecycle.StaticFilesNeedNoPassword` | docker/go/main.go:189-196 | `/index.html`, `/style.css` and `/upload.js` are served without a password and never touch the bucket. |
| `CloudflareWorker.RootResponse` | src/index.js:11-23 | A User-Agent containing `curl` in any case gets 200 text. Anything else gets 302 to `origin + /index.html`. |
| `CloudflareWorker.FileNameOf` | src/index.js:26 | The pathname without its first character. |
| `CloudflareWorker.DownloadType` | src/index.js:52-53 | `mime.getType(name)`, else `application/octet-stream`. |
| `CloudflareWorker.DownloadHeaders` | src/index.js:47-77 | The name-based type overrides the stored one. `X-One-Time-Download: true`, the etag and the no-cache headers are always set. |
| `CloudflareWorker.DownloadSpec` | src/index.js:39-83 | The bucket is unchanged. 200 exactly when R2 answers and the key is present, and then the bytes are returned and deletion of exactly that key is scheduled. A missing key gives 404 `File not found\n`. |
| `CloudflareWorker.PutContentType` | src/index.js:94 | The header, or `application/octet-stream` when it is absent or empty. |
| `CloudflareWorker.Extension` | src/index.js:96-97 | `.` plus `mime.getExtension`, or nothing exactly when that is null or empty. |
| `CloudflareWorker.PutKey` | src/index.js:93-98 | Six `[a-z0-9]` characters followed by the extension. |
| `CloudflareWorker.PutObject` | src/index.js:102-111 | The body, the content type, and `oneTime: 'true'`. |
| `CloudflareWorker.FileUrl` | src/index.js:114-115 | The link is `origin/key` (the corrected form of the port finding below), and it equals the code's `protocol//hostname/key` whenever the port is the default. |
| `CloudflareWorker.LinkDropsPort` | src/index.js:114-115 | For `http://localhost:8787/`, the code's link points at `http://localhost/`, another origin. |
| `CloudflareWorker.OneTimeNotice` | src/index.js:118 | The notice is non-empty with visible ends. |
| `CloudflareWorker.PutResponseText` | src/index.js:118 | The body starts with the link and a blank line. Trimmed, its first line is exactly the link. |
| `CloudflareWorker.PutSpec` | src/index.js:91-135 | Store failure gives 500 and no change. Otherwise 200 with `X-One-Time-Upload: true`, the object stored under its key, and the link in the body. |
| `CloudflareWorker.FetchSpec` | src/index.js:4-137 | Methods other than GET and PUT, POST included, give 405 and no change. A GET never changes the bucket. Only a successful GET schedules a deletion, and only of the requested key. Only a successful PUT changes the bucket. |
| `CloudflareWorker.Removed` | src/index.js:60-71 | The deferred deletions remove exactly the scheduled keys whose delete did not fail. |
| `CloudflareWorker.GenerateRandomId` | src/index.js:140-147 | Appending six drawn characters gives the token of the draws. |
| `CloudflareWorker.Worker.Fetch` | src/index.js:4-137 | The response and bucket are `FetchSpec`'s, and the served key is queued for deletion. |
| `CloudflareWorker.Worker.RunPendingDeletions` | src/index.js:60-71 | The queued keys are removed except those whose delete failed, and the queue empties. |
| `CloudflareLifecycle.FileNameOfPath` | src/index.js:26 | The path `/key` names the object `key`. |
| `CloudflareLifecycle.UploadServedThenDeleted` | src/index.js:42-79 | A stored PUT's first GET returns its bytes, typed by name, and schedules its key. Once that deletion has run, a further GET answers 404. |
| `CloudflareLifecycle.ServedAgainBeforeDeletion` | src/index.js:60-71 | Until the deferred deletion runs, a second GET is served the same response again. |
| `CloudflareLifecycle.StoredTypeIgnored` | src/index.js:47-53 | The uploaded content type never reaches the download headers. |
| `UploadClient.MaxFileSize` | public/upload.js:713 | The server's limit, or 5 GiB when the config or the limit is missing or 0. |
| `UploadClient.FileRefusal` | public/upload.js:711-737 | `size > limit` is refused first. Otherwise a needed password whose trimmed value is empty is refused. Nothing else is refused. |
| `UploadClient.TextRefusal` | public/upload.js:291-316 | Text that is empty after trimming is refused first, then a missing needed password. Nothing else is refused. |
| `UploadClient.AuthorizationHeader` | public/upload.js:974-976 | `Authorization` is sent exactly when the box is checked and the raw value is non-empty, and it carries that value. |
| `UploadClient.ExpirationHeader` | public/upload.js:979-990 | `X-Expiration-Seconds` is sent exactly when expiration is on. Its value is the stored seconds, or `"3600"` when none were set. |
| `UploadClient.FileRequest` | public/upload.js:960-992 | A PUT to `/short` or `/<file name>`, with those headers and the file as the body. |
| `UploadClient.TextRequest` | public/upload.js:453-486 | A form-encoded POST to `/short` or `/`, with those headers and the text as the body. |
| `UploadClient.UnitSeconds` | public/upload.js:551-565 | Exactly the four units seconds, minutes, hours and days give a positive factor, one of 1, 60, 3600 and 86400. Any other unit gives 0, as the `switch` falls through. |
| `UploadClient.ExpirationDisplay` | public/upload.js:761-770 | The largest of days, hours or minutes that divides the seconds exactly, else seconds, with `value × unitSeconds = seconds`. |
| `UploadClient.DisplayOfEntered` | public/upload.js:546-568 | A duration entered as value × unit is shown in that unit or a larger one, with the same number of seconds. |
| `UploadClient.ClassifyMeaning` | public/upload.js:842-913 | Success exactly for 200 with a trimmed body starting `http`, and then the link is its first line. 401 stops. A 200 with another body, any other status and a network error each fail with their message. |
| `UploadClient.ClassifyLink` | public/upload.js:842-844 | A 200 whose trimmed body starts with `http` succeeds with that body's first line. |
| `UploadClient.ClassifyParagraph` | public/upload.js:889 | A link followed by a blank line and a notice succeeds with exactly the link. |
| `UploadClient.Backoff` | public/upload.js:916 | The wait after failed attempt k is at least one second. |
| `UploadClient.BackoffDoubles` | public/upload.js:916 | The first wait is 1000 ms and each later wait doubles the one before. |
| `UploadClient.ResumeAfterFailure` | public/upload.js:911-923 | A failed attempt k leads to attempt k+1, after its wait unless k was the last attempt. |
| `UploadClient.ResumeAtDecision` | public/upload.js:842-907 | A success or a 401 at attempt k ends the run there, adding no wait. |
| `UploadClient.RetryFromDelays` | public/upload.js:914-931 | From attempt k, the attempts stay within `k..max`, with one wait of `2^(j-1)` s after each failed attempt j except the last. |
| `UploadClient.RetryFromDecided` | public/upload.js:828-931 | Every attempt before the last failed. The last one decided the result, and giving up happens only after the final attempt, with its error. |
| `UploadClient.RetryWaits` | public/upload.js:828-931 | At most `maxRetries` attempts, numbered from 1. The waits are 1000, 2000, … ms, and there is none after the last attempt. |
| `UploadClient.RetryDecidedByLast` | public/upload.js:894-931 | A success records the last attempt's link, and a 401 is that attempt's answer. Exhaustion happens only at `maxRetries` and reports the last error. |
| `UploadClient.FirstAttemptDecides` | public/upload.js:842-907 | A first answer that succeeds or is a 401 means one attempt and no wait. |
| `UploadClient.UnauthorizedStopsAtOnce` | public/upload.js:900-907 | A 401 ends the loop at once, with no retry and no wait. |
| `UploadClient.FailFailSucceed` | public/upload.js:828-931 | Fail, fail, succeed gives three attempts, waits of 1000 and 2000 ms, and the link. |
| `UploadClient.ThreeFailures` | public/upload.js:914-931 | Three failures give waits of 1000 and 2000 ms, then the last error. |
| `UploadClient.ThreeRefusals` | public/upload.js:909-910 | The same non-200, non-401 status three times gives three attempts, then `Server returned status <code>`. |
| `UploadClient.LinkLine` | public/upload.js:842-844 | A link with a trailing line feed succeeds with exactly the link. |
| `UploadClient.TwoFailuresThenSuccess` | public/upload.js:828-931 | A network error, then a 500, then the link gives three attempts with waits of 1000 and 2000 ms and records the link. |
| `UploadClient.ReadOutcome` | public/upload.js:835-913 | Reading one attempt's answer agrees with the classification. |
| `UploadClient.RetryLoop` | public/upload.js:828-931 | The `for`/`try` loop computes exactly `RetrySpec`: the attempts, the waits and the result. |
| `UploadClient.UploadPage.SetExpiration` | public/upload.js:545-575 | A positive value is stored as value × unit seconds. Anything else leaves the attribute as it was. |
| `UploadClient.UploadPage.UploadSimpleFile` | public/upload.js:828-932 | Sends the file request and runs the loop. Exactly one `uploadedFiles` entry is appended on success, none otherwise. |
| `UploadClient.UploadPage.UploadText` | public/upload.js:319-424 | The same for text, recorded under `text.txt`. |
| `UploadClient.UploadPage.UploadFile` | public/upload.js:711-737 | A refused file sends nothing and records nothing. Otherwise the file request is sent with three attempts. |
| `UploadClient.UploadPage.HandleTextUpload` | public/upload.js:291-316 | Refused text sends nothing. Otherwise the trimmed text is sent with three attempts. |
| `EndToEnd.GoBodyYieldsLink` | docker/go/main.go:433-435 | The page reads the Go server's link back whole from its 200 body, whatever the notice says. |
| `EndToEnd.GoFileUrlIsLink` | docker/go/main.go:406 | A Go file link is a single line starting with `http`. |
| `EndToEnd.GoUploadBody` | docker/go/main.go:419-445 | The body of a Go 200 is the padded link and notice. |
| `EndToEnd.GoUploadRecorded` | public/upload.js:842-892 | An upload the Go server accepts is recorded on the first attempt under exactly the link it showed. |
| `EndToEnd.WorkerBodyYieldsLink` | src/index.js:118 | The page reads the Worker's link back whole from its 200 body. |
| `EndToEnd.WorkerUploadRecorded` | src/index.js:113-126 | A PUT the Worker stores is recorded on the first attempt under the Worker's link. On the default port that link is also the code's `protocol//hostname/key`. |
| `EndToEnd.GoAnswer` | public/upload.js:946-957 | A dropped connection reaches the page as a network error. An answer reaches it as its status and text body. |
| `EndToEnd.UnknownTypeGivesUp` | docker/go/main.go:362-368 | A file of a type the MIME library does not know gets no answer from the Go server and is not stored. The page reads each attempt's dropped step as a network error, waits 1 s and then 2 s, and gives up. |
| `EndToEnd.PageConfig` | public/upload.js:16-27 | The page's view carries the published size limit and the password flag. |
| `EndToEnd.ConfigUnderstood` | docker/go/main.go:116-130 | With a password set on the Go server, the page refuses to send without one. With a non-zero limit, the page refuses for size exactly the files the server would answer 413. |
| `EndToEnd.ExpirationUnderstood` | public/upload.js:979-990 | Go reads the page's choice as meant: no header means one-time, the default means 3600 s, and stored positive seconds mean that many seconds. |
| `EndToEnd.SetDurationUnderstood` | public/upload.js:546-568 | A duration set with the page's controls reaches the Go server unchanged. |
| `EndToEnd.PasswordUnderstood` | public/upload.js:974-976 | The raw password the page sends passes the Go check when it is the configured one. |
| `EndToEnd.MissingPasswordStopsAtOnce` | docker/go/main.go:324-328 | Without the password box, a password-protected Go server answers 401 and stores nothing, and the page stops after one attempt. |
| `EndToEnd.TextToWorkerGivesUp` | src/index.js:87-89 | Text goes as POST, which the Worker refuses with 405. The page tries three times, waits 1 s and then 2 s, and gives up. |

## Left out

- Progress reporting (`onProgress`, percentages), the DOM, translated strings, language switching, `copyToClipboard`, `addFileToList` and the status messages: presentation only. The page's `formatBytes` is left out because it is floating point.
- `GoGateway.FormatBytes`: only the unit selection is modelled. The `%.2f` rendering is floating point. For the same reason the 413 body says "Upload failed: file too large." without the size.
- RFC 3339 timestamps (`time.Format`, `time.Parse`) are whole seconds written as decimal numerals (`FormatTime`, `ParseTime`), so they read back exactly. `toISOString` in the Worker is treated the same way.
- `GoGateway.ShouldDelete`: the age test compares exact nanoseconds against `maxAge` seconds. The source compares `age.Seconds()` with `float64(maxAge)`, and float rounding near the bound is not modelled.
- The sweeper's concurrency is not modelled: the goroutine per object, the 5-minute ticker, the 2 s wait and the unsynchronised `deletedCount`/`checkedCount` counters. The listing's paging and a `HeadObject` or `DeleteObject` failure during a sweep are left out too; a failed head or delete keeps the object, and the model deletes every object the decision selects.
- `GoGateway.Gateway.DownloadFile`: the deletion of a served one-time object happens in the same step. The source runs it in a goroutine 100 ms after the body is copied and only logs a failure. A second concurrent reader before that deletion is not modelled for Go. It is modelled for the Worker (`ServedAgainBeforeDeletion`).
- `GoGateway.DownloadSpec`: any `HeadObject` error counts as an absent object (404). A `GetObject` error is `Env.storeError` (500). A delete failure on the expired path is not modelled.
- `generateShortURL` (HTTP POST plus JSON decoding) is reduced to its answer, `Env.shortURL`.
- `serveStaticFile` and the Worker's ASSETS responses are reduced to an `Asset(name)` body. The text of the usage banners is a placeholder constant.
- `init` and `main`: the settings they read are fields of `Config`, and the client's `fetchServerConfig` result is the `Option<ServerConfig>` parameter. The page's JSON parsing of `/api/config` is not modelled: `EndToEnd.PageConfig` takes the published fields directly.
- The ServeMux's path cleaning is not modelled: a path with `..`, `.` or `//` segments, which the mux redirects with 301, is dispatched as written.
- Base64 decoding, `mimetype.Lookup`, `mime.getType` and `mime.getExtension` are uninterpreted function values. A nil `mimetype.Lookup` result is `None`. At line 367 the source calls `Extension()` on it and panics. net/http then closes the connection without a response, which the model states as a `Dropped` step.
- `GoGateway.UploadMetadata`: the handlers store the corrected expiry `ExpirationTime` (upload time + seconds), not the wrapped one of line 348 (see Findings). For `seconds * 10^9 > 2^63 - 1` the code as written stores `ExpirationTimeAsWritten(now, seconds)` instead. Because the product wraps modulo `2^64`, that expiry can lie before or after the upload: it is 9223372037 s before it for `seconds = 9223372037`, and it equals the upload time for `seconds = 18446744074`. `GoGateway.AsWrittenAgreesWithoutOverflow` and `GoLifecycle.ExpiringObjectAsWritten` show that the two agree below that bound.
- `GoLifecycle.ExpiringObject`: states the corrected expiry. For `s ≥ 9223372037` the code as written stores `ExpirationTimeAsWritten(now, s)`, not upload time + s. That expiry may lie before or after the upload.
- `GoLifecycle.ExpiringUploadServedUntilExpiry`: holds for the corrected expiry. For `s ≥ 9223372037` the code as written uses the expiry `ExpirationTimeAsWritten(now, s)`, which may lie before or after the upload. For some `s`, such as 9223372037, that expiry is in the past and the first GET deletes the object (`GoGateway.AsWrittenExpiresBeforeUpload`).
- `GoLifecycle.ExpiringUploadGoneAfterExpiry`: holds for the corrected expiry. For `s ≥ 9223372037` the code as written uses the expiry `ExpirationTimeAsWritten(now, s)`. For some `s`, such as 9223372037, that expiry is in the past and the first GET already deletes the object.
- `GoLifecycle.SweepOfUpload`: the sweep decision is about the corrected expiry. For `s ≥ 9223372037` the code as written decides against `ExpirationTimeAsWritten(now, s)`, which may lie before or after the upload. For some `s`, such as 9223372037, the object is swept on the first pass.
- `CloudflareWorker.PutSpec`: the answer carries the corrected link `origin/key` (`FileUrl`), not the `protocol//hostname/key` of line 115 (see Findings). The two agree on the default port, which `FileUrl`'s second postcondition states.
- `CloudflareWorker.Worker.Fetch`: answers with `PutSpec`'s corrected link, so off the default port it differs from the code as written in the same way.
- `EndToEnd.GoAnswer`: a non-text body reaches the page as empty text. The page only reads the text of upload answers, which are always text.
- `EndToEnd.WorkerUploadRecorded`: the page records the corrected link. Off the default port the code as written sends `protocol//hostname/key` instead, which the page would record.
- `rand.Intn` and `Math.random` are the injected draws. Key collisions are not checked, as in the source: a second upload that draws the same key overwrites the first (`bucket[key := obj]`).
- The store's streaming (no buffering of the body) is not modelled: an upload's body is a byte sequence.
- `CloudflareWorker.DownloadHeaders`: `writeHttpMetadata` copies only the stored content type in this model; other R2 HTTP metadata fields are not modelled.
- The `setTimeout` backoff sleeps and `ctx.waitUntil` scheduling are left out; the backoff length appears as the `delays` of a run.
- JavaScript number precision is not modelled: the expiration value and the seconds are unbounded integers.

## Findings

| source | as written | input that shows it | evidently intended | confidence | as-written member | corrected member |
|---|---|---|---|---|---|---|
| docker/go/main.go:348 | `time.Duration(expSec) * time.Second` is an int64 count of nanoseconds that wraps for `expSec ≥ 9223372037`, yet the header is accepted | `X-Expiration-Seconds: 9223372037` stores an `Expirationtime` 9223372037 s before the upload, so the first GET deletes the object and answers 404 | the expiry lies `expSec` seconds after the upload (or the header is refused) | medium; not executed | `GoGateway.AsWrittenExpiresBeforeUpload` | `GoGateway.ExpirationTime` |
| src/index.js:115 | the upload link is `protocol//hostname/key`, and `hostname` drops the port | a PUT to `http://localhost:8787/` is answered with `http://localhost/<key>` | the request's own origin (`url.origin`, as the redirect on line 22 uses) | low; not executed | `CloudflareWorker.LinkDropsPort` | `CloudflareWorker.FileUrl` |
