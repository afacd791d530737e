# Exposure client core, modelled in Dafny

This project models the core of the Exposure iOS client library. That
library is a Swift client for a video platform: it fetches entitlements,
lists EPGs (electronic programme guides), obtains FairPlay keys and
downloads assets for offline playback. The model covers five parts:

- **`ExposureDownloadTask`** (`download.dfy`, module `ExposureDownload`). This
  controller takes one asset from entitlement to offline download. It
  prepares from the session store or from a new entitlement request. It
  configures and restores the download task, and it relays the task's events
  to the callbacks installed on it. It also writes the asset's record to the
  store whenever a download is cancelled, completes or fails.
- **`USPFairPlayRequester`** (`fairplay.dfy`, module `FairPlay`). This is the
  resource-loader delegate that answers FairPlay `skd://` key requests. It
  fetches the application certificate, has the platform build an SPC (server
  playback context), posts the SPC to the license server, decodes the CKC
  (content key context) and hands the key to the loading request.
- **`Request`** (`request.dfy`, module `HttpRequest`). This is the networking
  request object. It covers resume, suspend and cancel, the validation
  closures with their first-error-wins rule, status-code validation, and the
  messages of networking errors.
- **`FetchEpgList`** (`epg.dfy`, module `Epg`). This builds the endpoint,
  headers and query parameters of the EPG listing request, including the
  comma-separated sort string.
- **`FilteredDates`** (`filtered_dates.dfy`, module `FilteredDates`). This is
  the date window of EPG requests.

Supporting modules:

- `Wrappers` holds `Option`, the source's `Result` and Swift's `Int64`.
- `Errors` holds the error enums the core produces.
- `Base64` is the base64 alphabet of section 4 of RFC 4648. It decodes with
  the "ignore unknown characters" option the source passes, and it comes with
  a proved round trip.
- `Decimal` holds the decimal rendering of integers used in error messages.

Collaborators outside the core are parameters of the model:

- the download framework's session manager, its tasks and offline assets;
- the entitlement endpoint;
- the HTTP servers, as a function from call to reply;
- the platform's SPC primitive;
- URL parsing;
- the current date.

The steps whose order matters are appended to logs:

- The download controller's ghost `trace` records store writes, entitlement
  requests, task restoration and creation, the commands sent to the task or
  the request, and every callback fired. It does not record the queries the
  controller makes (`offline(assetId:)`, the offline asset's state,
  `URL(string:)`). Those answers are parameters. It also does not record the
  bitrate and closures handed to a task, which are fields of the task.
- The FairPlay requester's ghost `calls` records its HTTP requests. It does
  not record the SPC primitive, whose answer is a parameter.
- A loading request keeps the `events` it receives.

The contracts can therefore state the order of these steps, and not only the
final state.

Where the code and the repository's documented behaviour disagree, the model
follows the code:

- The FairPlay certificate fetch does not validate the HTTP status. A 500
  reply is therefore parsed as a certificate envelope. Its decoding error is
  not an `ExposureError`, so the `as? ExposureError` cast yields `nil`, and
  the certificate callback receives neither data nor error. The challenge is
  left unfinished: it neither fails with a networking error nor delivers a
  key (`FairPlay.UnfinishedIff`,
  `FairPlay.CertificateErrorPageLeavesChallengeUnfinished`).
- The EPG sort string is documented in the code as keys separated by ",",
  with descending keys prefixed by "-". The conditional
  `ascending ? "" : "-" + key` binds looser than `+`, so an ascending key
  contributes the empty string, not its name. For example, descending
  `startTime`, ascending `title` and descending `id` give "-startTime,,-id"
  (`Epg.SortEntry`, `Epg.SortStringExample`).

Two further behaviours of the code as written, which the model keeps:

- Cancelling during the entitlement stage keeps the entitlement request. A
  second `cancel()` therefore cancels it and announces
  `onEntitlementRequestCancelled` again (`ExposureDownload.ExposureDownloadTask.Cancel`).
- `onEntitlementRequestStarted` can be set but is never fired
  (`ExposureDownload.EntitlementRequestStartedNeverFires`).

## Model

| member | source | states |
|---|---|---|
| Wrappers.Result.Value | Exposure/Request.swift:215-222 | `value` is present exactly on success, and it is the carried value |
| Wrappers.Result.Error | Exposure/Request.swift:225-232 | `error` is present exactly on failure, and it is the carried error |
| Wrappers.ValueXorError | Exposure/Request.swift:210-233 | every result has exactly one of a value and an error |
| Errors.AsExposureError | Exposure/Player/USPFairPlayRequester.swift:198-200 | the `as? ExposureError` cast yields the inner error exactly for exposure errors, and `nil` for networking and foreign errors |
| HttpRequest.AcceptableStatusCodesAreSuccessful | Exposure/Request.swift:137 | the default acceptable codes are exactly 200 through 299, the "Successful 2xx" class of section 15.3 of RFC 9110 |
| HttpRequest.ValidateStatusCode | Exposure/Request.swift:142-154 | a response is valid if and only if its code is acceptable; otherwise the error is `unacceptableStatusCode` carrying that code |
| HttpRequest.Execute | Exposure/Request.swift:165-173 | a validation closure never overwrites a recorded error and records nothing without a response; otherwise it records exactly the validation's error, and nothing when the validation passes |
| HttpRequest.RecordedErrorIsKept | Exposure/Request.swift:165-175 | an error recorded before the validations run survives all of them |
| HttpRequest.NoResponseNoError | Exposure/Request.swift:166-172 | without a response, no sequence of validations records an error |
| HttpRequest.FirstFailureWins | Exposure/Request.swift:164-178 | with a response and no prior error, no error is recorded if and only if every validation passes, and a recorded error is that of the first failing validation |
| HttpRequest.Message | Exposure/Request.swift:243-250 | a status code can be read back from a message exactly when the message is that of `unacceptableStatusCode`, and it is that error's code, negative codes included |
| HttpRequest.Request.constructor | Exposure/Request.swift:94-99 | a new request holds the given task and error, with no validations and no commands sent; it has no response or data, and `Valid` (no response or data without a task) holds |
| HttpRequest.Request.Resume | Exposure/Request.swift:104-108 | with a task, the task is resumed and the queue is untouched; without one, only the delegate's queue is unsuspended |
| HttpRequest.Request.Suspend | Exposure/Request.swift:111-115 | the task is suspended; without a task, nothing happens |
| HttpRequest.Request.Cancel | Exposure/Request.swift:118-122 | the task is cancelled; without a task, nothing happens |
| HttpRequest.Request.Validate | Exposure/Request.swift:164-178 | exactly one closure is appended after those already queued |
| HttpRequest.Request.ValidateStatusCodes | Exposure/Request.swift:188-197 | appends a status-code validation for the given codes |
| HttpRequest.Request.ValidateDefault | Exposure/Request.swift:205-207 | appends the validation for codes 200 through 299 |
| HttpRequest.Request.RunValidation | Exposure/Request.swift:165-173 | running a queued closure leaves the delegate's error as `Execute` decides; without a task it never records an error |
| Base64.Encode | Exposure/Player/USPFairPlayRequester.swift:254 | the encoding has 4 characters per started group of 3 bytes |
| Base64.EncodeIsKnown | Exposure/Player/USPFairPlayRequester.swift:254 | every character of an encoding is in the RFC 4648 alphabet or is padding |
| Base64.DecodeIgnoresUnknown | Exposure/Player/USPFairPlayRequester.swift:215 | under `ignoreUnknownCharacters`, removing a character outside the alphabet does not change the decoding |
| Base64.Decode | Exposure/Player/USPFairPlayRequester.swift:279 | decoding succeeds only when the alphabet characters form whole quadruples, and gives three bytes per quadruple (one to three for the last) |
| Base64.RoundTrip | Exposure/Player/USPFairPlayRequester.swift:254-258 | decoding an encoding gives back the bytes |
| Base64.DecodeCertExample | Exposure/Player/USPFairPlayRequester.swift:215 | "Q0VSVA==" decodes to the bytes of "CERT" |
| Base64.DecodeKeyExample | Exposure/Player/USPFairPlayRequester.swift:279 | "S0VZ" decodes to the bytes of "KEY" |
| Base64.DecodeRejectsMisplacedPadding | Exposure/Player/USPFairPlayRequester.swift:279-282 | a `ckc` of whole quadruples with a '=' out of place ("S0=Z") is not accepted |
| FairPlay.DecodeField | Exposure/Player/USPFairPlayRequester.swift:223-239 | decoding a single-field envelope succeeds if and only if the body is a JSON object whose field is a string, yields that string, and fails with an error that is not an `ExposureError` |
| FairPlay.ParseApplicationCertificate | Exposure/Player/USPFairPlayRequester.swift:213-219 | if the `TempCert` envelope does not decode, its decoding error is rethrown, and that error is not an `ExposureError`; if it decodes and its text is base64, the result is the decoded bytes; if the text is not base64, the error is `applicationCertificateDataFormatInvalid` |
| FairPlay.CertificateEnvelopeRoundTrip | Exposure/Player/USPFairPlayRequester.swift:213-219 | a certificate sent base64-encoded in its envelope is parsed back unchanged |
| FairPlay.CertificateEnvelopeExample | Exposure/Player/USPFairPlayRequester.swift:213-225 | `{"certificate": "Q0VSVA=="}` parses to the bytes of "CERT" |
| FairPlay.CertificateCallback | Exposure/Player/USPFairPlayRequester.swift:178-204 | no URL gives `missingApplicationCertificateUrl`; a transport error `e` gives `networking(e)`; a reply gives the parsed certificate as data, or the parse error cast with `as? ExposureError`; so neither data nor error arrives exactly when the reply is not a `TempCert` envelope, and never both |
| FairPlay.LicenseParameters | Exposure/Player/USPFairPlayRequester.swift:254-258 | the license request carries exactly an empty `mediaId` and an `spc` from which the SPC bytes decode back |
| FairPlay.ContentKeyCallback | Exposure/Player/USPFairPlayRequester.swift:249-291 | no URL gives `missingContentKeyContextUrl`; a transport error `e` gives `networking(e)`; a reply that is not a `TempCKC` envelope (not JSON, no `ckc` key, not a string) gives `generalError` with the decoding error; a `ckc` that is not base64 gives `contentKeyContextDataFormatInvalid`; otherwise the data is the decoded `ckc`; exactly one of data and error is set |
| FairPlay.Envelope | Exposure/Player/USPFairPlayRequester.swift:223-239 | the JSON form of a `TempCert` or `TempCKC` envelope decodes back to its field's text |
| FairPlay.Challenge | Exposure/Player/USPFairPlayRequester.swift:88-169 | a challenge makes no HTTP call without a host or a certificate URL; otherwise it first GETs the certificate URL and at most then POSTs once to the same URL; a delivered key takes both calls |
| FairPlay.ShouldContactRemote | Exposure/Player/USPFairPlayRequester.swift:29-32 | streaming always contacts the remote |
| FairPlay.OnSuccessfulRetrieval | Exposure/Player/USPFairPlayRequester.swift:25-27 | the key delivered is the CKC unchanged |
| FairPlay.NoHostFailsBeforeFetching | Exposure/Player/USPFairPlayRequester.swift:90-95 | a request without a URL or host fails with `invalidContentIdentifier` before any HTTP call |
| FairPlay.UnfinishedIff | Exposure/Player/USPFairPlayRequester.swift:101-109 | a challenge is left unfinished if and only if the certificate server replied with a body that is not a `TempCert` envelope |
| FairPlay.CertificateErrorPageLeavesChallengeUnfinished | Exposure/Player/USPFairPlayRequester.swift:184-201 | a non-JSON error page from the certificate server leaves the challenge unfinished after the single certificate GET |
| FairPlay.NeverMissingContentKeyContext | Exposure/Player/USPFairPlayRequester.swift:131-135 | the `missingContentKeyContext` failure can never occur |
| FairPlay.CertificateErrorStops | Exposure/Player/USPFairPlayRequester.swift:103-107 | a certificate error finishes the request with that error, and the license server is not contacted |
| FairPlay.SpcErrorStops | Exposure/Player/USPFairPlayRequester.swift:111-112 | an error thrown while building the SPC finishes the request as `serverPlaybackContext`, and the license server is not contacted |
| FairPlay.FulfilledKeyIsDecodedCkc | Exposure/Player/USPFairPlayRequester.swift:109-143 | a delivered key needs a data request and a host, and is the decoded `ckc` of the reply to the one license POST carrying the SPC built from the certificate and the host |
| FairPlay.AllStagesSucceedDelivers | Exposure/Player/USPFairPlayRequester.swift:109-143 | when the certificate is delivered, the SPC is built and the license reply's `ckc` decodes, whatever other members the replies carry, the decoded `ckc` is handed to the data request and loading finishes, after exactly the GET and the POST |
| FairPlay.ExchangeDeliversKey | Exposure/Player/USPFairPlayRequester.swift:88-169 | when both servers answer with exactly the single-member envelopes of the base64 encodings of a certificate and a key, that key is recovered exactly, handed to the data request, and loading then finishes |
| FairPlay.CkcErrorStops | Exposure/Player/USPFairPlayRequester.swift:117-123 | an error from the content key context fetch finishes the request with that error, after the certificate GET and the license POST |
| FairPlay.MissingDataRequestFails | Exposure/Player/USPFairPlayRequester.swift:125-129 | after a successful license fetch, a loading request without a data request finishes with `missingDataRequest` and receives no key |
| FairPlay.MalformedCkcFails | Exposure/Player/USPFairPlayRequester.swift:279-282 | any `ckc` that does not decode as base64 fails the challenge with `contentKeyContextDataFormatInvalid`, with or without a data request |
| FairPlay.CkcEnvelopeExample | Exposure/Player/USPFairPlayRequester.swift:272-283 | `{"ckc": "S0VZ"}` yields the bytes of "KEY" |
| FairPlay.USPFairPlayRequester.constructor | Exposure/Player/USPFairPlayRequester.swift:207-211 | the certificate URL is the hard-coded FairPlay server |
| FairPlay.USPFairPlayRequester.LicenseUrl | Exposure/Player/USPFairPlayRequester.swift:294-298 | the license URL is the certificate URL |
| FairPlay.USPFairPlayRequester.FetchApplicationCertificate | Exposure/Player/USPFairPlayRequester.swift:178-204 | the callback's arguments are `CertificateCallback`'s, and at most one GET is made, to the certificate URL |
| FairPlay.USPFairPlayRequester.FetchContentKeyContext | Exposure/Player/USPFairPlayRequester.swift:249-291 | the callback's arguments are `ContentKeyCallback`'s, and at most one JSON POST is made, to the license URL |
| FairPlay.USPFairPlayRequester.Handle | Exposure/Player/USPFairPlayRequester.swift:88-169 | the loading request receives exactly the events of the challenge's outcome (key then finish, one error, or nothing), and the requester makes exactly the challenge's calls |
| FairPlay.USPFairPlayRequester.CanHandle | Exposure/Player/USPFairPlayRequester.swift:51-75 | a request is claimed if and only if its URL has the `skd` scheme; unclaimed requests are untouched, and claimed ones are handled |
| ExposureDownload.EntitlementRequestStartedNeverFires | Exposure/Download/ExposureDownloadTask.swift:78-102 | no trace of a valid controller publishes `onEntitlementRequestStarted`; every method keeps the controller valid |
| ExposureDownload.Bps | Exposure/Download/ExposureDownloadTask.swift:158 | a task gets a bitrate exactly when one is required, and it is the kbit/s value times 1000 |
| ExposureDownload.MirrorIsOneToOne | Exposure/Download/ExposureDownloadTask.swift:278-287 | the controller's states correspond one to one with the task's |
| ExposureDownload.Relay | Exposure/Download/ExposureDownloadTask.swift:157-205 | canceled, completed and error events write the captured entitlement and the reported location to the store before their callback fires; other events only fire theirs; each task event fires exactly its own callback (`onPrepared`, `onSuspended`, `onResumed`, `onCanceled`, `onCompleted`, `onProgress`, `onError` wrapping the download error, `onPlaybackReady`, `onDownloadingMediaOption`) with the event's payload; no relay publishes `onEntitlementRequestStarted` |
| ExposureDownload.RelayIsOrderly | Exposure/Download/ExposureDownloadTask.swift:174-192 | relaying any event keeps the trace orderly: each canceled or located error event directly follows the store write of its location, and each completed event follows either that write or (for an asset found complete offline) its entitlement response |
| ExposureDownload.SessionManager.Save | Exposure/Download/ExposureDownloadTask.swift:114 | saving replaces the asset's whole record |
| ExposureDownload.SessionManager.Download | Exposure/Download/ExposureDownloadTask.swift:128-134 | a new download task is fresh and not started |
| ExposureDownload.ExposureDownloadTask.constructor | Exposure/Download/ExposureDownloadTask.swift:23-29 | a new controller has no task, no request, no entitlement and no callbacks |
| ExposureDownload.ExposureDownloadTask.Installed | Exposure/Download/ExposureDownloadTask.swift:38-52 | a callback never set is the do-nothing default |
| ExposureDownload.ExposureDownloadTask.HookCallbacks | Exposure/Download/ExposureDownloadTask.swift:157-205 | the task gets the required bitrate and closures capturing the entitlement; its state is unchanged |
| ExposureDownload.ExposureDownloadTask.ConfigureDownloadTask | Exposure/Download/ExposureDownloadTask.swift:104-155 | an unparsable media locator reports `invalidMediaUrl`, sets the download task to nil, and changes neither the store nor the restored task; otherwise the entitlement is saved without a location, a restored or new task is hooked, adopted and prepared, in that order, and a restored task keeps its state |
| ExposureDownload.ExposureDownloadTask.StartEntitlementRequest | Exposure/Download/ExposureDownloadTask.swift:78-85 | a fresh request capturing `lazily` is started and held |
| ExposureDownload.ExposureDownloadTask.HandleEntitlementResponse | Exposure/Download/ExposureDownloadTask.swift:86-101 | a failure is reported and keeps the request and the task; a success drops the request, keeps and announces the entitlement, then configures the task |
| ExposureDownload.ExposureDownloadTask.Prepare | Exposure/Download/ExposureDownloadTask.swift:59-76 | `prepare(lazily:)` (lines 222-231, `lazily` defaulting to true) through `prepareFrom`: with a stored record, a completed asset announces its stored entitlement and completion, and an unplayable one configures a task from the stored entitlement; without a record, an entitlement request is started |
| ExposureDownload.ExposureDownloadTask.Resume | Exposure/Download/ExposureDownloadTask.swift:234-244 | resumes the task, else the entitlement request, else starts an eager entitlement request |
| ExposureDownload.ExposureDownloadTask.Suspend | Exposure/Download/ExposureDownloadTask.swift:246-253 | suspends the task, else the entitlement request, else does nothing |
| ExposureDownload.ExposureDownloadTask.Cancel | Exposure/Download/ExposureDownloadTask.swift:255-263 | cancels the task; else cancels the entitlement request, keeps it and announces the cancellation; else does nothing |
| ExposureDownload.ExposureDownloadTask.Use | Exposure/Download/ExposureDownloadTask.swift:265-268 | the required bitrate becomes the given one, for tasks hooked from now on |
| ExposureDownload.ExposureDownloadTask.OnTaskEvent | Exposure/Download/ExposureDownloadTask.swift:157-205 | a task event appends its relay to the log and updates the store only for cancel, complete and fail, keeping the durability invariant |
| ExposureDownload.ExposureDownloadTask.SetHandler | Exposure/Download/ExposureDownloadTask.swift:294-373 | a setter replaces exactly one callback and returns the controller |
| ExposureDownload.ExposureDownloadTask.State | Exposure/Download/ExposureDownloadTask.swift:278-287 | the state is `notStarted` without a task, and otherwise mirrors the task's |
| Epg.SortEntry | Exposure/EPG/Request/FetchEpgList.swift:54-60 | an ascending key contributes the empty string, and a descending one its key after "-" |
| Epg.EndpointUrl | Exposure/EPG/Request/FetchEpgList.swift:14-16 | the endpoint is the API URL followed by "/content/asset" |
| Epg.Parameters | Exposure/EPG/Request/FetchEpgList.swift:18-20 | the parameters are the query parameters |
| Epg.Headers | Exposure/EPG/Request/FetchEpgList.swift:22-24 | there are no headers |
| Epg.QueryParams | Exposure/EPG/Request/FetchEpgList.swift:40-63 | the published, page number and page size filters always appear under their keys; `sort` appears exactly when descriptors are given; no other key appears |
| Epg.SplitJoin | Exposure/EPG/Request/FetchEpgList.swift:59 | joining with a separator absent from the parts, then splitting, gives back the parts |
| Epg.JoinCount | Exposure/EPG/Request/FetchEpgList.swift:59 | n parts are joined with n - 1 separators |
| Epg.SortStringEntries | Exposure/EPG/Request/FetchEpgList.swift:54-60 | for keys without commas, the sort string lists one entry per descriptor, in order, with n - 1 commas |
| Epg.SortStringExample | Exposure/EPG/Request/FetchEpgList.swift:54-60 | descending startTime, ascending title and descending id give "-startTime,,-id" |
| FilteredDates.NewDateFilter | Exposure/EPG/Parameters/FilteredDates.swift:41-49 | a window starts at the given start (default 0) and ends at the given end (default now) |
| FilteredDates.FilterMillis | Exposure/EPG/Parameters/FilteredDates.swift:33-38 | filtering sets exactly the given window and keeps the rest of the request |
| FilteredDates.FilterDates | Exposure/EPG/Parameters/FilteredDates.swift:25-31 | filtering by dates keeps the rest of the request, and a missing start is the epoch |
| FilteredDates.FilterDatesIsFilterMillis | Exposure/EPG/Parameters/FilteredDates.swift:25-38 | the date overload is the millisecond overload on the dates' millisecond values |
| FilteredDates.StartDate | Exposure/EPG/Parameters/FilteredDates.swift:17-19 | the start date is the window's start, in milliseconds since 1970 (read back by `FilterDatesReadBack`) |
| FilteredDates.EndDate | Exposure/EPG/Parameters/FilteredDates.swift:21-23 | the end date is the window's end, in milliseconds since 1970 (read back by `FilterDatesReadBack`) |
| FilteredDates.FilterDatesReadBack | Exposure/EPG/Parameters/FilteredDates.swift:17-31 | `startDate` and `endDate` read back the dates given to `filter` |
| FilteredDates.LastFilterWins | Exposure/EPG/Parameters/FilteredDates.swift:33-38 | filtering again replaces the window entirely |
| FilteredDates.DefaultWindow | Exposure/EPG/Parameters/FilteredDates.swift:25-48 | without arguments, the window runs from the epoch to now |

## Left out

- Networking I/O is left out. The Alamofire requests, the URL session and the
  entitlement endpoint become parameters: a server function from call to
  reply, and an entitlement response passed in.
- Concurrency is left out. Dispatch queues, `weak`/`unowned` captures and the
  asynchronous callbacks are modelled as sequential calls in the order they
  complete, and asynchronous answers are parameters.
- `print` calls are left out; they have no effect on the model.
- The pre-iOS 10 branch of task creation is left out
  (Exposure/Download/ExposureDownloadTask.swift:135-151). Only the iOS 10 and
  later branch is modelled.
- URL parsing (`URL(string:)`) is a parameter of the download controller.
  The FairPlay model takes the request's URL already split into scheme and
  host.
- The UTF-8 conversion of the host into the content identifier is folded into
  the SPC primitive. That conversion cannot fail for a Swift string.
- The return value of `onShouldDownloadMediaOption` is left out. The
  controller hands it back to the task, and the model does not track the
  media options a task downloads. The callback is kept only as a settable
  kind.
- `ExposureDownloadFairplayRequester`, which the controller gives each task,
  is not part of this model.
- An offline media asset is taken to exist exactly when the session store
  holds a record for the asset. Its state (`completed` or `notPlayable`) is a
  parameter.
- ExposureDownload.ExposureDownloadTask.Prepare: the completed state
  carries the URL that `onCompleted` publishes. The model therefore has no
  trap where the source force-unwraps `urlAsset`, and that URL is not tied
  to the location in the store record. For this reason the trace invariant
  lets a completed event follow its entitlement response instead of a store
  write.
- ExposureDownload.Bps does not model the trap when `requiredBitrate * 1000`
  overflows `Int64`; the model multiplies unbounded integers.
- `Date` to milliseconds conversion goes through floating point in the
  source. In the model a `Date` is its millisecond count.
- The entitlement request's environment, session token and play-request
  parameters (DRM and format) are left out. Only its laziness and its
  response are modelled.
- The `throws` of `shouldContactRemote` and `onSuccessfulRetrieval` are left
  out: this requester's implementations never throw.
- The custom validation closure's `URLRequest` argument is left out: closures
  see only the response and the data.
- Session-level delegate callbacks are left out. `TaskDelegate` is not part
  of this model, so the response, data and error a request holds are fields
  set from outside.
- HttpRequest.Message renders `invalidUrl` with the URL's string, not with
  the `URLConvertible` description. `URLConvertible` is not part of this
  model.
- The defaults of `SortDescription`, `PageFilter` and `PublishFilter` are
  left out. Their declarations are not part of this model, so requests take
  these values as given.
- JSON is modelled only as far as the two single-field envelopes need. A
  non-JSON reply to the license POST fails in `JSONSerialization`, and the
  model reports that as the same foreign decoding error.
