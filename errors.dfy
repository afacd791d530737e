/** The error values that flow through the core.  Swift's `Error` is an
    open existential; the model names the kinds the core produces or tests
    for and folds everything raised by code outside the model into
    `Foreign`. */
module Errors {
  import opened Wrappers

  /** `Request.Networking` (Exposure/Request.swift). */
  datatype Networking =
    | InvalidUrl(url: string)
    | UnacceptableStatusCode(code: int)
    | NoResponseData
    | ParameterEncodingFailedMissingUrl

  /** A Swift `Error` as the core sees it: one of its own error types, or an
      error thrown by a collaborator (URL loading, JSON decoding, the
      platform's key-request primitive). */
  datatype Error =
    | NetworkingError(reason: Networking)
    | Exposure(exposure: ExposureError)
    | Foreign(description: string)

  /** The `.fairplay(reason:)` cases the key exchange raises. */
  datatype FairplayError =
    | InvalidContentIdentifier
    | MissingApplicationCertificateUrl
    | NetworkFailure(error: Error)
    | ApplicationCertificateDataFormatInvalid
    | ServerPlaybackContext(error: Error)
    | MissingContentKeyContextUrl
    | ContentKeyContextDataFormatInvalid
    | MissingDataRequest
    | MissingContentKeyContext

  /** The download framework's error reasons the controller raises or relays. */
  datatype DownloadError =
    | InvalidMediaUrl(path: string)
    | FailedToStartTaskWithoutDestination
    | Transfer(description: string)

  /** `ExposureError`, restricted to the cases this core produces. */
  datatype ExposureError =
    | Fairplay(fairplay: FairplayError)
    | Download(download: DownloadError)
    | GeneralError(error: Error)
    | ExposureResponse(message: string)

  /** `error as? ExposureError`. */
  function AsExposureError(e: Error): (r: Option<ExposureError>)
    ensures r.Some? <==> e.Exposure?
    ensures r.Some? ==> e == Exposure(r.value)
  {
    if e.Exposure? then Some(e.exposure) else None
  }
}
