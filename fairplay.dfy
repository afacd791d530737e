/** Exposure/Player/USPFairPlayRequester.swift: the FairPlay key exchange for
    one `skd://` content-key challenge.  The certificate and license servers
    are one function from the HTTP call made to the reply obtained, and the
    platform's SPC primitive (`streamingContentKeyRequestData`) is a function
    from certificate and content identifier to bytes or a thrown error.  The
    nested completion callbacks run synchronously, so a challenge is the
    sequence of events its loading request receives. */
module FairPlay {
  import opened Wrappers
  import opened Errors
  import Base64

  type Data = seq<Base64.byte>

  /** The parts of a loading request's URL the requester reads. */
  datatype Url = Url(scheme: string, host: Option<string>)

  /** A JSON document, as far as the envelopes need it. */
  datatype JsonValue =
    | JString(text: string)
    | JObject(members: map<string, JsonValue>)
    | JOther

  /** A response body: a JSON document or bytes that are not JSON. */
  datatype Body = Json(document: JsonValue) | NotJson

  /** The two HTTP calls of the exchange: the certificate GET and the JSON
      POST to the license server. */
  datatype HttpCall = Get(url: string) | PostJson(url: string, parameters: map<string, string>)

  /** What `responseData` hands its closure: a transport error, or the body.
      No status code validation is chained onto these requests, so an error
      status with a body arrives as `Reply`. */
  datatype HttpReply = TransportError(error: Error) | Reply(body: Body)

  type Server = HttpCall -> HttpReply

  /** `streamingContentKeyRequestData(forApp:contentIdentifier:options:)`. */
  type SpcPrimitive = (Data, string) -> Result<Data, Error>

  /** The two arguments a fetch passes to its completion callback. */
  datatype Callback = Callback(data: Option<Data>, error: Option<ExposureError>)

  /** What the loading request receives. */
  datatype LoadingEvent = Responded(data: Data) | Finished | FinishedWithError(error: Error)

  /** How a challenge ends: a key delivered, an error, or neither (the
      loading request is never finished). */
  datatype Outcome = Fulfilled(key: Data) | Failed(error: Error) | Unfinished

  /** A challenge's outcome together with the HTTP calls it made, in order. */
  datatype Run = Run(outcome: Outcome, calls: seq<HttpCall>)

  const CustomScheme: string := "skd"

  /** The hard-coded certificate server. */
  const CertificateUrlString: string := "http://psempfairplayserver.northeurope.cloudapp.azure.com:8080/fps/BlixtGroup/Blixt/"

  /** `JSONDecoder` errors are not `ExposureError`s. */
  const JsonSyntaxError: Error := Foreign("dataCorrupted")

  function KeyNotFound(key: string): Error {
    Foreign("keyNotFound: " + key)
  }

  function TypeMismatch(key: string): Error {
    Foreign("typeMismatch: " + key)
  }

  /** Decoding a single-field `Decodable` envelope (`TempCert`, `TempCKC`):
      the body must be a JSON object whose `key` member is a string. */
  function DecodeField(body: Body, key: string): (r: Result<string, Error>)
    ensures r.Success? <==> (body.Json? && body.document.JObject? && key in body.document.members
                             && body.document.members[key].JString?)
    ensures r.Success? ==> r.value == body.document.members[key].text
    ensures r.Failure? ==> AsExposureError(r.error).None?
  {
    match body
    case NotJson => Failure(JsonSyntaxError)
    case Json(JObject(members)) =>
      if key !in members then Failure(KeyNotFound(key))
      else if members[key].JString? then Success(members[key].text)
      else Failure(TypeMismatch(key))
    case Json(_) => Failure(TypeMismatch(key))
  }

  /** `{<key>: <text>}`, the JSON form of a single-field envelope: `TempCert`
      under "certificate", `TempCKC` under "ckc". */
  function Envelope(key: string, text: string): (body: Body)
    ensures DecodeField(body, key) == Success(text)
  {
    Json(JObject(map[key := JString(text)]))
  }

  /** `parseApplicationCertificate(response:)`: decode `TempCert`, then
      base64-decode its `certificate` ignoring unknown characters.  Only the
      base64 failure is an `ExposureError`. */
  function ParseApplicationCertificate(body: Body): (r: Result<Data, Error>)
    ensures r.Success? ==> (DecodeField(body, "certificate").Success?
                            && Base64.Decode(DecodeField(body, "certificate").value) == Some(r.value))
    ensures r.Failure? ==> (AsExposureError(r.error).Some? <==> DecodeField(body, "certificate").Success?)
    ensures r.Failure? && DecodeField(body, "certificate").Success? ==>
              r.error == Exposure(Fairplay(ApplicationCertificateDataFormatInvalid))
    ensures DecodeField(body, "certificate").Failure? ==> r == Failure(DecodeField(body, "certificate").error)
    ensures DecodeField(body, "certificate").Success? && Base64.Decode(DecodeField(body, "certificate").value).Some? ==>
              r == Success(Base64.Decode(DecodeField(body, "certificate").value).value)
  {
    match DecodeField(body, "certificate")
    case Failure(e) => Failure(e)
    case Success(text) =>
      match Base64.Decode(text)
      case None => Failure(Exposure(Fairplay(ApplicationCertificateDataFormatInvalid)))
      case Some(certificate) => Success(certificate)
  }

  /** A certificate sent base64-encoded in its envelope is parsed back
      unchanged. */
  lemma CertificateEnvelopeRoundTrip(certificate: Data)
    ensures ParseApplicationCertificate(Envelope("certificate", Base64.Encode(certificate))) == Success(certificate)
  {
    Base64.RoundTrip(certificate);
  }

  /** `{"certificate": "Q0VSVA=="}` carries the ASCII bytes of "CERT". */
  lemma CertificateEnvelopeExample()
    ensures ParseApplicationCertificate(Envelope("certificate", "Q0VSVA==")) == Success([67, 69, 82, 84])
  {
    Base64.DecodeCertExample();
  }

  /** The callback arguments of `fetchApplicationCertificate`, given the
      certificate URL and the server. */
  function CertificateCallback(url: Option<string>, server: Server): (r: Callback)
    ensures r.data.Some? ==> r.error.None?
    ensures r.data.None? && r.error.None? <==>
              url.Some? && server(Get(url.value)).Reply?
              && DecodeField(server(Get(url.value)).body, "certificate").Failure?
    ensures url.None? ==> r == Callback(None, Some(Fairplay(MissingApplicationCertificateUrl)))
    ensures url.Some? && server(Get(url.value)).TransportError? ==>
              r == Callback(None, Some(Fairplay(NetworkFailure(server(Get(url.value)).error))))
    ensures url.Some? && server(Get(url.value)).Reply? ==>
              var parsed := ParseApplicationCertificate(server(Get(url.value)).body);
              && (parsed.Success? ==> r == Callback(Some(parsed.value), None))
              && (parsed.Failure? ==> r == Callback(None, AsExposureError(parsed.error)))
  {
    if url.None? then Callback(None, Some(Fairplay(MissingApplicationCertificateUrl)))
    else
      match server(Get(url.value))
      case TransportError(e) => Callback(None, Some(Fairplay(NetworkFailure(e))))
      case Reply(body) =>
        match ParseApplicationCertificate(body)
        case Success(certificate) => Callback(Some(certificate), None)
        case Failure(e) => Callback(None, AsExposureError(e))
  }

  /** The HTTP calls `fetchApplicationCertificate` makes. */
  function CertificateRequest(url: Option<string>): seq<HttpCall> {
    if url.Some? then [Get(url.value)] else []
  }

  /** The JSON body of the license request: exactly `mediaId` (empty) and
      `spc`, from which the server recovers the SPC bytes. */
  function LicenseParameters(spc: Data): (params: map<string, string>)
    ensures params.Keys == {"mediaId", "spc"}
    ensures params["mediaId"] == ""
    ensures Base64.Decode(params["spc"]) == Some(spc)
  {
    Base64.RoundTrip(spc);
    map["mediaId" := "", "spc" := Base64.Encode(spc)]
  }

  /** The HTTP calls `fetchContentKeyContext` makes. */
  function LicenseRequest(url: Option<string>, spc: Data): seq<HttpCall> {
    if url.Some? then [PostJson(url.value, LicenseParameters(spc))] else []
  }

  /** The callback arguments of `fetchContentKeyContext`: exactly one of them
      is set, so a missing content key context never reaches `handle`. */
  function ContentKeyCallback(url: Option<string>, spc: Data, server: Server): (r: Callback)
    ensures r.data.Some? != r.error.Some?
    ensures r.data.Some? ==> (url.Some? && server(PostJson(url.value, LicenseParameters(spc))).Reply?
              && var field := DecodeField(server(PostJson(url.value, LicenseParameters(spc))).body, "ckc");
                 field.Success? && Base64.Decode(field.value) == r.data)
    ensures url.None? ==> r == Callback(None, Some(Fairplay(MissingContentKeyContextUrl)))
    ensures url.Some? ==>
              var reply := server(PostJson(url.value, LicenseParameters(spc)));
              && (reply.TransportError? ==> r == Callback(None, Some(Fairplay(NetworkFailure(reply.error)))))
              && (reply.Reply? && DecodeField(reply.body, "ckc").Failure? ==>
                    r == Callback(None, Some(GeneralError(DecodeField(reply.body, "ckc").error))))
              && (reply.Reply? && DecodeField(reply.body, "ckc").Success? ==>
                    var decoded := Base64.Decode(DecodeField(reply.body, "ckc").value);
                    && (decoded.None? ==> r == Callback(None, Some(Fairplay(ContentKeyContextDataFormatInvalid))))
                    && (decoded.Some? ==> r == Callback(decoded, None)))
  {
    if url.None? then Callback(None, Some(Fairplay(MissingContentKeyContextUrl)))
    else
      match server(PostJson(url.value, LicenseParameters(spc)))
      case TransportError(e) => Callback(None, Some(Fairplay(NetworkFailure(e))))
      case Reply(NotJson) => Callback(None, Some(GeneralError(JsonSyntaxError)))
      case Reply(body) =>
        match DecodeField(body, "ckc")
        case Failure(e) => Callback(None, Some(GeneralError(e)))
        case Success(text) =>
          match Base64.Decode(text)
          case None => Callback(None, Some(Fairplay(ContentKeyContextDataFormatInvalid)))
          case Some(ckc) => Callback(Some(ckc), None)
  }

  /** `shouldContactRemote(for:)`: streaming always contacts the servers. */
  function ShouldContactRemote(): (r: bool)
    ensures r
  {
    true
  }

  /** `onSuccessfulRetrieval(of:for:)`: the key delivered is the CKC. */
  function OnSuccessfulRetrieval(ckc: Data): (key: Data)
    ensures key == ckc
  {
    ckc
  }

  const InvalidContentIdentifierError: Error := Exposure(Fairplay(InvalidContentIdentifier))

  /** One challenge handled by `handle(resourceLoadingRequest:)`, from the
      request's URL and data request, the configured certificate URL (the
      license URL is the same), the servers and the SPC primitive. */
  function Challenge(url: Option<Url>, hasDataRequest: bool, certificateUrl: Option<string>,
                     server: Server, spc: SpcPrimitive): (run: Run)
    ensures run.calls == [] <==> url.None? || url.value.host.None? || certificateUrl.None?
    ensures |run.calls| <= 2
    ensures |run.calls| >= 1 ==> certificateUrl.Some? && run.calls[0] == Get(certificateUrl.value)
    ensures |run.calls| == 2 ==> certificateUrl.Some? && run.calls[1].PostJson? && run.calls[1].url == certificateUrl.value
    ensures run.outcome.Fulfilled? ==> |run.calls| == 2
  {
    if url.None? || url.value.host.None? then Run(Failed(InvalidContentIdentifierError), [])
    else
      var certificate := CertificateCallback(certificateUrl, server);
      var certificateCalls := CertificateRequest(certificateUrl);
      if certificate.error.Some? then Run(Failed(Exposure(certificate.error.value)), certificateCalls)
      else if certificate.data.None? then Run(Unfinished, certificateCalls)
      else
        match spc(certificate.data.value, url.value.host.value)
        case Failure(e) => Run(Failed(Exposure(Fairplay(ServerPlaybackContext(e)))), certificateCalls)
        case Success(spcData) =>
          var ckc := ContentKeyCallback(certificateUrl, spcData, server);
          var calls := certificateCalls + LicenseRequest(certificateUrl, spcData);
          if ckc.error.Some? then Run(Failed(Exposure(ckc.error.value)), calls)
          else if !hasDataRequest then Run(Failed(Exposure(Fairplay(MissingDataRequest))), calls)
          else if ckc.data.None? then Run(Failed(Exposure(Fairplay(MissingContentKeyContext))), calls)
          else Run(Fulfilled(OnSuccessfulRetrieval(ckc.data.value)), calls)
  }

  /** The events an outcome gives the loading request: the key is delivered
      before loading finishes. */
  function EventsOf(outcome: Outcome): seq<LoadingEvent> {
    match outcome
    case Fulfilled(key) => [Responded(key), Finished]
    case Failed(e) => [FinishedWithError(e)]
    case Unfinished => []
  }

  /** A URL without a host fails the challenge before anything is fetched. */
  lemma NoHostFailsBeforeFetching(url: Option<Url>, hasDataRequest: bool, certificateUrl: Option<string>,
                                  server: Server, spc: SpcPrimitive)
    requires url.None? || url.value.host.None?
    ensures Challenge(url, hasDataRequest, certificateUrl, server, spc)
              == Run(Failed(Exposure(Fairplay(InvalidContentIdentifier))), [])
  {
  }

  /** A challenge is left unfinished exactly when the certificate reply is not
      a `TempCert` envelope: that decoding error is not an `ExposureError`,
      so the certificate callback receives neither data nor error. */
  lemma UnfinishedIff(url: Option<Url>, hasDataRequest: bool, certificateUrl: Option<string>,
                      server: Server, spc: SpcPrimitive)
    ensures Challenge(url, hasDataRequest, certificateUrl, server, spc).outcome.Unfinished? <==>
              url.Some? && url.value.host.Some? && certificateUrl.Some?
              && server(Get(certificateUrl.value)).Reply?
              && DecodeField(server(Get(certificateUrl.value)).body, "certificate").Failure?
  {
  }

  /** An error page (any body that is not JSON) from the certificate server
      leaves the challenge unfinished, with no key delivered and no license
      request made. */
  lemma CertificateErrorPageLeavesChallengeUnfinished(host: string, hasDataRequest: bool,
                                                      server: Server, spc: SpcPrimitive)
    requires server(Get(CertificateUrlString)) == Reply(NotJson)
    ensures Challenge(Some(Url(CustomScheme, Some(host))), hasDataRequest, Some(CertificateUrlString), server, spc)
              == Run(Unfinished, [Get(CertificateUrlString)])
  {
  }

  /** The challenge never fails with `missingContentKeyContext`. */
  lemma NeverMissingContentKeyContext(url: Option<Url>, hasDataRequest: bool, certificateUrl: Option<string>,
                                      server: Server, spc: SpcPrimitive)
    ensures Challenge(url, hasDataRequest, certificateUrl, server, spc).outcome
              != Failed(Exposure(Fairplay(MissingContentKeyContext)))
  {
  }

  /** A certificate stage error finishes the challenge with that error, and
      the license server is never contacted. */
  lemma CertificateErrorStops(url: Option<Url>, hasDataRequest: bool, certificateUrl: Option<string>,
                              server: Server, spc: SpcPrimitive)
    requires url.Some? && url.value.host.Some?
    requires CertificateCallback(certificateUrl, server).error.Some?
    ensures var run := Challenge(url, hasDataRequest, certificateUrl, server, spc);
      && run.outcome == Failed(Exposure(CertificateCallback(certificateUrl, server).error.value))
      && forall i :: 0 <= i < |run.calls| ==> run.calls[i].Get?
  {
  }

  /** An error thrown by the SPC primitive finishes the challenge wrapped as
      `serverPlaybackContext`, and the license server is never contacted. */
  lemma SpcErrorStops(host: string, hasDataRequest: bool, certificateUrl: Option<string>,
                      server: Server, spc: SpcPrimitive, certificate: Data, e: Error)
    requires CertificateCallback(certificateUrl, server).data == Some(certificate)
    requires spc(certificate, host) == Failure(e)
    ensures var run := Challenge(Some(Url(CustomScheme, Some(host))), hasDataRequest, certificateUrl, server, spc);
      && run.outcome == Failed(Exposure(Fairplay(ServerPlaybackContext(e))))
      && forall i :: 0 <= i < |run.calls| ==> run.calls[i].Get?
  {
  }

  /** An error from the license stage (a transport failure, a reply that is
      not a `TempCKC` envelope, a `ckc` that is not base64) finishes the
      challenge with that error, after both calls. */
  lemma CkcErrorStops(host: string, hasDataRequest: bool, certificateUrl: Option<string>,
                      server: Server, spc: SpcPrimitive, certificate: Data, spcData: Data, e: ExposureError)
    requires CertificateCallback(certificateUrl, server).data == Some(certificate)
    requires spc(certificate, host) == Success(spcData)
    requires ContentKeyCallback(certificateUrl, spcData, server).error == Some(e)
    ensures var run := Challenge(Some(Url(CustomScheme, Some(host))), hasDataRequest, certificateUrl, server, spc);
      && run.outcome == Failed(Exposure(e))
      && certificateUrl.Some?
      && run.calls == [Get(certificateUrl.value), PostJson(certificateUrl.value, LicenseParameters(spcData))]
  {
  }

  /** A loading request without a data request fails with
      `missingDataRequest` once the license reply has been decoded, and no
      key is delivered. */
  lemma MissingDataRequestFails(host: string, certificateUrl: Option<string>,
                                server: Server, spc: SpcPrimitive, certificate: Data, spcData: Data)
    requires CertificateCallback(certificateUrl, server).data == Some(certificate)
    requires spc(certificate, host) == Success(spcData)
    requires ContentKeyCallback(certificateUrl, spcData, server).error.None?
    ensures var run := Challenge(Some(Url(CustomScheme, Some(host))), false, certificateUrl, server, spc);
      && run.outcome == Failed(Exposure(Fairplay(MissingDataRequest)))
      && EventsOf(run.outcome) == [FinishedWithError(Exposure(Fairplay(MissingDataRequest)))]
      && |run.calls| == 2
  {
  }

  /** The SPC is built from the certificate and the URL's host, and a
      delivered key is the base64-decoded `ckc` of the license server's reply
      to the request carrying that SPC. */
  lemma FulfilledKeyIsDecodedCkc(url: Option<Url>, hasDataRequest: bool, certificateUrl: Option<string>,
                                 server: Server, spc: SpcPrimitive)
    ensures var run := Challenge(url, hasDataRequest, certificateUrl, server, spc);
      run.outcome.Fulfilled? ==>
        hasDataRequest && url.Some? && url.value.host.Some? && certificateUrl.Some? &&
        var certificate := CertificateCallback(certificateUrl, server).data;
        certificate.Some? && spc(certificate.value, url.value.host.value).Success? &&
        var spcData := spc(certificate.value, url.value.host.value).value;
        var call := PostJson(certificateUrl.value, LicenseParameters(spcData));
        run.calls == [Get(certificateUrl.value), call]
        && server(call).Reply? && DecodeField(server(call).body, "ckc").Success?
        && Base64.Decode(DecodeField(server(call).body, "ckc").value) == Some(run.outcome.key)
  {
  }

  /** Every stage succeeding delivers the key: a certificate, an SPC and a
      decoded `ckc`, whatever else the replies carry, and a data request to
      respond to, fulfil the challenge with that `ckc`. */
  lemma AllStagesSucceedDelivers(host: string, certificateUrl: Option<string>, server: Server, spc: SpcPrimitive,
                                 certificate: Data, spcData: Data, key: Data)
    requires CertificateCallback(certificateUrl, server).data == Some(certificate)
    requires spc(certificate, host) == Success(spcData)
    requires ContentKeyCallback(certificateUrl, spcData, server).data == Some(key)
    ensures var run := Challenge(Some(Url(CustomScheme, Some(host))), true, certificateUrl, server, spc);
      && run.outcome == Fulfilled(key)
      && EventsOf(run.outcome) == [Responded(key), Finished]
      && certificateUrl.Some?
      && run.calls == [Get(certificateUrl.value), PostJson(certificateUrl.value, LicenseParameters(spcData))]
  {
  }

  /** The full exchange: a certificate and a key sent base64-encoded in their
      envelopes are recovered exactly, and the key is delivered. */
  lemma ExchangeDeliversKey(host: string, server: Server, spc: SpcPrimitive,
                            certificate: Data, spcData: Data, key: Data)
    requires server(Get(CertificateUrlString)) == Reply(Envelope("certificate", Base64.Encode(certificate)))
    requires spc(certificate, host) == Success(spcData)
    requires server(PostJson(CertificateUrlString, LicenseParameters(spcData)))
               == Reply(Envelope("ckc", Base64.Encode(key)))
    ensures var run := Challenge(Some(Url(CustomScheme, Some(host))), true, Some(CertificateUrlString), server, spc);
      && run.outcome == Fulfilled(key)
      && EventsOf(run.outcome) == [Responded(key), Finished]
  {
    CertificateEnvelopeRoundTrip(certificate);
    Base64.RoundTrip(key);
  }

  /** A `ckc` that is not base64 (a key sent unencoded, say) fails the
      challenge with `contentKeyContextDataFormatInvalid`, whether or not the
      request has a data request. */
  lemma MalformedCkcFails(host: string, hasDataRequest: bool, server: Server, spc: SpcPrimitive,
                          certificate: Data, spcData: Data, text: string)
    requires CertificateCallback(Some(CertificateUrlString), server).data == Some(certificate)
    requires spc(certificate, host) == Success(spcData)
    requires server(PostJson(CertificateUrlString, LicenseParameters(spcData))) == Reply(Envelope("ckc", text))
    requires Base64.Decode(text).None?
    ensures Challenge(Some(Url(CustomScheme, Some(host))), hasDataRequest, Some(CertificateUrlString), server, spc).outcome
              == Failed(Exposure(Fairplay(ContentKeyContextDataFormatInvalid)))
  {
  }

  /** `{"ckc": "S0VZ"}` carries the ASCII bytes of "KEY". */
  lemma CkcEnvelopeExample(spcData: Data, server: Server)
    requires server(PostJson(CertificateUrlString, LicenseParameters(spcData))) == Reply(Envelope("ckc", "S0VZ"))
    ensures ContentKeyCallback(Some(CertificateUrlString), spcData, server) == Callback(Some([75, 69, 89]), None)
  {
    Base64.DecodeKeyExample();
  }

  /** `AVAssetResourceLoadingRequest`: its URL, whether it has a data
      request, and the events it has received. */
  class LoadingRequest {
    const url: Option<Url>
    const hasDataRequest: bool
    var events: seq<LoadingEvent>

    constructor (url: Option<Url>, hasDataRequest: bool)
      ensures this.url == url && this.hasDataRequest == hasDataRequest && events == []
    {
      this.url := url;
      this.hasDataRequest := hasDataRequest;
      events := [];
    }

    /** `dataRequest.respond(with:)`. */
    method Respond(data: Data)
      requires hasDataRequest
      modifies this
      ensures events == old(events) + [Responded(data)]
    {
      events := events + [Responded(data)];
    }

    /** `finishLoading()`. */
    method FinishLoading()
      modifies this
      ensures events == old(events) + [Finished]
    {
      events := events + [Finished];
    }

    /** `finishLoading(with:)`. */
    method FinishLoadingWithError(error: Error)
      modifies this
      ensures events == old(events) + [FinishedWithError(error)]
    {
      events := events + [FinishedWithError(error)];
    }
  }

  /** `USPFairPlayRequester`. */
  class USPFairPlayRequester {
    /** `certificateUrl`; `licenseUrl` returns the same. */
    const certificateUrl: Option<string>
    /** The HTTP calls made so far. */
    ghost var calls: seq<HttpCall>

    /** A requester whose certificate URL is the hard-coded server. */
    constructor ()
      ensures certificateUrl == Some(CertificateUrlString) && calls == []
    {
      certificateUrl := Some(CertificateUrlString);
      calls := [];
    }

    /** `licenseUrl`: the certificate URL. */
    function LicenseUrl(): (r: Option<string>)
      ensures r == certificateUrl
    {
      certificateUrl
    }

    /** `fetchApplicationCertificate(callback:)`, returning the callback's
        arguments. */
    method FetchApplicationCertificate(server: Server) returns (certificate: Option<Data>, error: Option<ExposureError>)
      modifies this`calls
      ensures Callback(certificate, error) == CertificateCallback(certificateUrl, server)
      ensures calls == old(calls) + CertificateRequest(certificateUrl)
    {
      if certificateUrl.None? {
        return None, Some(Fairplay(MissingApplicationCertificateUrl));
      }
      var call := Get(certificateUrl.value);
      calls := calls + [call];
      var response := server(call);
      if response.TransportError? {
        return None, Some(Fairplay(NetworkFailure(response.error)));
      }
      var parsed := ParseApplicationCertificate(response.body);
      if parsed.Success? {
        return Some(parsed.value), None;
      }
      return None, AsExposureError(parsed.error);
    }

    /** `fetchContentKeyContext(spc:callback:)`, returning the callback's
        arguments. */
    method FetchContentKeyContext(spc: Data, server: Server) returns (ckc: Option<Data>, error: Option<ExposureError>)
      modifies this`calls
      ensures Callback(ckc, error) == ContentKeyCallback(LicenseUrl(), spc, server)
      ensures calls == old(calls) + LicenseRequest(LicenseUrl(), spc)
    {
      var url := LicenseUrl();
      if url.None? {
        return None, Some(Fairplay(MissingContentKeyContextUrl));
      }
      var call := PostJson(url.value, LicenseParameters(spc));
      calls := calls + [call];
      var response := server(call);
      if response.TransportError? {
        return None, Some(Fairplay(NetworkFailure(response.error)));
      }
      if response.body.NotJson? {
        return None, Some(GeneralError(JsonSyntaxError));
      }
      var field := DecodeField(response.body, "ckc");
      if field.Failure? {
        return None, Some(GeneralError(field.error));
      }
      var decoded := Base64.Decode(field.value);
      if decoded.None? {
        return None, Some(Fairplay(ContentKeyContextDataFormatInvalid));
      }
      return decoded, None;
    }

    /** `handle(resourceLoadingRequest:)`: the request receives the events of
        the challenge's outcome, and the requester makes its HTTP calls. */
    method Handle(request: LoadingRequest, server: Server, spc: SpcPrimitive)
      modifies request, this`calls
      ensures var run := Challenge(request.url, request.hasDataRequest, certificateUrl, server, spc);
        request.events == old(request.events) + EventsOf(run.outcome) && calls == old(calls) + run.calls
    {
      if request.url.None? || request.url.value.host.None? {
        request.FinishLoadingWithError(InvalidContentIdentifierError);
        return;
      }
      var contentIdentifier := request.url.value.host.value;
      var certificate, certificateError := FetchApplicationCertificate(server);
      if certificateError.Some? {
        request.FinishLoadingWithError(Exposure(certificateError.value));
        return;
      }
      if certificate.Some? {
        var spcData := spc(certificate.value, contentIdentifier);
        if spcData.Failure? {
          request.FinishLoadingWithError(Exposure(Fairplay(ServerPlaybackContext(spcData.error))));
          return;
        }
        var ckc, ckcError := FetchContentKeyContext(spcData.value, server);
        if ckcError.Some? {
          request.FinishLoadingWithError(Exposure(ckcError.value));
          return;
        }
        if !request.hasDataRequest {
          request.FinishLoadingWithError(Exposure(Fairplay(MissingDataRequest)));
          return;
        }
        if ckc.None? {
          // The license fetch always hands over a key or an error.
          assert false;
        }
        var contentKey := OnSuccessfulRetrieval(ckc.value);
        request.Respond(contentKey);
        request.FinishLoading();
      }
    }

    /** `canHandle(resourceLoadingRequest:)`: claims exactly the `skd`
        requests and, for those, handles the challenge. */
    method CanHandle(request: LoadingRequest, server: Server, spc: SpcPrimitive) returns (claimed: bool)
      modifies request, this`calls
      ensures claimed <==> request.url.Some? && request.url.value.scheme == CustomScheme
      ensures !claimed ==> request.events == old(request.events) && calls == old(calls)
      ensures claimed ==> var run := Challenge(request.url, request.hasDataRequest, certificateUrl, server, spc);
        request.events == old(request.events) + EventsOf(run.outcome) && calls == old(calls) + run.calls
    {
      if request.url.None? {
        return false;
      }
      if request.url.value.scheme != CustomScheme {
        return false;
      }
      if ShouldContactRemote() {
        Handle(request, server, spc);
      }
      return true;
    }
  }
}
