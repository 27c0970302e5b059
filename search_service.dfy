/** The search service of NetworkLayerKit: which Moya provider answers a request,
    how the provider's result is turned into the completion's (data, error) pair,
    and the status-code validation stage of the URLSession publishers.

    Status classes follow section 15 of RFC 9110: 2xx "Successful" (section 15.3),
    404 "Not Found" (section 15.5.5), 401 "Unauthorized" (section 15.5.2). */
module SearchService {
  import opened Values
  import opened DecimalText

  // ---------------------------------------------------------------------------
  // Provider selection

  /** The three global test switches the provider getter consults. */
  datatype Configuration = Configuration(authenticationErrorTesting: bool, uiTesting: bool, networkTesting: bool)

  /** The four providers the getter can build. */
  datatype ProviderMode =
    | AuthErrorStub    // custom endpoint closure answering 401, stubbed immediately
    | ImmediateStub    // default endpoints, stubbed immediately
    | NetworkLogging   // real network, with the network logger plugin
    | BackgroundQueue  // real network, callbacks on a background queue

  /** The `provider` getter: the first switch that is on wins, in the order
      authentication-error testing, UI testing, network testing. */
  function Provider(config: Configuration): (m: ProviderMode)
    ensures m == AuthErrorStub <==> config.authenticationErrorTesting
    ensures m == ImmediateStub <==> !config.authenticationErrorTesting && config.uiTesting
    ensures m == NetworkLogging <==>
              !config.authenticationErrorTesting && !config.uiTesting && config.networkTesting
    ensures m == BackgroundQueue <==>
              !config.authenticationErrorTesting && !config.uiTesting && !config.networkTesting
  {
    if config.authenticationErrorTesting then AuthErrorStub
    else if config.uiTesting then ImmediateStub
    else if config.networkTesting then NetworkLogging
    else BackgroundQueue
  }

  // ---------------------------------------------------------------------------
  // Classification of the provider's result

  /** Moya's `Response`: the HTTP status code and the body. */
  datatype Response = Response(statusCode: int, data: Data)

  /** What the provider hands to the request callback: a response, or a
      transport failure described by its localized description. */
  datatype ProviderResult = Success(response: Response) | Failure(description: string)

  /** The two arguments of the `completion(data, error)` callback. */
  datatype Completion = Completion(data: Option<Data>, error: Option<string>)

  const NotFoundStatus: int := 404
  const UnauthorizedStatus: int := 401
  const ErrorPrefix: string := "Error: "

  /** The `200 ..< 300` range test: the 2xx class. */
  predicate IsSuccessful(status: int) {
    200 <= status < 300
  }

  /** The message "Error: \(statusCode)". */
  function ErrorMessage(status: int): (m: string)
    ensures |m| > |ErrorPrefix| && m[..|ErrorPrefix|] == ErrorPrefix
    ensures m[|ErrorPrefix|..] == IntToString(status)
    ensures ParseInt(m[|ErrorPrefix|..]) == status
  {
    var m := ErrorPrefix + IntToString(status);
    assert m[|ErrorPrefix|..] == IntToString(status);
    IntToStringRoundTrip(status);
    m
  }

  /** `search(identifier:completion:)` after the provider has answered: the
      completion receives exactly one of a body and a message. `notFound` is the
      app's translated not-found message, a constant defined outside this file. */
  function Search(result: ProviderResult, notFound: string): (c: Completion)
    ensures c.data.Some? != c.error.Some?
    ensures c.data.Some? <==> result.Success? && IsSuccessful(result.response.statusCode)
    ensures result.Success? && result.response.statusCode == NotFoundStatus ==>
              c == Completion(None, Some(notFound))
    ensures result.Success? && IsSuccessful(result.response.statusCode) ==>
              c == Completion(Some(result.response.data), None)
    ensures result.Success? && result.response.statusCode != NotFoundStatus
            && !IsSuccessful(result.response.statusCode) ==>
              c == Completion(None, Some(ErrorMessage(result.response.statusCode)))
    ensures result.Failure? ==> c == Completion(None, Some(result.description))
  {
    match result
    case Success(response) =>
      if response.statusCode == NotFoundStatus then Completion(None, Some(notFound))
      else if IsSuccessful(response.statusCode) then Completion(Some(response.data), None)
      else Completion(None, Some(ErrorMessage(response.statusCode)))
    case Failure(description) =>
      Completion(None, Some(description))
  }

  /** Two responses outside 2xx and other than 404 give the same message only when
      they carry the same status: the message identifies the status. */
  lemma ErrorMessageIdentifiesStatus(a: Response, b: Response, notFound: string)
    requires a.statusCode != NotFoundStatus && !IsSuccessful(a.statusCode)
    requires b.statusCode != NotFoundStatus && !IsSuccessful(b.statusCode)
    ensures Search(Success(a), notFound).error == Search(Success(b), notFound).error
            <==> a.statusCode == b.statusCode
  {
    var ma, mb := ErrorMessage(a.statusCode), ErrorMessage(b.statusCode);
    if ma == mb {
      assert ma[|ErrorPrefix|..] == mb[|ErrorPrefix|..];
    }
  }

  /** The 404 check comes first, but 404 lies outside 2xx, so placing it after the
      range test would classify every result the same way. */
  lemma NotFoundOrderIrrelevant(result: ProviderResult, notFound: string)
    ensures Search(result, notFound) ==
      match result
      case Success(response) =>
        if IsSuccessful(response.statusCode) then Completion(Some(response.data), None)
        else if response.statusCode == NotFoundStatus then Completion(None, Some(notFound))
        else Completion(None, Some(ErrorMessage(response.statusCode)))
      case Failure(description) => Completion(None, Some(description))
  {
  }

  /** The answer a provider gives without the network: only the authentication-error
      stub has a fixed answer in this file (its sample response closure). The
      immediate stub answers with the endpoint's sample data, which is not part of
      this model. */
  function StubbedResponse(mode: ProviderMode): (r: Option<Response>)
    ensures r.Some? <==> mode == AuthErrorStub
    ensures r.Some? ==> r.value.statusCode == UnauthorizedStatus
    ensures r.Some? ==> r.value.data == AsciiBytes("Not authorized")
  {
    if mode == AuthErrorStub then Some(Response(UnauthorizedStatus, AsciiBytes("Not authorized")))
    else None
  }

  /** With authentication-error testing switched on, every search completes with no
      data and the message "Error: 401", whatever the other switches say. */
  lemma AuthErrorTestingCompletesWith401(config: Configuration, notFound: string)
    requires config.authenticationErrorTesting
    ensures StubbedResponse(Provider(config)).Some?
    ensures Search(Success(StubbedResponse(Provider(config)).value), notFound)
            == Completion(None, Some("Error: 401"))
  {
    var r := StubbedResponse(Provider(config)).value;
    assert r.statusCode == UnauthorizedStatus;
    UnauthorizedMessage();
  }

  /** The message for 401 reads "Error: 401". */
  lemma UnauthorizedMessage()
    ensures ErrorMessage(UnauthorizedStatus) == "Error: 401"
  {
    assert NatToString(4) == "4";
    assert NatToString(40) == NatToString(4) + ['0'];
    assert NatToString(401) == NatToString(40) + ['1'];
  }

  // ---------------------------------------------------------------------------
  // Validation stage of the URLSession publishers

  /** `URLResponse`: an HTTP response carries a status code, any other kind does not. */
  datatype UrlResponse = HttpResponse(statusCode: int) | OtherResponse

  /** `DataTaskResult`: the body and the response of a data task. */
  datatype DataTaskResult = DataTaskResult(data: Data, response: UrlResponse)

  /** `ValidationError`: an upstream failure, or a rejected result carrying its body. */
  datatype ValidationError<E> = Error(cause: E) | JsonError(data: Data)

  /** `(response as? HTTPURLResponse)?.statusCode ?? -1`. */
  function StatusCodeOf(response: UrlResponse): (status: int)
    ensures response.OtherResponse? ==> status == -1
    ensures response.HttpResponse? ==> status == response.statusCode
  {
    match response
    case HttpResponse(code) => code
    case OtherResponse => -1
  }

  /** `validateResponse`: an upstream failure is wrapped as `.error`; a result that
      passes `isValid` goes through unchanged; one that does not fails with
      `.jsonError` carrying its body. */
  function ValidateResponse<E>(isValid: DataTaskResult -> bool, upstream: Result<DataTaskResult, E>)
    : (r: Result<DataTaskResult, ValidationError<E>>)
    ensures r.Ok? <==> upstream.Ok? && isValid(upstream.value)
    ensures r.Ok? ==> r.value == upstream.value
    ensures upstream.Err? ==> r == Err(Error(upstream.error))
    ensures upstream.Ok? && !isValid(upstream.value) ==> r == Err(JsonError(upstream.value.data))
  {
    match upstream
    case Err(e) => Err(Error(e))
    case Ok(result) => if isValid(result) then Ok(result) else Err(JsonError(result.data))
  }

  /** `validateStatusCode`: `validateResponse` applied to the status code, with -1
      standing for a response that is not HTTP. */
  function ValidateStatusCode<E>(isValid: int -> bool, upstream: Result<DataTaskResult, E>)
    : (r: Result<DataTaskResult, ValidationError<E>>)
    ensures r.Ok? <==> upstream.Ok? && isValid(StatusCodeOf(upstream.value.response))
    ensures r.Ok? ==> r.value == upstream.value
    ensures upstream.Err? ==> r == Err(Error(upstream.error))
    ensures upstream.Ok? && !r.Ok? ==> r == Err(JsonError(upstream.value.data))
  {
    ValidateResponse((result: DataTaskResult) => isValid(StatusCodeOf(result.response)), upstream)
  }

  /** Under the `200..<300` test the publishers use, a response that is not HTTP is
      always rejected, with its body in the error. */
  lemma NonHttpResponseRejected<E>(data: Data)
    ensures ValidateStatusCode<E>(IsSuccessful, Ok(DataTaskResult(data, OtherResponse)))
            == Err(JsonError(data))
  {
  }

  /** Under the `200..<300` test, an HTTP result passes exactly when its status is
      2xx, and then it passes unchanged. */
  lemma HttpResponseValidatedByClass<E>(data: Data, status: int)
    ensures ValidateStatusCode<E>(IsSuccessful, Ok(DataTaskResult(data, HttpResponse(status))))
            == if IsSuccessful(status) then Ok(DataTaskResult(data, HttpResponse(status)))
               else Err(JsonError(data))
  {
  }
}
