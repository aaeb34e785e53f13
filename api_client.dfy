/**
 * The feed client: one `fetchTrips` contract and its three variants (live network source, fixture
 * source, failing source).  The network, the JSON decoder and the task's sleep are not modelled; what
 * they produced is passed in as an `Environment`.
 */
module ApiClients {
  import opened Wrappers
  import opened Models
  import MockModels

  /** `ApiError`.  The underlying error of `networkError` is represented by its localized description. */
  datatype ApiError = NetworkError(underlyingError: string) | InvalidResponse | DecodingError

  /** `errorDescription`: only a network error's description starts with "Network error: ". */
  function ErrorDescription(e: ApiError): (d: string)
    ensures e.NetworkError? <==> |d| >= 15 && d[..15] == "Network error: "
  {
    match e
    case NetworkError(underlying) => "Network error: " + underlying
    case InvalidResponse =>
      var d := "Invalid response from the server.";
      assert d[..15][0] == 'I';
      d
    case DecodingError =>
      var d := "Failed to decode the data.";
      assert d[..15][0] == 'F';
      d
  }

  lemma DescriptionInitial(e: ApiError)
    ensures ErrorDescription(e)[0] == (if e.NetworkError? then 'N' else if e.InvalidResponse? then 'I' else 'F')
  {
  }

  /** Different errors are described differently, and a network error's description carries its cause's description. */
  lemma ErrorDescriptionInjective(a: ApiError, b: ApiError)
    requires ErrorDescription(a) == ErrorDescription(b)
    ensures a == b
  {
    DescriptionInitial(a);
    DescriptionInitial(b);
    if a.NetworkError? && b.NetworkError? {
      var p := "Network error: ";
      assert a.underlyingError == ErrorDescription(a)[|p|..];
      assert b.underlyingError == ErrorDescription(b)[|p|..];
    }
  }

  /** Whatever `fetchTrips` can throw: an `ApiError`, or any other `Error` (a transport failure, a cancelled sleep). */
  datatype FetchError = Api(error: ApiError) | Other(description: string)

  type FetchOutcome = Result<seq<Trip>, FetchError>

  datatype UrlResponse = HttpResponse(statusCode: int) | NonHttpResponse

  /** What `urlSession.data(from:)` returned or threw. */
  datatype TransportResult = Delivered(data: seq<bv8>, response: UrlResponse) | TransportFailed(description: string)

  /**
   * The outside world of one fetch: the transport's result, the configured JSON decoder (snake-case
   * keys, ISO-8601 dates; `None` when decoding throws), and whether the fixture source's sleep was
   * interrupted by cancellation.
   */
  datatype Environment = Environment(
    transport: TransportResult,
    decode: seq<bv8> -> Option<Trips>,
    delayInterrupted: bool)

  const GetTripsEndpoint := "https://hopskipdrive-static-files.s3.us-east-2.amazonaws.com/interview-resources/Trip.json"

  datatype ApiClient =
    | LiveApiClient(baseURL: string)
    | MockApiClient(delayInSeconds: int)
    | MockFailingApiClient(errorToThrow: ApiError)

  predicate IsOk(response: UrlResponse)
  {
    response.HttpResponse? && response.statusCode == 200
  }

  /**
   * `LiveApiClient.fetchTrips`: a transport error is rethrown as it is; a response that is not an
   * HTTP 200 is `invalidResponse` before any decoding; a failed decode is `decodingError`; otherwise
   * the decoded trips, whole.
   */
  function LiveFetchTrips(transport: TransportResult, decode: seq<bv8> -> Option<Trips>): (r: FetchOutcome)
    ensures transport.TransportFailed? ==> r == Failure(Other(transport.description))
    ensures transport.Delivered? && !IsOk(transport.response) ==> r == Failure(Api(InvalidResponse))
    ensures r.Success? <==> transport.Delivered? && IsOk(transport.response) && decode(transport.data).Some?
    ensures r.Success? ==> r.value == decode(transport.data).value.trips
    ensures r == Failure(Api(DecodingError)) <==>
              transport.Delivered? && IsOk(transport.response) && decode(transport.data).None?
    ensures r.Failure? && r.error.Api? ==> !r.error.error.NetworkError?
  {
    match transport
    case TransportFailed(description) => Failure(Other(description))
    case Delivered(data, response) =>
      if !IsOk(response) then Failure(Api(InvalidResponse))
      else
        match decode(data)
        case Some(model) => Success(model.trips)
        case None => Failure(Api(DecodingError))
  }

  /** A rejected response never reaches the decoder: every decoder gives the same outcome. */
  lemma RejectedBeforeDecoding(data: seq<bv8>, response: UrlResponse,
                               d1: seq<bv8> -> Option<Trips>, d2: seq<bv8> -> Option<Trips>)
    requires !IsOk(response)
    ensures LiveFetchTrips(Delivered(data, response), d1) == LiveFetchTrips(Delivered(data, response), d2)
  {
  }

  /** `MockApiClient.fetchTrips`: the fixture trips, unless the sleep before them threw `CancellationError`. */
  function MockFetchTrips(delayInterrupted: bool): (r: FetchOutcome)
    ensures delayInterrupted <==> r.Failure?
    ensures r.Success? ==> r.value == MockModels.MockTrips.trips && |r.value| == 3
    ensures r.Failure? ==> r.error.Other?
  {
    if delayInterrupted then Failure(Other("CancellationError")) else Success(MockModels.MockTrips.trips)
  }

  /** `MockFailingApiClient.fetchTrips`: always throws exactly the configured error. */
  function MockFailingFetchTrips(errorToThrow: ApiError): (r: FetchOutcome)
    ensures r.Failure? && r.error == Api(errorToThrow)
  {
    Failure(Api(errorToThrow))
  }

  /** `fetchTrips` dispatched on the client variant. */
  function FetchTrips(client: ApiClient, env: Environment): (r: FetchOutcome)
    ensures client.LiveApiClient? ==> r == LiveFetchTrips(env.transport, env.decode)
    ensures client.MockApiClient? ==> r == MockFetchTrips(env.delayInterrupted)
    ensures client.MockFailingApiClient? ==> r == Failure(Api(client.errorToThrow))
  {
    match client
    case LiveApiClient(_) => LiveFetchTrips(env.transport, env.decode)
    case MockApiClient(_) => MockFetchTrips(env.delayInterrupted)
    case MockFailingApiClient(e) => MockFailingFetchTrips(e)
  }
}
