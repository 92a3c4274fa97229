/**
  The transport binding at its boundary: each route pairs a decoder with its own
  endpoint. Decoding the JSON body is not modelled; its outcome, the `s` field or a
  decode error, is an input. A decode error ends the request before the endpoint, so
  the service is never called and nothing is logged.
 */
module Transport {
  import opened Wrappers
  import opened Ascii
  import StringService
  import opened LoggingMiddleware
  import opened Endpoints

  datatype Route = UppercaseRoute | CountRoute

  /** The body could not be decoded into a request. */
  datatype DecodeError = MalformedBody

  /** How a request ends: an encoded response, a decode failure, or an endpoint failure. */
  datatype Outcome = Encoded(response: Response) | DecodeFailed(decodeError: DecodeError) | EndpointFailed(err: EndpointError)

  /** The path each route is registered under. */
  function Path(route: Route): (p: string) {
    match route
    case UppercaseRoute => "/uppercase"
    case CountRoute => "/count"
  }

  /** The route's decoder: wraps the decoded field in the request variant its endpoint expects. */
  function DecodeRequest(route: Route, body: Result<AsciiString, DecodeError>): (r: Result<Request, DecodeError>)
    ensures r.Success? <==> body.Success?
    ensures r.Success? ==> r.value.s == body.value
    ensures r.Success? ==> (r.value.UppercaseRequest? <==> route == UppercaseRoute)
  {
    match body
    case Failure(e) => Failure(e)
    case Success(s) =>
      match route
      case UppercaseRoute => Success(UppercaseRequest(s))
      case CountRoute => Success(CountRequest(s))
  }

  /** One request on `route`: decode, call the route's endpoint, hand its response to the encoder. */
  function Serve(route: Route, body: Result<AsciiString, DecodeError>, svc: Service, clock: Clock, world: World): (r: Call<Outcome>)
    ensures !r.result.EndpointFailed?
    ensures body.Failure? ==> r == Call(DecodeFailed(body.error), [], world.readings)
    ensures body.Success? && route == UppercaseRoute ==>
              r.result == Encoded(UppercaseEndpoint(Plain, UppercaseRequest(body.value), clock, world).result.response)
              && r.logged == svc.Uppercase(body.value, clock, world).logged
    ensures body.Success? && route == CountRoute ==>
              r.result == Encoded(CountResponse(StringService.Count(body.value)))
              && r.logged == svc.Count(body.value, clock, world).logged
  {
    match DecodeRequest(route, body)
    case Failure(e) => Call(DecodeFailed(e), [], world.readings)
    case Success(req) =>
      var call :=
        match route
        case UppercaseRoute => UppercaseEndpoint(svc, req, clock, world)
        case CountRoute => CountEndpoint(svc, req, clock, world);
      var outcome :=
        match call.result.err
        case Some(e) => EndpointFailed(e)
        case None => Encoded(call.result.response);
      Call(outcome, call.logged, call.readings)
  }

  /** The path of each route is "/" followed by the method name its log records carry. */
  lemma PathNamesLoggedMethod(route: Route, rec: Record)
    requires rec.UppercaseEntry? <==> route == UppercaseRoute
    ensures rec.Pairs()[0] == KeyVal("method", Text(Path(route)[1..]))
  {
  }

  /** Uppercasing "hello" answers "HELLO" with no error text. */
  lemma UppercaseHello(svc: Service, clock: Clock, world: World)
    ensures Serve(UppercaseRoute, Success("hello"), svc, clock, world).result == Encoded(UppercaseResponse("HELLO", ""))
  {
  }

  /** Uppercasing the empty string answers an empty value with the error text "empty string". */
  lemma UppercaseEmpty(svc: Service, clock: Clock, world: World)
    ensures Serve(UppercaseRoute, Success(""), svc, clock, world).result == Encoded(UppercaseResponse("", "empty string"))
  {
  }

  /** Counting "hello" answers 5. */
  lemma CountHello(svc: Service, clock: Clock, world: World)
    ensures Serve(CountRoute, Success("hello"), svc, clock, world).result == Encoded(CountResponse(5))
  {
  }

  /** A body that does not decode fails at the transport, on any route, and leaves no log record even through decorators. */
  lemma MalformedBodyNeverLogged(route: Route, svc: Service, clock: Clock, world: World)
    ensures var r := Serve(route, Failure(MalformedBody), svc, clock, world);
            r.result.DecodeFailed? && r.logged == []
  {
  }

  /** A decodable body through one logging decorator leaves exactly one log record. */
  lemma DecodedBodyLoggedOnce(route: Route, s: AsciiString, clock: Clock, world: World)
    ensures |Serve(route, Success(s), Logged(Plain), clock, world).logged| == 1
  {
  }
}
