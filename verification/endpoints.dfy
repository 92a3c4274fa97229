/**
  The endpoint adapters: each turns one service operation into the uniform
  request-to-response shape. Requests and responses are tagged unions over the two
  operations; a domain error travels as text inside the response, and the adapter's
  own error is always nil.
 */
module Endpoints {
  import opened Wrappers
  import opened Ascii
  import StringService
  import opened LoggingMiddleware

  /** The decoded request of either operation; both carry the one string field `s`. */
  datatype Request = UppercaseRequest(s: AsciiString) | CountRequest(s: AsciiString)

  /**
    The response of either operation; `err` is the error text, empty when there is none.
    Both values go out as the JSON field `v`; the count's field is named `n` here because
    one destructor name cannot carry two types.
   */
  datatype Response = UppercaseResponse(v: AsciiString, err: string) | CountResponse(n: int)

  /** An adapter's own failure, apart from the service's error carried in the response. */
  datatype EndpointError = EndpointError(message: string)

  /** What an endpoint returns: Go's `(response interface{}, err error)`. */
  datatype Reply = Reply(response: Response, err: Option<EndpointError>)

  /**
    The uppercase adapter. The request must be an uppercase request: the source asserts
    its dynamic type and panics otherwise.
   */
  function UppercaseEndpoint(svc: Service, req: Request, clock: Clock, world: World): (r: Call<Reply>)
    requires req.UppercaseRequest?
    ensures r.result.err.None?
    ensures r.result.response.UppercaseResponse?
    ensures r.result.response.err != "" <==> req.s == []
    ensures req.s == [] ==> r.result.response == UppercaseResponse([], "empty string")
    ensures req.s != [] ==> r.result.response == UppercaseResponse(Upper(req.s), "")
    ensures r.logged == svc.Uppercase(req.s, clock, world).logged
    ensures r.readings == svc.Uppercase(req.s, clock, world).readings
  {
    var call := svc.Uppercase(req.s, clock, world);
    var response :=
      match call.result.err
      case Some(e) => UppercaseResponse(call.result.output, e.Message())
      case None => UppercaseResponse(call.result.output, "");
    Call(Reply(response, None), call.logged, call.readings)
  }

  /** The count adapter; the request must be a count request, as for UppercaseEndpoint. */
  function CountEndpoint(svc: Service, req: Request, clock: Clock, world: World): (r: Call<Reply>)
    requires req.CountRequest?
    ensures r.result == Reply(CountResponse(|Encode(req.s)|), None)
    ensures r.logged == svc.Count(req.s, clock, world).logged
    ensures r.readings == svc.Count(req.s, clock, world).readings
  {
    var call := svc.Count(req.s, clock, world);
    Call(Reply(CountResponse(call.result), None), call.logged, call.readings)
  }

  /**
    How a client reads an uppercase response back as the service's `(string, error)`
    pair: empty error text means success, anything else is the service's only error.
   */
  function ServiceOutcome(resp: Response): (r: StringService.UppercaseResult)
    requires resp.UppercaseResponse?
  {
    StringService.UppercaseResult(resp.v, if resp.err == "" then None else Some(StringService.ErrEmpty))
  }

  /** The uppercase response loses nothing: it reads back as exactly what the service returned. */
  lemma UppercaseResponseKeepsOutcome(svc: Service, s: AsciiString, clock: Clock, world: World)
    ensures ServiceOutcome(UppercaseEndpoint(svc, UppercaseRequest(s), clock, world).result.response)
            == StringService.Uppercase(s)
  {
    StringService.ErrEmptyMessage();
  }

  /** Decorating the service changes no endpoint's reply, only what is logged. */
  lemma EndpointsIgnoreDecoration(svc: Service, s: AsciiString, clock: Clock, world: World)
    ensures UppercaseEndpoint(Logged(svc), UppercaseRequest(s), clock, world).result
            == UppercaseEndpoint(Plain, UppercaseRequest(s), clock, world).result
    ensures CountEndpoint(Logged(svc), CountRequest(s), clock, world).result
            == CountEndpoint(Plain, CountRequest(s), clock, world).result
  {
  }
}
