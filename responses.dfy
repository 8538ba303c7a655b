/**
 How one HTTP response is classified before any schema is applied (evnex/api.py,
 `Evnex._check_api_response` and httpx's `raise_for_status`). A response is its status code
 and a body that either parses as JSON or does not.
 */
module Responses {
  import opened Wrappers
  import opened Payload

  datatype Body = JsonBody(json: Json) | Malformed

  datatype Response = Response(status: int, body: Body)

  /** The exceptions an API call can end with. */
  datatype ApiError =
    | NotAuthorized(message: Option<string>)  // evnex.errors.NotAuthorizedException
    | HttpStatusError(status: int)            // httpx.HTTPStatusError from raise_for_status
    | JsonDecodeError                         // response.json() on a body that is not JSON
    | ValidationError                         // pydantic.ValidationError
    | KeyError(key: string)                   // subscripting a dict with a missing key
    | TypeError                               // `**` or `[...]` applied to a non-mapping
    | ReadTimeout                             // httpx.ReadTimeout
    | TransportError                          // any other httpx transport failure

  /** httpx's success range: `raise_for_status` raises for every other status. */
  predicate IsSuccess(status: int)
  {
    200 <= status < 300
  }

  /** `response.raise_for_status()`: the error it raises, if any. */
  function RaiseForStatus(r: Response): (raised: Option<ApiError>)
    ensures raised.None? <==> IsSuccess(r.status)
    ensures raised.Some? ==> raised.value == HttpStatusError(r.status)
  {
    if IsSuccess(r.status) then None else Some(HttpStatusError(r.status))
  }

  /** `_check_api_response`: 401 first, then any other non-success status, then the body. */
  function CheckApiResponse(r: Response): (res: Result<Json, ApiError>)
    ensures res.Success? <==> IsSuccess(r.status) && r.body.JsonBody?
    ensures res.Success? ==> res.value == r.body.json
    ensures r.status == 401 ==> res == Failure(NotAuthorized(None))
    ensures r.status != 401 && !IsSuccess(r.status) ==> res == Failure(HttpStatusError(r.status))
    ensures IsSuccess(r.status) && r.body.Malformed? ==> res == Failure(JsonDecodeError)
  {
    if r.status == 401 then
      Failure(NotAuthorized(None))
    else match RaiseForStatus(r)
      case Some(e) => Failure(e)
      case None => if r.body.JsonBody? then Success(r.body.json) else Failure(JsonDecodeError)
  }

  /** An error status is classified without looking at the body at all. */
  lemma CheckIgnoresBodyOnError(status: int, b1: Body, b2: Body)
    requires !IsSuccess(status)
    ensures CheckApiResponse(Response(status, b1)) == CheckApiResponse(Response(status, b2))
    ensures CheckApiResponse(Response(status, b1)).Failure?
  {
  }
}
