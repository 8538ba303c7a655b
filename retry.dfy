/**
 The request outcome and retry decisions of the client methods (evnex/api.py). Each method
 runs under tenacity's `@retry`: it is attempted again, with no limit on the number of
 attempts, until it returns or raises an exception its predicate does not retry. An attempt
 is what the transport produced for one request; the backoff delays between attempts are
 not part of the model.
 */
module Retry {
  import opened Wrappers
  import opened Payload
  import opened Responses
  import opened Schema

  /** The decorated methods of `Evnex`. */
  datatype Operation =
    | GetUserDetail
    | GetOrgChargePoints
    | GetOrgInsight
    | GetChargePointDetail
    | GetChargePointSolarConfig
    | GetChargePointOverride
    | SetChargePointOverride
    | GetChargePointTransactions
    | StopChargePoint

  /** What one request produced: a response, a read timeout, or another transport failure. */
  datatype Attempt = Answered(response: Response) | ReadTimedOut | TransportFailed

  /** What a method returns when an attempt succeeds. */
  datatype Reply =
    | User(detail: UserDetail)       // get_user_detail
    | Items(items: seq<Json>)        // the `items` of a list envelope
    | Record(record: Json)           // a detail or configuration object
    | Flag(value: bool)              // set_charge_point_override's `True`
    | Command(response: CommandResponse)

  /** The reply shape each operation returns. */
  predicate Fits(op: Operation, reply: Reply)
  {
    match op
    case GetUserDetail => reply.User?
    case GetOrgChargePoints | GetOrgInsight | GetChargePointTransactions => reply.Items?
    case GetChargePointDetail | GetChargePointSolarConfig | GetChargePointOverride => reply.Record?
    case SetChargePointOverride => reply == Flag(true)
    case StopChargePoint => reply.Command?
  }

  function Wrap<T>(r: Result<T, ApiError>, f: T -> Reply): Result<Reply, ApiError>
  {
    match r
    case Success(v) => Success(f(v))
    case Failure(e) => Failure(e)
  }

  /** The schema step of each operation, applied to the JSON `_check_api_response` returned.
      Only `get_org_insight` validates through `parse_obj`, so a body that is not a mapping is a
      ValidationError there and a TypeError (from `**` or from indexing) everywhere else. */
  function Decode(op: Operation, j: Json): (r: Result<Reply, ApiError>)
    requires op != SetChargePointOverride
    ensures r.Success? ==> Fits(op, r.value)
    ensures !j.JObject? ==> r == Failure(if op == GetOrgInsight then ValidationError else TypeError)
    ensures r.Success? && r.value.Items? ==>
      Field(j, "data").Some? && Field(Field(j, "data").value, "items") == Some(JArray(r.value.items))
    ensures r.Success? && r.value.Record? ==>
      r.value.record.JObject? &&
      (r.value.record == j || Field(j, "data") == Some(r.value.record))
  {
    match op
    case GetUserDetail => Wrap(DecodeUserResponse(j), (u: UserDetail) => User(u))
    case GetOrgChargePoints => Wrap(DecodeItemsResponse(j, true), (s: seq<Json>) => Items(s))
    case GetOrgInsight => Wrap(DecodeItemsResponse(j, false), (s: seq<Json>) => Items(s))
    case GetChargePointTransactions => Wrap(DecodeItemsResponse(j, true), (s: seq<Json>) => Items(s))
    case GetChargePointDetail => Wrap(DecodeDetailResponse(j), (d: Json) => Record(d))
    case GetChargePointSolarConfig | GetChargePointOverride =>
      Wrap(DecodeConfigResponse(j), (d: Json) => Record(d))
    case StopChargePoint => Wrap(DecodeCommandResponse(j), (c: CommandResponse) => Command(c))
  }

  /** The result of one attempt of `op`. `set_charge_point_override` calls only
      `raise_for_status` and never `_check_api_response`, and never reads the body. */
  function AttemptResult(op: Operation, a: Attempt): (r: Result<Reply, ApiError>)
    ensures r.Success? ==> Fits(op, r.value)
    ensures a.ReadTimedOut? ==> r == Failure(ReadTimeout)
    ensures r == Failure(NotAuthorized(None)) <==>
      op != SetChargePointOverride && a.Answered? && a.response.status == 401
  {
    match a
    case ReadTimedOut => Failure(ReadTimeout)
    case TransportFailed => Failure(TransportError)
    case Answered(response) =>
      if op == SetChargePointOverride then
        match RaiseForStatus(response)
        case Some(e) => Failure(e)
        case None => Success(Flag(true))
      else
        match CheckApiResponse(response)
        case Failure(e) => Failure(e)
        case Success(j) => Decode(op, j)
  }

  /** `retry_if_not_exception_type(...)`: the exceptions that end the retrying at once.
      Every method stops on ValidationError and NotAuthorizedException; `stop_charge_point`
      also on ReadTimeout. */
  function StopsRetrying(op: Operation, e: ApiError): (stops: bool)
    ensures e.ValidationError? || e.NotAuthorized? ==> stops
    ensures e.ReadTimeout? ==> (stops <==> op == StopChargePoint)
    ensures e.HttpStatusError? || e.JsonDecodeError? || e.KeyError? || e.TypeError? || e.TransportError? ==> !stops
  {
    e.ValidationError? || e.NotAuthorized? || (op == StopChargePoint && e.ReadTimeout?)
  }

  /** An attempt is retried exactly when it raised an exception the predicate lets through. */
  predicate IsRetried(op: Operation, r: Result<Reply, ApiError>)
  {
    r.Failure? && !StopsRetrying(op, r.error)
  }

  /** How a call ends after `tries` attempts: with a value, with an exception, or still
      retrying once the attempts given run out. */
  datatype CallOutcome =
    | Returned(reply: Reply, tries: nat)
    | Raised(error: ApiError, tries: nat)
    | StillRetrying(tries: nat)

  function Settle(r: Result<Reply, ApiError>, tries: nat): CallOutcome
  {
    match r
    case Success(v) => Returned(v, tries)
    case Failure(e) => Raised(e, tries)
  }

  /** The same outcome, reached one attempt later. */
  function Later(o: CallOutcome): (o': CallOutcome)
    ensures o'.tries == o.tries + 1
  {
    match o
    case Returned(v, t) => Returned(v, t + 1)
    case Raised(e, t) => Raised(e, t + 1)
    case StillRetrying(t) => StillRetrying(t + 1)
  }

  /** The outcome of a call of `op` whose successive attempts produce `attempts`. */
  function RetryOutcome(op: Operation, attempts: seq<Attempt>): (o: CallOutcome)
    ensures o.tries <= |attempts|
    ensures o.StillRetrying? ==> o.tries == |attempts|
    ensures !o.StillRetrying? ==> o.tries >= 1
    ensures o.Returned? ==> Fits(op, o.reply)
  {
    if attempts == [] then StillRetrying(0)
    else
      var r := AttemptResult(op, attempts[0]);
      if IsRetried(op, r) then Later(RetryOutcome(op, attempts[1..])) else Settle(r, 1)
  }

  /** The call ends with the first attempt that is not retried, after exactly that many tries. */
  lemma {:induction false} RetryOutcomeFirstSettled(op: Operation, attempts: seq<Attempt>, k: nat)
    requires k < |attempts|
    requires forall i :: 0 <= i < k ==> IsRetried(op, AttemptResult(op, attempts[i]))
    requires !IsRetried(op, AttemptResult(op, attempts[k]))
    ensures RetryOutcome(op, attempts) == Settle(AttemptResult(op, attempts[k]), k + 1)
  {
    if k > 0 {
      var rest := attempts[1..];
      assert forall i :: 0 <= i < k - 1 ==> rest[i] == attempts[i + 1];
      RetryOutcomeFirstSettled(op, rest, k - 1);
      assert IsRetried(op, AttemptResult(op, attempts[0]));
    }
  }

  /** There is no attempt cap: while every attempt is retried the call never ends. */
  lemma {:induction false} RetryOutcomeExhausted(op: Operation, attempts: seq<Attempt>)
    requires forall i :: 0 <= i < |attempts| ==> IsRetried(op, AttemptResult(op, attempts[i]))
    ensures RetryOutcome(op, attempts) == StillRetrying(|attempts|)
  {
    if attempts != [] {
      var rest := attempts[1..];
      assert forall i :: 0 <= i < |rest| ==> rest[i] == attempts[i + 1];
      RetryOutcomeExhausted(op, rest);
      assert IsRetried(op, AttemptResult(op, attempts[0]));
    }
  }

  /** Conversely, a call that ended after `t` tries retried each attempt before the last, and
      ended with that last attempt's own result. */
  lemma {:induction false} RetryOutcomeSettledPrefix(op: Operation, attempts: seq<Attempt>)
    requires !RetryOutcome(op, attempts).StillRetrying?
    ensures var t := RetryOutcome(op, attempts).tries;
      1 <= t <= |attempts| &&
      (forall i :: 0 <= i < t - 1 ==> IsRetried(op, AttemptResult(op, attempts[i]))) &&
      !IsRetried(op, AttemptResult(op, attempts[t - 1])) &&
      RetryOutcome(op, attempts) == Settle(AttemptResult(op, attempts[t - 1]), t)
  {
    var r := AttemptResult(op, attempts[0]);
    if IsRetried(op, r) {
      var rest := attempts[1..];
      RetryOutcomeSettledPrefix(op, rest);
      var t := RetryOutcome(op, rest).tries;
      assert forall i :: 0 <= i < t ==> rest[i] == attempts[i + 1];
      assert RetryOutcome(op, rest) == Settle(AttemptResult(op, attempts[t]), t);
    }
  }

  /** The retry loop tenacity runs around one decorated method. */
  method CallWithRetry(op: Operation, attempts: seq<Attempt>) returns (outcome: CallOutcome)
    ensures outcome == RetryOutcome(op, attempts)
  {
    var i := 0;
    while i < |attempts|
      invariant 0 <= i <= |attempts|
      invariant forall j :: 0 <= j < i ==> IsRetried(op, AttemptResult(op, attempts[j]))
    {
      var r := AttemptResult(op, attempts[i]);
      if !IsRetried(op, r) {
        RetryOutcomeFirstSettled(op, attempts, i);
        return Settle(r, i + 1);
      }
      i := i + 1;
    }
    RetryOutcomeExhausted(op, attempts);
    return StillRetrying(|attempts|);
  }

  /** A 401 raises NotAuthorizedException on the first attempt, with no retry, for every
      method that checks its response through `_check_api_response`. */
  lemma UnauthorizedIsNotRetried(op: Operation, body: Body, rest: seq<Attempt>)
    requires op != SetChargePointOverride
    ensures RetryOutcome(op, [Answered(Response(401, body))] + rest) == Raised(NotAuthorized(None), 1)
  {
  }

  /** `set_charge_point_override` turns a 401 into the generic status error, which is retried. */
  lemma OverrideRetriesUnauthorized(body: Body, rest: seq<Attempt>)
    ensures AttemptResult(SetChargePointOverride, Answered(Response(401, body))) == Failure(HttpStatusError(401))
    ensures RetryOutcome(SetChargePointOverride, [Answered(Response(401, body))] + rest)
            == Later(RetryOutcome(SetChargePointOverride, rest))
  {
    assert ([Answered(Response(401, body))] + rest)[1..] == rest;
  }

  /** On success `set_charge_point_override` returns `True` without reading the body. */
  lemma OverrideSuccessIgnoresBody(status: int, body: Body, rest: seq<Attempt>)
    requires IsSuccess(status)
    ensures RetryOutcome(SetChargePointOverride, [Answered(Response(status, body))] + rest) == Returned(Flag(true), 1)
  {
  }

  /** Error statuses other than 401 are retried without limit: any number of them in a row
      leaves the call still retrying, for every method. */
  lemma {:induction false} ErrorStatusesRetriedForever(op: Operation, attempts: seq<Attempt>)
    requires forall i :: 0 <= i < |attempts| ==>
      attempts[i].Answered? && !IsSuccess(attempts[i].response.status) &&
      (attempts[i].response.status != 401 || op == SetChargePointOverride)
    ensures RetryOutcome(op, attempts) == StillRetrying(|attempts|)
  {
    forall i | 0 <= i < |attempts| ensures IsRetried(op, AttemptResult(op, attempts[i])) {
      var resp := attempts[i].response;
      assert CheckApiResponse(resp) == Failure(HttpStatusError(resp.status)) || op == SetChargePointOverride;
    }
    RetryOutcomeExhausted(op, attempts);
  }

  /** `stop_charge_point` raises a read timeout after exactly one attempt. */
  lemma StopTimeoutIsNotRetried(rest: seq<Attempt>)
    ensures RetryOutcome(StopChargePoint, [ReadTimedOut] + rest) == Raised(ReadTimeout, 1)
  {
  }

  /** A 504 that arrives before the request times out is a status error, not a ReadTimeout:
      `stop_charge_point` retries it like any other error status. */
  lemma StopGatewayTimeoutResponseIsRetried(body: Body, rest: seq<Attempt>)
    ensures AttemptResult(StopChargePoint, Answered(Response(504, body))) == Failure(HttpStatusError(504))
    ensures RetryOutcome(StopChargePoint, [Answered(Response(504, body))] + rest)
            == Later(RetryOutcome(StopChargePoint, rest))
  {
    assert ([Answered(Response(504, body))] + rest)[1..] == rest;
  }

  /** Every other method retries a read timeout. */
  lemma OtherTimeoutsAreRetried(op: Operation, rest: seq<Attempt>)
    requires op != StopChargePoint
    ensures RetryOutcome(op, [ReadTimedOut] + rest) == Later(RetryOutcome(op, rest))
  {
    assert ([ReadTimedOut] + rest)[1..] == rest;
  }

  /** A validation failure ends the call at once and surfaces. */
  lemma ValidationIsNotRetried(op: Operation, a: Attempt, rest: seq<Attempt>)
    requires AttemptResult(op, a) == Failure(ValidationError)
    ensures RetryOutcome(op, [a] + rest) == Raised(ValidationError, 1)
  {
  }

  /** A success status with a body that is not JSON raises the decode error, which is not in
      the stop list: the call is retried rather than surfacing the error. */
  lemma MalformedBodyIsRetried(op: Operation, status: int, rest: seq<Attempt>)
    requires op != SetChargePointOverride && IsSuccess(status)
    ensures AttemptResult(op, Answered(Response(status, Malformed))) == Failure(JsonDecodeError)
    ensures RetryOutcome(op, [Answered(Response(status, Malformed))] + rest) == Later(RetryOutcome(op, rest))
  {
    assert ([Answered(Response(status, Malformed))] + rest)[1..] == rest;
  }

  /** A stop acknowledgement without a `data` member raises KeyError, which is retried. */
  lemma StopWithoutDataIsRetried(status: int, fields: map<string, Json>, rest: seq<Attempt>)
    requires IsSuccess(status) && "data" !in fields
    ensures var a := Answered(Response(status, JsonBody(JObject(fields))));
      AttemptResult(StopChargePoint, a) == Failure(KeyError("data")) &&
      RetryOutcome(StopChargePoint, [a] + rest) == Later(RetryOutcome(StopChargePoint, rest))
  {
    var a := Answered(Response(status, JsonBody(JObject(fields))));
    assert ([a] + rest)[1..] == rest;
  }
}
