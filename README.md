# A Dafny model of the python-evnex client core

python-evnex is a client library for the Evnex cloud API for EV charge points. This project
models the three parts of it that make decisions:

- **The `Evnex` client object** (evnex/api.py). This covers:
  - whether construction runs the identity-provider password exchange;
  - how `authenticate` turns a provider `ClientError` into `NotAuthorizedException`;
  - the token properties, which read through to the provider object;
  - the `Authorization` header, which is built once at construction;
  - how `_check_api_response` classifies one HTTP response;
  - the schema step each method applies to the JSON;
  - the tenacity retry decision each method is decorated with;
  - how the organisation scope is resolved;
  - how `get_user_detail` caches the first organisation id.
- **`parse_model`** (evnex/models.py). It parses an E2- or X-series charger model id through
  the constant lookup tables.
- **`DeviceStatus` and `ConnectorOcppStatus`** (evnex/status.py). These are the ten status
  values and their description table. The nine values other than OFFLINE mirror the
  ChargePointStatus values of OCPP 1.6 (section 7.7 of the OCPP 1.6 specification).

Files:
- `wrappers.dfy`: Option and Result.
- `status.dfy`: module Status.
- `models.dfy`: module Models.
- `payload.dfy`: module Payload, a JSON value.
- `responses.dfy`: module Responses, the HTTP response and its classification.
- `schema.dfy`: module Schema, the envelope fields the client reads.
- `retry.dfy`: module Retry, one attempt's result, the retry predicate and the retry loop.
- `client.dfy`: module Client, the `Cognito` token holder and the `Evnex` class.

How the model represents the source:
- An HTTP exchange is abstracted to an `Attempt`. It is a `Response(status, body)` whose body
  is parsed JSON or `Malformed`, or a read timeout, or another transport failure.
- A call is given the finite sequence of what its successive attempts produce.
  `Retry.RetryOutcome` is the specification of the tenacity loop, and `Retry.CallWithRetry`
  is the loop itself, proved equal to it.
- The identity provider's exchange is a parameter: `Granted(tokens)` or `ClientError(message)`.
- The package version is a parameter.

Behaviours of the code that the model pins down, some of them surprising:
- For every method except `set_charge_point_override`, which never reads the body, a success
  status whose body is not JSON raises the JSON decode error. That error is not in
  any method's stop list, so it never ends the call and is never surfaced: the next attempt is
  made, and the call goes on only for as long as the bodies stay malformed
  (`Retry.MalformedBodyIsRetried`).
- The `Authorization` header is a snapshot taken when the client is built. A later
  `authenticate` updates the token properties but not the header sent with requests
  (`Client.Evnex.Authenticate`).
- An unresolved organisation scope is not reported as an error. The request is still sent,
  with the scope `None`.
- The `stop_charge_point` docstring says a 504 shows up as a ReadTimeout and is raised without
  retry. That holds only when the client's timeout fires first. A 504 response that does arrive
  is a status error, and `stop_charge_point` retries it without limit like any other error status
  (`Retry.StopGatewayTimeoutResponseIsRetried`, `Retry.ErrorStatusesRetriedForever`).
- `set_charge_point_override` reports a 401 as the generic status error, which is retried.
- A non-mapping JSON body passed to `Envelope(**json)` raises TypeError, and a stop
  acknowledgement without `data` raises KeyError. Neither is a ValidationError, so both are
  retried.

## Model

| member | source | states |
|---|---|---|
| Status.MembersAreExactlyTen | evnex/status.py:4-14 | the enumeration has exactly ten members, each listed once |
| Status.ValueInjective | evnex/status.py:5-14 | no two members share a string value |
| Status.FromValue | evnex/status.py:4-14 | a value that parses names a member whose value is that string |
| Status.FromValueOfValue | evnex/status.py:4-14 | parsing a member's value gives the member back |
| Status.FromValueOnlyValues | evnex/status.py:4-14 | a string parses exactly when it is one of the ten values |
| Status.OcppTableTotal | evnex/status.py:17-28 | every member has a description |
| Status.OcppTableInjective | evnex/status.py:18-27 | the ten descriptions are pairwise distinct |
| Status.OcppTableSpecialEntries | evnex/status.py:26-27 | UNAVAILABLE is "Disabled" and OFFLINE is "Offline"; only UNAVAILABLE reads "Disabled" |
| Models.SplitFirst | evnex/models.py:68-71 | no split exactly when the id has no '-'; otherwise the id is the first part, '-', and the rest, with no '-' in the first part |
| Models.SplitFirstOfJoin | evnex/models.py:82 | splitting `before + "-" + after` returns both parts, even when `after` holds more '-' |
| Models.ParseModel | evnex/models.py:65-113 | IndexError exactly for an E2 id with fewer than 2 characters after the '-' or an X id with fewer than 4; E2 results keep the X-only fields "N/A"; parsed X results have cable length "N/A" |
| Models.ParseUnknownSeries | evnex/models.py:112-113 | an id of neither series gives the all-Unknown record, whose X-only fields are "N/A" |
| Models.ParseWithoutDash | evnex/models.py:80-84 | any id without '-' gives the all-Unknown record |
| Models.ParseE2 | evnex/models.py:73-78 | E2 fields come from the prefix, the first two characters after the '-' and its last two, each looked up with the raw key as fallback |
| Models.ParseX | evnex/models.py:86-110 | the X name is the series, the power is the lookup of the series without its 'X', and characters 0-3 after the '-' give sensor, connector, configuration and colour |
| Models.ParseShortSpec | evnex/models.py:74-100 | a part after the '-' too short for its series' positions raises IndexError |
| Models.ParseE2CoreExample | evnex/models.py:16-36 | "E2C-28VO" is an E2 Core, Type 2, 8 metres, Volcanic |
| Models.ParseE2LaterDashExample | evnex/models.py:69-76 | in "E2-12-SN", the later '-' stays in the suffix; the cable key "2" is kept raw; the colour is Snow |
| Models.ParseXExample | evnex/models.py:39-62 | "X7-T2SW" is X7, 7 kW, External PS, Type 2, Socket, White |
| Responses.RaiseForStatus | evnex/api.py:139 | raises the status error exactly for non-2xx statuses |
| Responses.CheckApiResponse | evnex/api.py:134-147 | 401 is NotAuthorized before any other check; another error status is the status error; a success with a non-JSON body is the decode error; otherwise it returns the parsed JSON |
| Responses.CheckIgnoresBodyOnError | evnex/api.py:135-139 | an error status is classified without reading the body |
| Schema.DecodeOrg | evnex/schema/org.py:9-18 | fails exactly when one of the required fields is missing or of the wrong JSON type; the decoded id is the object's `id` string |
| Schema.DecodeEncodeOrg | evnex/schema/org.py:9-18 | an organisation sent with all its fields decodes to itself |
| Schema.DecodeOrgs | evnex/api.py:126 | decodes the organisations in order, or fails when any one does not validate |
| Schema.DecodeEncodeOrgs | evnex/schema/user.py:16 | a list of encoded organisations decodes to the same list, in order |
| Schema.DecodeUserDetail | evnex/schema/user.py:10-17 | a decoded user has the object's `id`, a `type` that is absent or "User", and exactly the organisations its `organisations` list decodes to; a missing or non-list `organisations`, or another `type`, fails (a JSON object is the only mapping in the model; see Left out on `dict()` conversion) |
| Schema.DecodeUserDetailOf | evnex/schema/user.py:10-17 | a `data` object holding every field of a user with its JSON type decodes to that user |
| Schema.DecodeEncodeUserDetail | evnex/schema/user.py:10-17 | a user object decodes to itself, whatever extra members it carries |
| Schema.DecodeUserResponse | evnex/api.py:126 | succeeds exactly for a mapping whose `data` validates as a user; its organisations are those decoded from `data.organisations`; a non-mapping body is a TypeError; every other failure is a ValidationError (a JSON object is the only mapping in the model; see Left out on `dict()` conversion) |
| Schema.CachedIdIsFirstOrganisationId | evnex/api.py:126-130 | the first organisation id of a decoded user is the `id` string of the first object in `data.organisations` |
| Schema.DecodeEncodeUser | evnex/api.py:126-130 | decoding a user envelope recovers the whole user, organisations in order, whatever extra members `data` carries |
| Schema.DecodeUserRejectsBadOrg | evnex/api.py:126 | one organisation that does not validate invalidates the whole response, whatever else `data` holds |
| Schema.DecodeItemsResponse | evnex/api.py:163-164 | succeeds exactly when `data.items` is a list and returns that list; a non-mapping is a TypeError under `**` and a ValidationError under `parse_obj` (a JSON object is the only mapping in the model; see Left out on `dict()` conversion) |
| Schema.DecodeDetailResponse | evnex/api.py:196-197 | succeeds exactly when `data` is an object, and returns that object (a JSON object is the only mapping in the model; see Left out on `dict()` conversion) |
| Schema.DecodeConfigResponse | evnex/api.py:210-212 | accepts exactly a JSON object and returns it whole |
| Schema.DecodeCommandResponse | evnex/api.py:293-295 | a non-mapping is a TypeError; a missing `data` is a KeyError; it succeeds exactly when `data` decodes as a command, which is the result (a JSON object is the only mapping in the model; see Left out on `dict()` conversion) |
| Schema.DecodeCommand | evnex/schema/commands.py:7-9 | succeeds exactly when `message` and `status` are both strings, and returns them |
| Schema.DecodeEncodeCommand | evnex/api.py:293-295 | a command acknowledgement round-trips through its envelope |
| Retry.Decode | evnex/api.py:164-182 | for the schema step of every method (also lines 126, 197, 212, 226, 258 and 295): a success has the method's return shape; a non-mapping body is a ValidationError for `get_org_insight` (`parse_obj`) and a TypeError for every other method; item lists are `data.items`, records are the body or its `data` object (a JSON object is the only mapping in the model; see Left out on `dict()` conversion) |
| Retry.StopsRetrying | evnex/api.py:262-264 | the stop lists of line 119 (and its copies) and of `stop_charge_point`: ValidationError and NotAuthorized stop every method; ReadTimeout stops exactly `stop_charge_point`; status, decode, key, type and transport errors never stop a call |
| Retry.AttemptResult | evnex/api.py:232-241 | NotAuthorized arises exactly from a 401 to a method other than `set_charge_point_override`; a read timeout is ReadTimeout; a success fits the method's return type |
| Retry.RetryOutcome | evnex/api.py:117-120 | a call uses at most the attempts given; one still retrying has used them all; a returned value fits the method |
| Retry.RetryOutcomeFirstSettled | evnex/api.py:117-120 | for the retry policy of line 119 and its copies on every method: the call ends with the first attempt that does not raise a retried exception, after exactly that many tries |
| Retry.RetryOutcomeExhausted | evnex/api.py:117-120 | for the retry policy of line 119 and its copies on every method: while every attempt raises a retried exception the call never ends (no attempt cap) |
| Retry.RetryOutcomeSettledPrefix | evnex/api.py:117-120 | for the retry policy of line 119 and its copies on every method: a call that ended after t tries retried every earlier attempt and ended with attempt t's own result |
| Retry.CallWithRetry | evnex/api.py:117-120 | the retry loop produces exactly the specified outcome |
| Retry.UnauthorizedIsNotRetried | evnex/api.py:134-137 | a 401 raises NotAuthorized after one attempt for every checked method |
| Retry.OverrideRetriesUnauthorized | evnex/api.py:228-241 | for `set_charge_point_override` a 401 is the generic status error and is retried |
| Retry.OverrideSuccessIgnoresBody | evnex/api.py:240-241 | a success returns `True` whatever the body |
| Retry.ErrorStatusesRetriedForever | evnex/api.py:117-120 | for the retry policy of line 119 and its copies on every method: any run of error statuses (other than a checked 401) leaves the call retrying |
| Retry.StopTimeoutIsNotRetried | evnex/api.py:260-280 | `stop_charge_point` raises ReadTimeout after exactly one attempt |
| Retry.StopGatewayTimeoutResponseIsRetried | evnex/api.py:277-279 | a 504 response that arrives is the status error, not ReadTimeout, and `stop_charge_point` retries it |
| Retry.OtherTimeoutsAreRetried | evnex/api.py:117-120 | for the retry policy of line 119 and its copies on every method: every other method retries a read timeout |
| Retry.ValidationIsNotRetried | evnex/api.py:117-120 | for the retry policy of line 119 and its copies on every method: a ValidationError ends the call at once |
| Retry.MalformedBodyIsRetried | evnex/api.py:141-147 | a non-JSON success body raises the decode error, which is retried |
| Retry.StopWithoutDataIsRetried | evnex/api.py:293-295 | a stop acknowledgement without `data` raises KeyError, which is retried |
| Client.CommonHeaders | evnex/api.py:84-89 | the headers carry the given access token and JSON accept and content types |
| Client.NeedsAuthentication | evnex/api.py:75 | true exactly when one of the three tokens is None |
| Client.ResolveOrg | evnex/api.py:156-157 | an explicit org id is used as given; with none, a truthy cached id is used; otherwise the scope stays None |
| Client.CachedOrg | evnex/api.py:129-130 | the cached id changes only to the first organisation of a returned non-empty list and is unchanged by a call that did not return |
| Client.FirstOrganisationBecomesDefaultScope | evnex/api.py:128-130 | after a fetch returning `[A, ...]`, an unscoped call is scoped to A |
| Client.FailedFetchKeepsScope | evnex/api.py:125-130 | a failed or unfinished fetch leaves scope resolution unchanged |
| Client.Cognito.constructor | evnex/api.py:66-73 | the provider object starts with the supplied tokens and no exchange made |
| Client.Cognito.Authenticate | evnex/api.py:99-101 | a granted exchange replaces all three tokens; a rejected one raises ClientError and keeps them |
| Client.Evnex.constructor | evnex/api.py:84-89 | `org_id` is the configured value; the headers carry the token held at construction, which is recorded as `builtWithToken` |
| Client.Evnex.AccessToken | evnex/api.py:105-107 | the property is the provider's current access token |
| Client.Evnex.IdToken | evnex/api.py:109-111 | the property is the provider's current id token |
| Client.Evnex.RefreshToken | evnex/api.py:113-115 | the property is the provider's current refresh token |
| Client.Evnex.Create | evnex/api.py:37-89 | authenticates exactly when a token is missing; fails with NotAuthorized exactly when that exchange is rejected; otherwise the tokens are the supplied or the granted ones |
| Client.Evnex.AuthenticateWith | evnex/api.py:98-103 | a ClientError becomes NotAuthorized with the provider's message |
| Client.Evnex.Authenticate | evnex/api.py:91-115 | the token properties see the new tokens at once; the Authorization header still holds the token the client was built with, so after a granted exchange with a different token it differs from `AccessToken()`; `org_id` does not change |
| Client.Evnex.GetUserDetail | evnex/api.py:117-132 | the outcome is the retry outcome, and `org_id` becomes the first organisation's id only when the call returned a non-empty list |
| Client.Evnex.CallOrgScoped | evnex/api.py:149-164 | for `get_org_charge_points`, `get_org_insight` (lines 173-174) and `stop_charge_point` (lines 283-284): the scope is the resolved org id and the outcome is the retry outcome, with ReadTimeout a stop condition for `stop_charge_point` only; `org_id` is unchanged |
| Client.Evnex.CallChargePoint | evnex/api.py:184-258 | each charge-point method's outcome is its retry outcome |

## Left out

- HTTP transport and async/await: URLs, query parameters (`days`, the time zone), request bodies (`connectorId`, `chargeNow`), the per-request timeout and the charge point id arguments only shape the request, so a call is given the attempts its requests produce.
- An unresolved scope is written into the request path as the text "None"; the path is not modelled, only the resolved scope.
- httpx is not part of this model: `raise_for_status` is taken to raise for every status outside 200-299, as current httpx does.
- The Cognito password exchange and evnex/auth.py: a foreign library, represented by its outcome. The username and password only feed that exchange and are not fields of the model.
- Backoff timing from `wait_random_exponential(multiplier=1, max=60)`: the random delays are computed inside tenacity, which is not part of this model. Only the retry/stop decision is modelled.
- Cancellation and concurrent use of one client: the source has no code for either.
- pydantic v1's `dict()` conversion is not modelled. Where the source validates a model from a value that is not a dict (`parse_obj`, or a nested model field such as `data`), pydantic first tries `dict(value)`, so a list of key-value pairs can validate. The model treats a JSON object as the only mapping and fails on every other value. The members below inherit this gap.
- Schema.DecodeUserDetail: does not apply the `dict()` conversion; a `data` sent as a list of pairs is rejected here.
- Schema.DecodeUserResponse: does not apply the `dict()` conversion; it gives a ValidationError for a `data` sent as a list of pairs.
- Schema.DecodeItemsResponse: does not apply the `dict()` conversion; a `parse_obj` body such as `[["data", {"items": []}]]`, or a `data` such as `[["items", []]]`, is a ValidationError here where the source returns the items.
- Schema.DecodeDetailResponse: does not apply the `dict()` conversion; a `data` sent as a list of pairs is a ValidationError here.
- Schema.DecodeCommandResponse: does not apply the `dict()` conversion; `parse_obj` of a `data` that is a list of pairs validates in the source, or raises TypeError (which is retried) when a key is not a string, as for `[[1, 2]]`, and both are a ValidationError here.
- Retry.Decode: does not apply the `dict()` conversion; for `get_org_insight` and `stop_charge_point` this can change the retry decision, because `parse_obj` of `[[1, 2]]` (the body for `get_org_insight`, its `data` for `stop_charge_point`) raises a retried TypeError in the source and a stopping ValidationError here.
- Schema.DecodeUserDetail: the user id and the dates are kept as the strings sent, without checking UUID or date syntax, and numeric timestamps are not accepted as dates.
- Schema.DecodeUserDetail: pydantic's coercion of a number or boolean to `str` for `name` and `email` is not modelled; a `name` of `5` fails here where the source gets `"5"`.
- Schema.DecodeUserResponse: inherits the gaps of `Schema.DecodeUserDetail`: a numeric or boolean `name` or `email`, a non-UUID id or a non-date string, and a numeric timestamp are judged differently from pydantic.
- Schema.DecodeOrg: pydantic's coercion between JSON types (a number as a `str`, "true" as a `bool`, a numeric string as an `int`) is not modelled, and the untyped `tierDetails` is not kept.
- Schema.DecodeOrg: `createdDate` and `updatedDate` are `datetime` fields; the model keeps any string, whereas pydantic rejects a string that is not a date and accepts a numeric timestamp, which the model rejects.
- Schema.DecodeOrg: does not apply the `dict()` conversion; an organisation sent as a list of pairs is rejected here.
- Schema.DecodeItemsResponse: the charge point, insight and transaction records are returned as raw JSON; their own pydantic validation is not modelled.
- Schema.DecodeDetailResponse: the charge point detail record's own validation is not modelled.
- Schema.DecodeConfigResponse: the solar and override configuration fields are not validated.
- Schema.DecodeCommandResponse: pydantic's coercion of non-string `message`/`status` values is not modelled.
- Schema.DecodeCommand: pydantic's coercion of a number or boolean to `str` for `message` and `status` is not modelled.
- Floating-point JSON numbers: numbers are integers. The client reads numbers only as the `role` and `tier` of an organisation; a float there, which pydantic truncates with `int()`, is not represented.
- The other schema declarations under evnex/schema (their records are kept as raw JSON), the synchronous wrappers in evnex/charge_points.py and evnex/user.py, and the example scripts carry no decision logic. Some example scripts call methods that evnex/api.py does not define, so those methods are not part of this model.
- The package version lookup, structlog logging and `BaseSettings` environment loading: the version and the configured org id are parameters.
- The string value of each status equals its member name in the source. Dafny cannot name a constructor as a string, so `Status.Value` spells each one out.
