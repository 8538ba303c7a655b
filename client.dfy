/**
 The `Evnex` client object (evnex/api.py): its construction, authentication against the
 identity provider, the token properties, the cached organisation id and the methods that
 run a request under the retry policy of module Retry. The identity provider (pycognito's
 `Cognito`) is represented by the three tokens it holds and by the outcome of one password
 exchange, given as a parameter.
 */
module Client {
  import opened Wrappers
  import opened Responses
  import opened Schema
  import opened Retry

  /** The configuration field the client reads: `EVNEX_ORG_ID`. */
  datatype EvnexConfig = EvnexConfig(orgId: Option<string>)

  /** The identity provider's answer to one password exchange. */
  datatype Exchange =
    | Granted(idToken: string, accessToken: string, refreshToken: string)
    | ClientError(message: string)  // botocore.exceptions.ClientError, with its first argument

  datatype Headers = Headers(accept: string, contentType: string, authorization: Option<string>, userAgent: string)

  /** `_common_headers`, built from the access token held at the time of the call. */
  function CommonHeaders(accessToken: Option<string>, version: string): (h: Headers)
    ensures h.authorization == accessToken
    ensures h.accept == "application/json" && h.contentType == "application/json"
  {
    Headers("application/json", "application/json", accessToken, "python-evnex/" + version)
  }

  /** `any(token is None for token in {id_token, access_token, refresh_token})`. */
  function NeedsAuthentication(idToken: Option<string>, accessToken: Option<string>, refreshToken: Option<string>): (r: bool)
    ensures r <==> idToken.None? || accessToken.None? || refreshToken.None?
  {
    None in {idToken, accessToken, refreshToken}
  }

  /** Python truthiness of an optional string: `None` and `""` are false. */
  predicate Truthy(s: Option<string>)
  {
    s.Some? && s.value != ""
  }

  /** `if org_id is None and self.org_id: org_id = self.org_id`. */
  function ResolveOrg(arg: Option<string>, cached: Option<string>): (scope: Option<string>)
    ensures arg.Some? ==> scope == arg
    ensures scope.Some? ==> scope == arg || scope == cached
    ensures scope.None? <==> arg.None? && !Truthy(cached)
  {
    if arg.None? && Truthy(cached) then cached else arg
  }

  /** The organisation id `get_user_detail` leaves cached: the first organisation's id when the
      call returned a non-empty list, otherwise what was cached before. */
  function CachedOrg(before: Option<string>, outcome: CallOutcome): (after: Option<string>)
    ensures after != before ==>
      outcome.Returned? && outcome.reply.User? && |outcome.reply.detail.organisations| > 0 &&
      after == Some(outcome.reply.detail.organisations[0].id)
    ensures outcome.Returned? && outcome.reply.User? && |outcome.reply.detail.organisations| > 0 ==>
      after == Some(outcome.reply.detail.organisations[0].id)
    ensures !outcome.Returned? ==> after == before
  {
    if outcome.Returned? && outcome.reply.User? && |outcome.reply.detail.organisations| > 0
    then Some(outcome.reply.detail.organisations[0].id)
    else before
  }

  /** After a user fetch that returned organisations `[A, ...]` with a non-empty id `A`, a call
      without an explicit organisation is scoped to `A`. */
  lemma FirstOrganisationBecomesDefaultScope(before: Option<string>, u: UserDetail, tries: nat)
    requires |u.organisations| > 0 && u.organisations[0].id != ""
    ensures ResolveOrg(None, CachedOrg(before, Returned(User(u), tries))) == Some(u.organisations[0].id)
  {
  }

  /** A failed or unfinished user fetch leaves the default scope as it was. */
  lemma FailedFetchKeepsScope(before: Option<string>, arg: Option<string>, outcome: CallOutcome)
    requires !outcome.Returned?
    ensures ResolveOrg(arg, CachedOrg(before, outcome)) == ResolveOrg(arg, before)
  {
  }

  /** The identity-provider object and the tokens it holds. */
  class Cognito {
    var idToken: Option<string>
    var accessToken: Option<string>
    var refreshToken: Option<string>
    /** How many password exchanges this object has made. */
    ghost var exchanges: nat

    constructor (idToken: Option<string>, refreshToken: Option<string>, accessToken: Option<string>)
      ensures this.idToken == idToken && this.accessToken == accessToken && this.refreshToken == refreshToken
      ensures exchanges == 0
    {
      this.idToken := idToken;
      this.accessToken := accessToken;
      this.refreshToken := refreshToken;
      exchanges := 0;
    }

    /** `authenticate(password=...)`: a granted exchange replaces all three tokens; a
        rejected one raises ClientError and leaves them as they were. */
    method Authenticate(exchange: Exchange) returns (clientError: Option<string>)
      modifies this
      ensures exchanges == old(exchanges) + 1
      ensures exchange.Granted? ==>
        clientError.None? && idToken == Some(exchange.idToken) &&
        accessToken == Some(exchange.accessToken) && refreshToken == Some(exchange.refreshToken)
      ensures exchange.ClientError? ==>
        clientError == Some(exchange.message) &&
        idToken == old(idToken) && accessToken == old(accessToken) && refreshToken == old(refreshToken)
    {
      exchanges := exchanges + 1;
      match exchange
      case Granted(i, a, r) =>
        idToken, accessToken, refreshToken := Some(i), Some(a), Some(r);
        clientError := None;
      case ClientError(message) =>
        clientError := Some(message);
    }
  }

  class Evnex {
    const cognito: Cognito
    /** Built once, at construction; authenticating again does not rebuild it. */
    const commonHeaders: Headers
    /** The access token the provider held when `commonHeaders` was built. */
    ghost const builtWithToken: Option<string>
    var orgId: Option<string>

    /** The Authorization header carries the token the client was built with. */
    ghost predicate Valid()
    {
      commonHeaders.authorization == builtWithToken
    }

    /** The tail of `__init__`, once the provider holds its tokens. */
    constructor (config: EvnexConfig, cognito: Cognito, version: string)
      ensures this.cognito == cognito && orgId == config.orgId
      ensures commonHeaders == CommonHeaders(cognito.accessToken, version)
      ensures builtWithToken == cognito.accessToken && Valid()
    {
      this.cognito := cognito;
      orgId := config.orgId;
      commonHeaders := CommonHeaders(cognito.accessToken, version);
      builtWithToken := cognito.accessToken;
    }

    /** The token properties read straight through to the provider object: no copy is kept,
        so they always show the provider's current tokens. */
    function AccessToken(): (token: Option<string>)
      reads cognito
      ensures token == cognito.accessToken
    {
      cognito.accessToken
    }

    function IdToken(): (token: Option<string>)
      reads cognito
      ensures token == cognito.idToken
    {
      cognito.idToken
    }

    function RefreshToken(): (token: Option<string>)
      reads cognito
      ensures token == cognito.refreshToken
    {
      cognito.refreshToken
    }

    /** `Evnex(username, password, id_token, refresh_token, access_token, config)`. It
        authenticates exactly when one of the tokens is missing, and then fails with
        NotAuthorizedException when the exchange is rejected. */
    static method Create(idToken: Option<string>, refreshToken: Option<string>, accessToken: Option<string>,
                         config: EvnexConfig, exchange: Exchange, version: string)
      returns (r: Result<Evnex, ApiError>)
      ensures r.Failure? <==> NeedsAuthentication(idToken, accessToken, refreshToken) && exchange.ClientError?
      ensures r.Failure? ==> r.error == NotAuthorized(Some(exchange.message))
      ensures r.Success? ==> fresh(r.value) && fresh(r.value.cognito) && r.value.orgId == config.orgId
      ensures r.Success? ==> r.value.commonHeaders == CommonHeaders(r.value.AccessToken(), version)
      ensures r.Success? ==> r.value.Valid() && r.value.builtWithToken == r.value.AccessToken()
      ensures r.Success? && !NeedsAuthentication(idToken, accessToken, refreshToken) ==>
        r.value.cognito.exchanges == 0 && r.value.IdToken() == idToken &&
        r.value.AccessToken() == accessToken && r.value.RefreshToken() == refreshToken
      ensures r.Success? && NeedsAuthentication(idToken, accessToken, refreshToken) ==>
        r.value.cognito.exchanges == 1 && r.value.IdToken() == Some(exchange.idToken) &&
        r.value.AccessToken() == Some(exchange.accessToken) && r.value.RefreshToken() == Some(exchange.refreshToken)
    {
      var cognito := new Cognito(idToken, refreshToken, accessToken);
      if NeedsAuthentication(idToken, accessToken, refreshToken) {
        var raised := AuthenticateWith(cognito, exchange);
        if raised.Some? {
          return Failure(raised.value);
        }
      }
      var client := new Evnex(config, cognito, version);
      return Success(client);
    }

    /** The exchange `authenticate` performs, with ClientError turned into NotAuthorizedException. */
    static method AuthenticateWith(cognito: Cognito, exchange: Exchange) returns (raised: Option<ApiError>)
      modifies cognito
      ensures cognito.exchanges == old(cognito.exchanges) + 1
      ensures raised.None? <==> exchange.Granted?
      ensures raised.Some? ==> raised.value == NotAuthorized(Some(exchange.message))
      ensures exchange.Granted? ==>
        cognito.idToken == Some(exchange.idToken) &&
        cognito.accessToken == Some(exchange.accessToken) && cognito.refreshToken == Some(exchange.refreshToken)
      ensures exchange.ClientError? ==>
        cognito.idToken == old(cognito.idToken) &&
        cognito.accessToken == old(cognito.accessToken) && cognito.refreshToken == old(cognito.refreshToken)
    {
      var clientError := cognito.Authenticate(exchange);
      raised := if clientError.Some? then Some(NotAuthorized(Some(clientError.value))) else None;
    }

    /** `authenticate()`: the token properties see the new tokens at once, while the
        Authorization header sent with every request keeps its construction-time value. */
    method Authenticate(exchange: Exchange) returns (raised: Option<ApiError>)
      requires Valid()
      modifies cognito
      ensures raised.None? <==> exchange.Granted?
      ensures raised.Some? ==> raised.value == NotAuthorized(Some(exchange.message))
      ensures exchange.Granted? ==>
        AccessToken() == Some(exchange.accessToken) &&
        IdToken() == Some(exchange.idToken) && RefreshToken() == Some(exchange.refreshToken)
      ensures exchange.ClientError? ==>
        AccessToken() == old(AccessToken()) && IdToken() == old(IdToken()) && RefreshToken() == old(RefreshToken())
      ensures commonHeaders.authorization == builtWithToken
      ensures exchange.Granted? && builtWithToken != Some(exchange.accessToken) ==>
        commonHeaders.authorization != AccessToken()
      ensures orgId == old(orgId)
    {
      raised := AuthenticateWith(cognito, exchange);
    }

    /** `get_user_detail()`: caches the first organisation's id, and only when the call
        returns; a failed attempt never changes `orgId`. */
    method GetUserDetail(attempts: seq<Attempt>) returns (outcome: CallOutcome)
      modifies this`orgId
      ensures outcome == RetryOutcome(Operation.GetUserDetail, attempts)
      ensures orgId == CachedOrg(old(orgId), outcome)
    {
      outcome := CallWithRetry(Operation.GetUserDetail, attempts);
      if outcome.Returned? && outcome.reply.User? && |outcome.reply.detail.organisations| > 0 {
        orgId := Some(outcome.reply.detail.organisations[0].id);
      }
    }

    /** The methods scoped by organisation: `get_org_charge_points(org_id)`,
        `get_org_insight(days, org_id)` and `stop_charge_point(charge_point_id, org_id)`;
        `scope` is the organisation the request is sent for. */
    method CallOrgScoped(op: Operation, orgArg: Option<string>, attempts: seq<Attempt>)
      returns (scope: Option<string>, outcome: CallOutcome)
      requires op in {Operation.GetOrgChargePoints, Operation.GetOrgInsight, Operation.StopChargePoint}
      ensures scope == ResolveOrg(orgArg, orgId)
      ensures outcome == RetryOutcome(op, attempts)
    {
      scope := ResolveOrg(orgArg, orgId);
      outcome := CallWithRetry(op, attempts);
    }

    /** The methods addressed by charge point alone: `get_charge_point_detail`,
        `get_charge_point_solar_config`, `get_charge_point_override`,
        `set_charge_point_override` and `get_charge_point_transactions`. */
    method CallChargePoint(op: Operation, attempts: seq<Attempt>) returns (outcome: CallOutcome)
      requires op in {Operation.GetChargePointDetail, Operation.GetChargePointSolarConfig,
        Operation.GetChargePointOverride, Operation.SetChargePointOverride, Operation.GetChargePointTransactions}
      ensures outcome == RetryOutcome(op, attempts)
    {
      outcome := CallWithRetry(op, attempts);
    }
  }
}
