/**
 The parts of the response schemas (the files under evnex/schema) that the client relies on: the
 `data` envelope, the `items` list, the user detail with its organisations, and a command's
 `message` and `status`. Records the client hands back without reading them stay raw JSON.
 A mapping is a JSON object: the `dict()` conversion pydantic tries on other values is not modelled.
 */
module Schema {
  import opened Wrappers
  import opened Payload
  import opened Responses

  /** `EvnexOrgBrief`. The dates are kept as the strings the service sends. */
  datatype OrgBrief = OrgBrief(id: string, isDefault: bool, role: int, createdDate: string,
                               name: string, slug: string, tier: int, updatedDate: string)

  /** `EvnexUserDetail`. The id is kept as the string the service sends. */
  datatype UserDetail = UserDetail(id: string, createdDate: string, updatedDate: string,
                                   name: string, email: string, organisations: seq<OrgBrief>)

  /** `EvnexCommandResponse`. */
  datatype CommandResponse = CommandResponse(message: string, status: string)

  function StringField(j: Json, key: string): (r: Option<string>)
    ensures r.Some? <==> Field(j, key).Some? && Field(j, key).value.JString?
    ensures r.Some? ==> Field(j, key) == Some(JString(r.value))
  {
    match Field(j, key)
    case Some(JString(s)) => Some(s)
    case _ => None
  }

  function BoolField(j: Json, key: string): (r: Option<bool>)
    ensures r.Some? <==> Field(j, key).Some? && Field(j, key).value.JBool?
    ensures r.Some? ==> Field(j, key) == Some(JBool(r.value))
  {
    match Field(j, key)
    case Some(JBool(b)) => Some(b)
    case _ => None
  }

  function IntField(j: Json, key: string): (r: Option<int>)
    ensures r.Some? <==> Field(j, key).Some? && Field(j, key).value.JNumber?
    ensures r.Some? ==> Field(j, key) == Some(JNumber(r.value))
  {
    match Field(j, key)
    case Some(JNumber(n)) => Some(n)
    case _ => None
  }

  /** One organisation: every field of `EvnexOrgBrief` without a default must be present with
      its type (`tierDetails` is typed `Any` and may be absent). */
  function DecodeOrg(j: Json): (r: Option<OrgBrief>)
    ensures r.Some? ==> Field(j, "id") == Some(JString(r.value.id))
    ensures r.None? <==>
      StringField(j, "id").None? || BoolField(j, "isDefault").None? || IntField(j, "role").None? ||
      StringField(j, "createdDate").None? || StringField(j, "name").None? ||
      StringField(j, "slug").None? || IntField(j, "tier").None? || StringField(j, "updatedDate").None?
  {
    match (StringField(j, "id"), BoolField(j, "isDefault"), IntField(j, "role"), StringField(j, "createdDate"),
           StringField(j, "name"), StringField(j, "slug"), IntField(j, "tier"), StringField(j, "updatedDate"))
    case (Some(id), Some(isDefault), Some(role), Some(created), Some(name), Some(slug), Some(tier), Some(updated)) =>
      Some(OrgBrief(id, isDefault, role, created, name, slug, tier, updated))
    case _ => None
  }

  /** All organisations of a list, in order, or `None` when one of them does not validate. */
  function DecodeOrgs(items: seq<Json>): (r: Option<seq<OrgBrief>>)
    ensures r.Some? <==> forall i :: 0 <= i < |items| ==> DecodeOrg(items[i]).Some?
    ensures r.Some? ==> |r.value| == |items| &&
                        forall i :: 0 <= i < |items| ==> DecodeOrg(items[i]) == Some(r.value[i])
  {
    if items == [] then Some([])
    else match (DecodeOrg(items[0]), DecodeOrgs(items[1..]))
      case (Some(o), Some(os)) => Some([o] + os)
      case (None, _) => None
      case (_, None) =>
        assert forall i :: 0 <= i < |items| - 1 ==> items[1..][i] == items[i + 1];
        None
  }

  /** `type: Literal['User'] = 'User'`: absent, or exactly the string `User`. */
  predicate UserTypeOk(d: Json)
  {
    Field(d, "type").None? || Field(d, "type") == Some(JString("User"))
  }

  /** The `data` object of the user envelope, validated as `EvnexUserDetail`. */
  function DecodeUserDetail(d: Json): (r: Option<UserDetail>)
    ensures r.Some? ==>
      UserTypeOk(d) && Field(d, "id") == Some(JString(r.value.id)) &&
      Field(d, "organisations").Some? && Field(d, "organisations").value.JArray? &&
      DecodeOrgs(Field(d, "organisations").value.items) == Some(r.value.organisations)
    ensures !UserTypeOk(d) ==> r.None?
    ensures (Field(d, "organisations").None? || !Field(d, "organisations").value.JArray?) ==> r.None?
  {
    if !UserTypeOk(d) then None
    else match (StringField(d, "id"), StringField(d, "createdDate"), StringField(d, "updatedDate"),
                StringField(d, "name"), StringField(d, "email"), Field(d, "organisations"))
      case (Some(id), Some(created), Some(updated), Some(name), Some(email), Some(JArray(items))) =>
        (match DecodeOrgs(items)
         case Some(orgs) => Some(UserDetail(id, created, updated, name, email, orgs))
         case None => None)
      case _ => None
  }

  /** `EvnexGetUserResponse(**j).data`: `**` needs a mapping, and the envelope must hold a
      `data` object that validates as a user detail, organisations included. */
  function DecodeUserResponse(j: Json): (r: Result<UserDetail, ApiError>)
    ensures r == Failure(TypeError) <==> !j.JObject?
    ensures r.Failure? ==> r.error in {TypeError, ValidationError}
    ensures r.Success? <==>
      j.JObject? && Field(j, "data").Some? && DecodeUserDetail(Field(j, "data").value).Some?
    ensures r.Success? ==>
      var orgs := Field(Field(j, "data").value, "organisations");
      orgs.Some? && orgs.value.JArray? && DecodeOrgs(orgs.value.items) == Some(r.value.organisations)
  {
    if !j.JObject? then Failure(TypeError)
    else match Field(j, "data")
      case None => Failure(ValidationError)
      case Some(data) =>
        match DecodeUserDetail(data)
        case Some(u) => Success(u)
        case None => Failure(ValidationError)
  }

  /** The id the client caches comes straight from the first organisation object of the body. */
  lemma CachedIdIsFirstOrganisationId(j: Json)
    requires DecodeUserResponse(j).Success? && |DecodeUserResponse(j).value.organisations| > 0
    ensures var orgs := Field(Field(j, "data").value, "organisations").value;
      orgs.JArray? && |orgs.items| > 0 &&
      Field(orgs.items[0], "id") == Some(JString(DecodeUserResponse(j).value.organisations[0].id))
  {
    var orgs := Field(Field(j, "data").value, "organisations").value;
    assert DecodeOrg(orgs.items[0]) == Some(DecodeUserResponse(j).value.organisations[0]);
  }

  function EncodeOrg(o: OrgBrief): Json
  {
    JObject(map["id" := JString(o.id), "isDefault" := JBool(o.isDefault), "role" := JNumber(o.role),
                "createdDate" := JString(o.createdDate), "name" := JString(o.name),
                "slug" := JString(o.slug), "tier" := JNumber(o.tier),
                "updatedDate" := JString(o.updatedDate)])
  }

  /** The `data` object of a user as the service sends it, with any further members in
      `extra` (pydantic ignores unknown keys). */
  function EncodeUserDetail(u: UserDetail, extra: map<string, Json>): Json
  {
    var orgs := u.organisations;
    JObject(extra + map[
      "id" := JString(u.id), "createdDate" := JString(u.createdDate),
      "updatedDate" := JString(u.updatedDate), "name" := JString(u.name),
      "email" := JString(u.email), "type" := JString("User"),
      "organisations" := JArray(seq(|orgs|, i requires 0 <= i < |orgs| => EncodeOrg(orgs[i])))])
  }

  /** The user envelope `{"data": {"id": ..., ..., "organisations": [...]}}`. */
  function EncodeUserResponse(u: UserDetail, extra: map<string, Json>): Json
  {
    JObject(map["data" := EncodeUserDetail(u, extra)])
  }

  lemma DecodeEncodeOrg(o: OrgBrief)
    ensures DecodeOrg(EncodeOrg(o)) == Some(o)
  {
    var j := EncodeOrg(o);
    assert StringField(j, "id") == Some(o.id);
    assert BoolField(j, "isDefault") == Some(o.isDefault);
    assert IntField(j, "role") == Some(o.role);
    assert StringField(j, "createdDate") == Some(o.createdDate);
    assert StringField(j, "name") == Some(o.name);
    assert StringField(j, "slug") == Some(o.slug);
    assert IntField(j, "tier") == Some(o.tier);
    assert StringField(j, "updatedDate") == Some(o.updatedDate);
  }

  lemma DecodeEncodeOrgs(orgs: seq<OrgBrief>)
    ensures DecodeOrgs(seq(|orgs|, i requires 0 <= i < |orgs| => EncodeOrg(orgs[i]))) == Some(orgs)
  {
    var items := seq(|orgs|, i requires 0 <= i < |orgs| => EncodeOrg(orgs[i]));
    forall i | 0 <= i < |items| ensures DecodeOrg(items[i]) == Some(orgs[i]) {
      DecodeEncodeOrg(orgs[i]);
    }
    var r := DecodeOrgs(items);
    assert r.value == orgs;
  }

  /** A `data` object holding each field of `u` with its type is decoded as `u`. */
  lemma DecodeUserDetailOf(d: Json, u: UserDetail, items: seq<Json>)
    requires UserTypeOk(d)
    requires StringField(d, "id") == Some(u.id) && StringField(d, "createdDate") == Some(u.createdDate) &&
             StringField(d, "updatedDate") == Some(u.updatedDate) && StringField(d, "name") == Some(u.name) &&
             StringField(d, "email") == Some(u.email)
    requires Field(d, "organisations") == Some(JArray(items)) && DecodeOrgs(items) == Some(u.organisations)
    ensures DecodeUserDetail(d) == Some(u)
  {
  }

  lemma EncodeUserDetailFields(u: UserDetail, extra: map<string, Json>)
    ensures var d := EncodeUserDetail(u, extra);
      UserTypeOk(d) &&
      StringField(d, "id") == Some(u.id) && StringField(d, "createdDate") == Some(u.createdDate) &&
      StringField(d, "updatedDate") == Some(u.updatedDate) && StringField(d, "name") == Some(u.name) &&
      StringField(d, "email") == Some(u.email)
  {
    var m := EncodeUserDetail(u, extra).fields;
    assert m["type"] == JString("User");
    assert m["id"] == JString(u.id);
    assert m["createdDate"] == JString(u.createdDate);
    assert m["updatedDate"] == JString(u.updatedDate);
    assert m["name"] == JString(u.name);
    assert m["email"] == JString(u.email);
  }

  lemma DecodeEncodeUserDetail(u: UserDetail, extra: map<string, Json>)
    ensures DecodeUserDetail(EncodeUserDetail(u, extra)) == Some(u)
  {
    var orgs := u.organisations;
    var items := seq(|orgs|, i requires 0 <= i < |orgs| => EncodeOrg(orgs[i]));
    var d := EncodeUserDetail(u, extra);
    DecodeEncodeOrgs(orgs);
    EncodeUserDetailFields(u, extra);
    assert d.fields["organisations"] == JArray(items);
    DecodeUserDetailOf(d, u, items);
  }

  /** Decoding the envelope of a user recovers the user, organisations in order, whatever
      other members `data` carries. */
  lemma DecodeEncodeUser(u: UserDetail, extra: map<string, Json>)
    ensures DecodeUserResponse(EncodeUserResponse(u, extra)) == Success(u)
  {
    DecodeEncodeUserDetail(u, extra);
  }

  /** One organisation that does not validate makes the whole response invalid: it is never
      skipped or given a default. */
  lemma DecodeUserRejectsBadOrg(data: map<string, Json>, items: seq<Json>, k: nat)
    requires "organisations" in data && data["organisations"] == JArray(items)
    requires k < |items| && DecodeOrg(items[k]).None?
    ensures DecodeUserResponse(JObject(map["data" := JObject(data)])) == Failure(ValidationError)
  {
  }

  /** `Envelope(**j).data.items` (`viaKeywords`) or `Envelope.parse_obj(j).data.items`: the
      items of the `data` envelope, which must be a list. */
  function DecodeItemsResponse(j: Json, viaKeywords: bool): (r: Result<seq<Json>, ApiError>)
    ensures r.Success? ==> Field(j, "data").Some? && Field(Field(j, "data").value, "items") == Some(JArray(r.value))
    ensures !j.JObject? ==> r == Failure(if viaKeywords then TypeError else ValidationError)
    ensures j.JObject? && r.Failure? ==> r.error == ValidationError
    ensures r.Success? <==>
      j.JObject? && Field(j, "data").Some? && Field(Field(j, "data").value, "items").Some? &&
      Field(Field(j, "data").value, "items").value.JArray?
  {
    if !j.JObject? then Failure(if viaKeywords then TypeError else ValidationError)
    else match Field(j, "data")
      case None => Failure(ValidationError)
      case Some(data) =>
        match Field(data, "items")
        case Some(JArray(items)) => Success(items)
        case _ => Failure(ValidationError)
  }

  /** `EvnexGetChargePointDetailResponse(**j).data`: the `data` object. */
  function DecodeDetailResponse(j: Json): (r: Result<Json, ApiError>)
    ensures r.Success? ==> Field(j, "data") == Some(r.value) && r.value.JObject?
    ensures !j.JObject? ==> r == Failure(TypeError)
    ensures r.Success? <==> j.JObject? && Field(j, "data").Some? && Field(j, "data").value.JObject?
  {
    if !j.JObject? then Failure(TypeError)
    else match Field(j, "data")
      case Some(JObject(fields)) => Success(JObject(fields))
      case _ => Failure(ValidationError)
  }

  /** `EvnexChargePointSolarConfig(**j)` / `EvnexChargePointOverrideConfig(**j)`: the whole object. */
  function DecodeConfigResponse(j: Json): (r: Result<Json, ApiError>)
    ensures r.Success? <==> j.JObject?
    ensures r.Success? ==> r.value == j
    ensures r.Failure? ==> r.error == TypeError
  {
    if j.JObject? then Success(j) else Failure(TypeError)
  }

  /** `EvnexCommandResponse.parse_obj(d)`. */
  function DecodeCommand(d: Json): (r: Option<CommandResponse>)
    ensures r.Some? <==> StringField(d, "message").Some? && StringField(d, "status").Some?
    ensures r.Some? ==> r.value == CommandResponse(StringField(d, "message").value, StringField(d, "status").value)
  {
    match (Field(d, "message"), Field(d, "status"))
    case (Some(JString(m)), Some(JString(s))) => Some(CommandResponse(m, s))
    case _ => None
  }

  /** `EvnexCommandResponse.parse_obj(j["data"])`: indexing a non-mapping is a TypeError and a
      missing `data` key a KeyError, both raised before any validation. */
  function DecodeCommandResponse(j: Json): (r: Result<CommandResponse, ApiError>)
    ensures r == Failure(TypeError) <==> !j.JObject?
    ensures r == Failure(KeyError("data")) <==> j.JObject? && "data" !in j.fields
    ensures r.Success? ==> DecodeCommand(j.fields["data"]) == Some(r.value)
    ensures r.Success? <==> j.JObject? && "data" in j.fields && DecodeCommand(j.fields["data"]).Some?
  {
    if !j.JObject? then Failure(TypeError)
    else if "data" !in j.fields then Failure(KeyError("data"))
    else match DecodeCommand(j.fields["data"])
      case Some(c) => Success(c)
      case None => Failure(ValidationError)
  }

  function EncodeCommandResponse(c: CommandResponse): Json
  {
    JObject(map["data" := JObject(map["message" := JString(c.message), "status" := JString(c.status)])])
  }

  lemma DecodeEncodeCommand(c: CommandResponse)
    ensures DecodeCommandResponse(EncodeCommandResponse(c)) == Success(c)
  {
  }
}
