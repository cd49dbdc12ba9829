/**
 * The record shapes of fastmask/json_api.go, how json/v2 binds a JSON value to
 * each of them (`json.Unmarshal`: null and absent members give the zero value,
 * unknown members are ignored, member names match exactly), and how the request
 * marshals (`json.Marshal`, by the field tags).
 */
module JsonApi {
  import opened Wrappers
  import opened Json

  /** The config file: `{"token": "..."}`. */
  datatype Config = Config(token: string)

  /** The JMAP Session resource, the three members the client reads (RFC 8620, section 2). */
  datatype FastmailAuthResponse = FastmailAuthResponse(
    apiUrl: string,
    capabilities: map<string, Json>,
    primaryAccounts: map<string, Json>)

  datatype FastmailMaskedEmailCreateMethodParameters =
    FastmailMaskedEmailCreateMethodParameters(forDomain: string, state: string, emailPrefix: string)

  /** The arguments of a `MaskedEmail/set` call: `create` maps creation ids to new records. */
  datatype FastmailMaskedEmailCreateMethod =
    FastmailMaskedEmailCreateMethod(accountId: string, create: map<string, FastmailMaskedEmailCreateMethodParameters>)

  /**
   * A JMAP Request object (RFC 8620, section 3.3). Each method call is Go's
   * `[]any`: the method name, the arguments and the call id. The arguments are
   * kept as the Go struct; `Marshal` turns the whole request into JSON.
   */
  datatype Invocation = Invocation(name: string, arguments: FastmailMaskedEmailCreateMethod, callId: string)

  datatype FastmailMaskedEmailRequest = FastmailMaskedEmailRequest(using: seq<string>, methodCalls: seq<Invocation>)

  /** A JMAP Response object (RFC 8620, section 3.4); each method response kept as raw JSON (`jsontext.Value`). */
  datatype FastmailMaskedEmailResponse = FastmailMaskedEmailResponse(methodResponses: seq<Json>)

  datatype MaskedEmailSetResponseDetail = MaskedEmailSetResponseDetail(email: string)

  /** The `created` member of a /set response (RFC 8620, section 5.3). */
  datatype MaskedEmailSetResponse = MaskedEmailSetResponse(created: map<string, MaskedEmailSetResponseDetail>)

  datatype FastmaskResponse = FastmaskResponse(prefix: string, domain: string, email: string)

  // ---- json.Unmarshal into each record ----

  function DecodeConfig(j: Json): (r: Option<Config>)
    ensures r.Some? <==> j.Null? || (j.Object? && AsGoString(Lookup(j.members, "token")).Some?)
    ensures j.Null? ==> r == Some(Config(""))
    ensures r.Some? && j.Object? ==> AsGoString(Lookup(j.members, "token")) == Some(r.value.token)
  {
    match j
    case Null => Some(Config(""))
    case Object(m) =>
      (match AsGoString(Lookup(m, "token"))
       case Some(t) => Some(Config(t))
       case None => None)
    case _ => None
  }

  function DecodeAuthResponse(j: Json): (r: Option<FastmailAuthResponse>)
    ensures r.Some? <==>
      || j.Null?
      || (&& j.Object?
          && AsGoString(Lookup(j.members, "apiUrl")).Some?
          && AsGoMap(Lookup(j.members, "capabilities")).Some?
          && AsGoMap(Lookup(j.members, "primaryAccounts")).Some?)
    ensures j.Null? ==> r == Some(FastmailAuthResponse("", map[], map[]))
    ensures r.Some? && j.Object? ==>
      && AsGoString(Lookup(j.members, "apiUrl")) == Some(r.value.apiUrl)
      && AsGoMap(Lookup(j.members, "capabilities")) == Some(r.value.capabilities)
      && AsGoMap(Lookup(j.members, "primaryAccounts")) == Some(r.value.primaryAccounts)
  {
    match j
    case Null => Some(FastmailAuthResponse("", map[], map[]))
    case Object(m) =>
      var url := AsGoString(Lookup(m, "apiUrl"));
      var caps := AsGoMap(Lookup(m, "capabilities"));
      var accounts := AsGoMap(Lookup(m, "primaryAccounts"));
      if url.Some? && caps.Some? && accounts.Some? then
        Some(FastmailAuthResponse(url.value, caps.value, accounts.value))
      else None
    case _ => None
  }

  function DecodeMaskedEmailResponse(j: Json): (r: Option<FastmailMaskedEmailResponse>)
    ensures r.Some? <==> j.Null? || (j.Object? && AsGoSlice(Lookup(j.members, "methodResponses")).Some?)
    ensures j.Null? ==> r == Some(FastmailMaskedEmailResponse([]))
    ensures r.Some? && j.Object? ==> AsGoSlice(Lookup(j.members, "methodResponses")) == Some(r.value.methodResponses)
  {
    match j
    case Null => Some(FastmailMaskedEmailResponse([]))
    case Object(m) =>
      (match AsGoSlice(Lookup(m, "methodResponses"))
       case Some(xs) => Some(FastmailMaskedEmailResponse(xs))
       case None => None)
    case _ => None
  }

  function DecodeSetResponseDetail(j: Json): (r: Option<MaskedEmailSetResponseDetail>)
    ensures r.Some? <==> j.Null? || (j.Object? && AsGoString(Lookup(j.members, "email")).Some?)
    ensures j.Null? ==> r == Some(MaskedEmailSetResponseDetail(""))
    ensures r.Some? && j.Object? ==> AsGoString(Lookup(j.members, "email")) == Some(r.value.email)
  {
    match j
    case Null => Some(MaskedEmailSetResponseDetail(""))
    case Object(m) =>
      (match AsGoString(Lookup(m, "email"))
       case Some(e) => Some(MaskedEmailSetResponseDetail(e))
       case None => None)
    case _ => None
  }

  /** A Go map of records decodes only if every one of its values does. */
  function DecodeCreated(m: map<string, Json>): (r: Option<map<string, MaskedEmailSetResponseDetail>>)
    ensures r.Some? <==> forall k | k in m :: DecodeSetResponseDetail(m[k]).Some?
    ensures r.Some? ==> r.value.Keys == m.Keys
    ensures r.Some? ==> forall k | k in r.value :: Some(r.value[k]) == DecodeSetResponseDetail(m[k])
  {
    if forall k | k in m :: DecodeSetResponseDetail(m[k]).Some? then
      Some(map k | k in m :: DecodeSetResponseDetail(m[k]).value)
    else None
  }

  function DecodeSetResponse(j: Json): (r: Option<MaskedEmailSetResponse>)
    ensures r.Some? <==>
      || j.Null?
      || (&& j.Object?
          && AsGoMap(Lookup(j.members, "created")).Some?
          && DecodeCreated(AsGoMap(Lookup(j.members, "created")).value).Some?)
    ensures j.Null? ==> r == Some(MaskedEmailSetResponse(map[]))
    ensures r.Some? && j.Object? ==>
      && AsGoMap(Lookup(j.members, "created")).Some?
      && DecodeCreated(AsGoMap(Lookup(j.members, "created")).value) == Some(r.value.created)
  {
    match j
    case Null => Some(MaskedEmailSetResponse(map[]))
    case Object(m) =>
      (match AsGoMap(Lookup(m, "created"))
       case Some(c) =>
         (match DecodeCreated(c)
          case Some(d) => Some(MaskedEmailSetResponse(d))
          case None => None)
       case None => None)
    case _ => None
  }

  // ---- json.Marshal of the request ----

  function StringsJson(ss: seq<string>): (j: Json)
    ensures j.Array? && |j.elems| == |ss|
    ensures forall i | 0 <= i < |ss| :: j.elems[i] == String(ss[i])
  {
    Array(seq(|ss|, i requires 0 <= i < |ss| => String(ss[i])))
  }

  function ParametersJson(p: FastmailMaskedEmailCreateMethodParameters): Json
  {
    Object(map["forDomain" := String(p.forDomain), "state" := String(p.state), "emailPrefix" := String(p.emailPrefix)])
  }

  function CreateMethodJson(c: FastmailMaskedEmailCreateMethod): Json
  {
    Object(map[
      "accountId" := String(c.accountId),
      "create" := Object(map k | k in c.create :: ParametersJson(c.create[k]))])
  }

  /** A method call marshals as the heterogeneous array `[name, arguments, callId]`. */
  function InvocationJson(inv: Invocation): (j: Json)
    ensures j.Array? && |j.elems| == 3
  {
    Array([String(inv.name), CreateMethodJson(inv.arguments), String(inv.callId)])
  }

  function InvocationsJson(calls: seq<Invocation>): (j: Json)
    ensures j.Array? && |j.elems| == |calls|
    ensures forall i | 0 <= i < |calls| :: j.elems[i] == InvocationJson(calls[i])
  {
    Array(seq(|calls|, i requires 0 <= i < |calls| => InvocationJson(calls[i])))
  }

  function RequestJson(req: FastmailMaskedEmailRequest): Json
  {
    Object(map["using" := StringsJson(req.using), "methodCalls" := InvocationsJson(req.methodCalls)])
  }
}
