/**
 * Alias creation of fastmask/fastmail.go: the `MaskedEmail/set` request
 * envelope (RFC 8620, sections 3.2 and 3.3) and the two-phase decode of the
 * response envelope (section 3.4) down to the `created` map (section 5.3).
 */
module Fastmail {
  import opened Wrappers
  import opened Json
  import opened Consts
  import opened JsonApi
  import opened Http
  import SecureTokens
  import Auth
  import Prefix

  datatype CreateError =
    | Transport
    | BadStatus(status: int, body: string)
    | ResponseUnmarshalFailed
    | EmptyMethodResponses
    | MethodResponseUnmarshalFailed
    | MethodResponseTooShort(length: nat)
    | SetResponseUnmarshalFailed
    | NoFastmaskResponse
    | EmailEmpty

  /** The request: one `MaskedEmail/set` call creating the record under the creation id "fastmask". */
  function BuildRequest(id: Auth.FastmailIdentity, domain: string, prefix: string): FastmailMaskedEmailRequest
  {
    FastmailMaskedEmailRequest(
      [PrimaryAccountKey, MaskedEmailCapability],
      [Invocation(
         MaskedEmailSetMethod,
         FastmailMaskedEmailCreateMethod(
           id.accountId,
           map[FastmaskRequestId := FastmailMaskedEmailCreateMethodParameters(domain, JmapStateEnabled, prefix)]),
         JmapCallId)])
  }

  /** `POST` of the marshalled request to the session's API URL, with the bearer headers. */
  function CreateRequest(id: Auth.FastmailIdentity, domain: string, prefix: string, token: SecureTokens.SecureToken): (req: HttpRequest)
    ensures req.verb == "POST" && req.url == id.apiUrl && req.headers == Headers(token)
    ensures req.body == Some(RequestJson(BuildRequest(id, domain, prefix)))
  {
    HttpRequest("POST", id.apiUrl, Headers(token), Some(RequestJson(BuildRequest(id, domain, prefix))))
  }

  /** On the wire the request is exactly the documented envelope. */
  lemma RequestEnvelope(id: Auth.FastmailIdentity, domain: string, prefix: string)
    ensures RequestJson(BuildRequest(id, domain, prefix)) == Object(map[
      "using" := Array([String("urn:ietf:params:jmap:core"), String("https://www.fastmail.com/dev/maskedemail")]),
      "methodCalls" := Array([Array([
        String("MaskedEmail/set"),
        Object(map[
          "accountId" := String(id.accountId),
          "create" := Object(map["fastmask" := Object(map[
            "forDomain" := String(domain), "state" := String("enabled"), "emailPrefix" := String(prefix)])])]),
        String("0")])])])
  {
    var req := BuildRequest(id, domain, prefix);
    var p := FastmailMaskedEmailCreateMethodParameters(domain, JmapStateEnabled, prefix);
    assert (map k | k in req.methodCalls[0].arguments.create :: ParametersJson(req.methodCalls[0].arguments.create[k]))
      == map["fastmask" := ParametersJson(p)];
    var args := Object(map["accountId" := String(id.accountId), "create" := Object(map["fastmask" := ParametersJson(p)])]);
    assert CreateMethodJson(req.methodCalls[0].arguments) == args;
    assert InvocationJson(req.methodCalls[0]) == Array([String(MaskedEmailSetMethod), args, String(JmapCallId)]);
    assert StringsJson(req.using) == Array([String(PrimaryAccountKey), String(MaskedEmailCapability)]);
    assert InvocationsJson(req.methodCalls) == Array([InvocationJson(req.methodCalls[0])]);
    assert ParametersJson(p) == Object(map["forDomain" := String(domain), "state" := String("enabled"), "emailPrefix" := String(prefix)]);
    assert RequestJson(req) == Object(map["using" := StringsJson(req.using), "methodCalls" := Array([InvocationJson(req.methodCalls[0])])]);
  }

  /**
   * `CreateMaskedEmail` once the request is sent: decode `methodResponses` as
   * raw values, element 0 as an array of raw values, and element 1 of that as a
   * /set response; then find "fastmask" in `created` and refuse an empty email.
   */
  function CreateMaskedEmail(prefix: string, domain: string, reply: Reply): (r: Result<FastmaskResponse, CreateError>)
    ensures reply.NoResponse? ==> r == Failure(Transport)
    ensures reply.Response? && reply.status != 200 ==> r == Failure(BadStatus(reply.status, reply.body))
    ensures r.Success? ==> r.value.prefix == prefix && r.value.domain == domain && r.value.email != ""
    ensures r.Success? ==>
      && reply.Response? && reply.status == 200 && reply.parsed.Some?
      && var envelope := DecodeMaskedEmailResponse(reply.parsed.value);
      && envelope.Some? && |envelope.value.methodResponses| >= 1
      && var invocation := AsGoSlice(envelope.value.methodResponses[0]);
      && invocation.Some? && |invocation.value| >= 2
      && var setResponse := DecodeSetResponse(invocation.value[1]);
      && setResponse.Some? && FastmaskRequestId in setResponse.value.created
      && setResponse.value.created[FastmaskRequestId].email == r.value.email
  {
    match reply
    case NoResponse => Failure(Transport)
    case Response(status, body, parsed) =>
      if status != 200 then Failure(BadStatus(status, body))
      else if parsed.None? then Failure(ResponseUnmarshalFailed)
      else match DecodeMaskedEmailResponse(parsed.value)
        case None => Failure(ResponseUnmarshalFailed)
        case Some(envelope) =>
          if |envelope.methodResponses| < 1 then Failure(EmptyMethodResponses)
          else match AsGoSlice(envelope.methodResponses[0])
            case None => Failure(MethodResponseUnmarshalFailed)
            case Some(methodResponse) =>
              if |methodResponse| < 2 then Failure(MethodResponseTooShort(|methodResponse|))
              else match DecodeSetResponse(methodResponse[1])
                case None => Failure(SetResponseUnmarshalFailed)
                case Some(setResponse) =>
                  if FastmaskRequestId !in setResponse.created then Failure(NoFastmaskResponse)
                  else
                    var maskedEmail := setResponse.created[FastmaskRequestId];
                    if maskedEmail.email == "" then Failure(EmailEmpty)
                    else Success(FastmaskResponse(prefix, domain, maskedEmail.email))
  }

  /** A response envelope `{"methodResponses": [first] + rest}`. */
  function Envelope(first: Json, rest: seq<Json>): Json
  {
    Object(map["methodResponses" := Array([first] + rest)])
  }

  /** A method response `[name, arguments] + tail`; the call id, if any, is in `tail`. */
  function MethodResponse(name: Json, arguments: Json, tail: seq<Json>): Json
  {
    Array([name, arguments] + tail)
  }

  /**
   * Only the arguments of the first method response matter: its method name and
   * call id are not checked, and later method responses are ignored.
   */
  lemma OnlyFirstArgumentsInspected(prefix: string, domain: string, body1: string, body2: string,
                                      name1: Json, name2: Json, tail1: seq<Json>, tail2: seq<Json>,
                                      rest1: seq<Json>, rest2: seq<Json>, arguments: Json)
    ensures CreateMaskedEmail(prefix, domain, Response(200, body1, Some(Envelope(MethodResponse(name1, arguments, tail1), rest1))))
         == CreateMaskedEmail(prefix, domain, Response(200, body2, Some(Envelope(MethodResponse(name2, arguments, tail2), rest2))))
  {
  }

  /** The envelope failures, each with its own error. */
  lemma EnvelopeFailures(prefix: string, domain: string, body: string, x: Json, rest: seq<Json>)
    ensures CreateMaskedEmail(prefix, domain, Response(200, body, None)) == Failure(ResponseUnmarshalFailed)
    ensures DecodeMaskedEmailResponse(x).None? ==>
      CreateMaskedEmail(prefix, domain, Response(200, body, Some(x))) == Failure(ResponseUnmarshalFailed)
    ensures !x.Array? && !x.Null? ==>
      CreateMaskedEmail(prefix, domain, Response(200, body, Some(Object(map["methodResponses" := x]))))
      == Failure(ResponseUnmarshalFailed)
    ensures CreateMaskedEmail(prefix, domain, Response(200, body, Some(Object(map["methodResponses" := Array([])]))))
      == Failure(EmptyMethodResponses)
    ensures CreateMaskedEmail(prefix, domain, Response(200, body, Some(Object(map[]))))
      == Failure(EmptyMethodResponses)
    ensures CreateMaskedEmail(prefix, domain, Response(200, body, Some(Envelope(Array([]), rest))))
      == Failure(MethodResponseTooShort(0))
    ensures CreateMaskedEmail(prefix, domain, Response(200, body, Some(Envelope(Array([x]), rest))))
      == Failure(MethodResponseTooShort(1))
    ensures !x.Array? && !x.Null? ==>
      CreateMaskedEmail(prefix, domain, Response(200, body, Some(Envelope(x, rest)))) == Failure(MethodResponseUnmarshalFailed)
    ensures CreateMaskedEmail(prefix, domain, Response(200, body, Some(Envelope(Null, rest))))
      == Failure(MethodResponseTooShort(0))
  {
  }

  /** A /set response whose `created` map is given. */
  function SetArguments(created: map<string, Json>): Json
  {
    Object(map["created" := Object(created)])
  }

  /** With a well-formed `created` map, the outcome is decided by its "fastmask" entry alone. */
  lemma CreatedEntryDecides(prefix: string, domain: string, body: string, name: Json, tail: seq<Json>,
                                               rest: seq<Json>, created: map<string, Json>)
    requires forall k | k in created :: DecodeSetResponseDetail(created[k]).Some?
    ensures var r := CreateMaskedEmail(prefix, domain, Response(200, body, Some(Envelope(MethodResponse(name, SetArguments(created), tail), rest))));
      && (FastmaskRequestId !in created ==> r == Failure(NoFastmaskResponse))
      && (FastmaskRequestId in created ==>
            var email := DecodeSetResponseDetail(created[FastmaskRequestId]).value.email;
            r == if email == "" then Failure(EmailEmpty) else Success(FastmaskResponse(prefix, domain, email)))
  {
  }

  /** A malformed entry anywhere in `created` fails the whole set-response decode, even beside a good "fastmask" entry. */
  lemma MalformedSiblingRejected(prefix: string, domain: string, body: string, name: Json, tail: seq<Json>,
                                  rest: seq<Json>, created: map<string, Json>, bad: string)
    requires bad in created && DecodeSetResponseDetail(created[bad]).None?
    ensures CreateMaskedEmail(prefix, domain, Response(200, body, Some(Envelope(MethodResponse(name, SetArguments(created), tail), rest))))
      == Failure(SetResponseUnmarshalFailed)
  {
  }

  /** What the server answers to a request that creates records: each creation id echoed with the new address. */
  function ServerReply(req: FastmailMaskedEmailRequest, email: string): Json
    requires |req.methodCalls| >= 1
  {
    var call := req.methodCalls[0];
    Envelope(
      MethodResponse(String(call.name),
        SetArguments(map k | k in call.arguments.create :: Object(map["email" := String(email)])),
        [String(call.callId)]),
      [])
  }

  /**
   * Round trip: the server's answer to the request this client builds is
   * decoded to the prefix sent, the domain given and the address the server
   * created; an empty address is refused.
   */
  lemma CreateRoundTrip(id: Auth.FastmailIdentity, domain: string, prefix: string, email: string, body: string)
    ensures var req := BuildRequest(id, domain, prefix);
      var r := CreateMaskedEmail(prefix, domain, Response(200, body, Some(ServerReply(req, email))));
      && req.methodCalls[0].arguments.create[FastmaskRequestId].emailPrefix == prefix
      && req.methodCalls[0].arguments.create[FastmaskRequestId].forDomain == domain
      && r == if email == "" then Failure(EmailEmpty) else Success(FastmaskResponse(prefix, domain, email))
  {
  }

  /** One run of `CreateMaskedEmail`: the prefix generator panicked, or the request went out and the reply was decoded. */
  datatype Run = PrefixPanicked | Sent(request: HttpRequest, result: Result<FastmaskResponse, CreateError>)

  /** `CreateMaskedEmail` with its call to `GenPrefix`; the reply is the one the transport delivered. */
  method CreateMaskedEmailRun(id: Auth.FastmailIdentity, domain: string, token: SecureTokens.SecureToken,
                              entropy: Prefix.Entropy, reply: Reply) returns (run: Run)
    requires entropy.Random? ==> |entropy.bytes| == PrefixLen
    ensures entropy.EntropyFailed? <==> run.PrefixPanicked?
    ensures entropy.Random? ==>
      var prefix := Prefix.PrefixOf(entropy.bytes);
      run == Sent(CreateRequest(id, domain, prefix, token), CreateMaskedEmail(prefix, domain, reply))
    ensures run.Sent? && run.result.Success? ==> Prefix.IsPrefix(run.result.value.prefix)
  {
    var generated := Prefix.GenPrefix(entropy);
    if generated.Panicked? {
      return PrefixPanicked;
    }
    var prefix := generated.prefix;
    run := Sent(CreateRequest(id, domain, prefix, token), CreateMaskedEmail(prefix, domain, reply));
  }
}
