/**
 * The older, single-file revision in fastmask/main.go: `loadToken` without
 * permission checks or empty-token rejection, `auth`, and `createMaskedEmail`
 * with its hand-rolled type assertions over `[][]any`. Its record types that
 * are identical to the newer revision's (Config, FastmailIdentity,
 * FastmailAuthResponse, the request records, FastmaskResponse) are shared;
 * the response envelope, which differs, is its own.
 */
module Legacy {
  import opened Wrappers
  import opened Json
  import opened JsonApi
  import opened Http
  import SecureTokens
  import Perms
  import Auth
  import Fastmail

  const MaskedEmailUrl: string := "https://www.fastmail.com/dev/maskedemail"
  const PrimaryAccountKey: string := "urn:ietf:params:jmap:core"

  datatype LoadError = ReadFileFailed | UnmarshalFailed

  /** `loadToken`: read and decode the config file; an empty token is returned as it is. */
  function LoadToken(file: SecureTokens.FileRead): (r: Result<string, LoadError>)
    ensures file.ReadFailed? ==> r == Failure(ReadFileFailed)
    ensures file.Read? && (file.parsed.None? || DecodeConfig(file.parsed.value).None?) ==> r == Failure(UnmarshalFailed)
    ensures r.Success? <==> file.Read? && file.parsed.Some? && DecodeConfig(file.parsed.value).Some?
    ensures r.Success? ==> DecodeConfig(file.parsed.value) == Some(Config(r.value))
  {
    match file
    case ReadFailed => Failure(ReadFileFailed)
    case Read(parsed) =>
      if parsed.None? then Failure(UnmarshalFailed)
      else match DecodeConfig(parsed.value)
        case None => Failure(UnmarshalFailed)
        case Some(config) => Success(config.token)
  }

  /**
   * The revisions differ on an empty token: this one returns it, the newer one
   * refuses it once the permission checks pass.
   */
  lemma EmptyTokenAccepted(goos: string, dirStat: Perms.StatResult, fileStat: Perms.StatResult)
    requires Perms.CheckDirectoryPermissions(goos, dirStat) == Pass && Perms.CheckFilePermissions(goos, fileStat) == Pass
    ensures LoadToken(SecureTokens.Read(Some(Object(map["token" := String("")])))) == Success("")
    ensures SecureTokens.LoadToken(goos, dirStat, fileStat, SecureTokens.Read(Some(Object(map["token" := String("")]))))
      == Failure(SecureTokens.TokenEmpty)
  {
  }

  /** The headers `auth` and `createMaskedEmail` set from the raw token string. */
  function BearerHeaders(token: string): (h: map<string, string>)
    ensures h == Headers(SecureTokens.NewSecureToken(token))
  {
    map["Content-Type" := "application/json", "Authorization" := "Bearer " + token]
  }

  /** `auth` after the request is sent. */
  function Authenticate(reply: Reply): (r: Result<Auth.FastmailIdentity, Auth.AuthError>)
    ensures r == Auth.Authenticate(reply)
  {
    match reply
    case NoResponse => Failure(Auth.Transport)
    case Response(status, body, parsed) =>
      if status != 200 then Failure(Auth.Rejected(body))
      else if parsed.None? then Failure(Auth.UnmarshalFailed)
      else match DecodeAuthResponse(parsed.value)
        case None => Failure(Auth.UnmarshalFailed)
        case Some(session) =>
          if MaskedEmailUrl !in session.capabilities then Failure(Auth.MissingMaskedEmailCapability)
          else
            var accountId := Lookup(session.primaryAccounts, PrimaryAccountKey);
            if !accountId.String? then Failure(Auth.AccountIdNotString(accountId))
            else Success(Auth.FastmailIdentity(accountId.str, session.apiUrl))
  }

  /** `FastmailMaskedEmailResponse` of this revision: `[][]any`, so EVERY method response must be an array. */
  function DecodeMethodResponses(j: Json): (r: Option<seq<seq<Json>>>)
    ensures r.Some? <==>
      || j.Null?
      || (&& j.Object?
          && AsGoSlice(Lookup(j.members, "methodResponses")).Some?
          && var xs := AsGoSlice(Lookup(j.members, "methodResponses")).value;
             forall i | 0 <= i < |xs| :: xs[i].Array? || xs[i].Null?)
    ensures j.Null? ==> r == Some([])
    ensures r.Some? && j.Object? ==>
      && AsGoSlice(Lookup(j.members, "methodResponses")).Some?
      && var xs := AsGoSlice(Lookup(j.members, "methodResponses")).value;
         |r.value| == |xs| && forall i | 0 <= i < |xs| :: Some(r.value[i]) == AsGoSlice(xs[i])
  {
    match j
    case Null => Some([])
    case Object(m) =>
      (match AsGoSlice(Lookup(m, "methodResponses"))
       case Some(xs) =>
         if forall i | 0 <= i < |xs| :: AsGoSlice(xs[i]).Some? then
           Some(seq(|xs|, i requires 0 <= i < |xs| => AsGoSlice(xs[i]).value))
         else None
       case None => None)
    case _ => None
  }

  datatype CreateError =
    | Transport
    | BadStatus(status: int, body: string)
    | ResponseUnmarshalFailed
    | InvalidResponsesLength(responses: nat)
    | InvalidResponseLength(length: nat)
    | ResponseNotMap(response: Json)
    | CreatedKeyMissing
    | CreatedNotMap(created: Json)
    | NoFastmaskInPayload
    | FastmaskNotMap(fastmask: Json)
    | NoEmailInPayload
    | EmailNotString(email: Json)

  /**
   * `createMaskedEmail` once the request (the same envelope as the newer
   * revision's) is sent: a type assertion or key check at each level. A decoded
   * `any` holding nil is not a map or a string, so null fails each assertion.
   */
  function CreateMaskedEmail(prefix: string, domain: string, reply: Reply): (r: Result<FastmaskResponse, CreateError>)
    ensures reply.NoResponse? ==> r == Failure(Transport)
    ensures reply.Response? && reply.status != 200 ==> r == Failure(BadStatus(reply.status, reply.body))
    ensures r.Success? ==> r.value.prefix == prefix && r.value.domain == domain
    ensures r.Success? ==>
      && reply.Response? && reply.status == 200 && reply.parsed.Some?
      && var responses := DecodeMethodResponses(reply.parsed.value);
      && responses.Some? && |responses.value| >= 1 && |responses.value[0]| >= 2
      && responses.value[0][1].Object? && "created" in responses.value[0][1].members
      && var created := responses.value[0][1].members["created"];
      && created.Object? && "fastmask" in created.members
      && created.members["fastmask"].Object? && "email" in created.members["fastmask"].members
      && created.members["fastmask"].members["email"] == String(r.value.email)
    ensures reply.Response? && reply.status == 200 && reply.parsed.Some? ==>
      var responses := DecodeMethodResponses(reply.parsed.value);
      responses.Some? && |responses.value| >= 1 && |responses.value[0]| >= 2
      && responses.value[0][1].Object? && "created" in responses.value[0][1].members ==>
      var created := responses.value[0][1].members["created"];
      created.Object? && "fastmask" in created.members
      && created.members["fastmask"].Object? && "email" in created.members["fastmask"].members
      && created.members["fastmask"].members["email"].String? ==>
      r == Success(FastmaskResponse(prefix, domain, created.members["fastmask"].members["email"].str))
  {
    match reply
    case NoResponse => Failure(Transport)
    case Response(status, body, parsed) =>
      if status != 200 then Failure(BadStatus(status, body))
      else if parsed.None? then Failure(ResponseUnmarshalFailed)
      else match DecodeMethodResponses(parsed.value)
        case None => Failure(ResponseUnmarshalFailed)
        case Some(responses) =>
          if |responses| < 1 then Failure(InvalidResponsesLength(|responses|))
          else
            var response := responses[0];
            if |response| < 2 then Failure(InvalidResponseLength(|response|))
            else if !response[1].Object? then Failure(ResponseNotMap(response[1]))
            else
              var responseMap := response[1].members;
              if "created" !in responseMap then Failure(CreatedKeyMissing)
              else if !responseMap["created"].Object? then Failure(CreatedNotMap(responseMap["created"]))
              else
                var created := responseMap["created"].members;
                if "fastmask" !in created then Failure(NoFastmaskInPayload)
                else if !created["fastmask"].Object? then Failure(FastmaskNotMap(created["fastmask"]))
                else
                  var fastmaskMap := created["fastmask"].members;
                  if "email" !in fastmaskMap then Failure(NoEmailInPayload)
                  else if !fastmaskMap["email"].String? then Failure(EmailNotString(fastmaskMap["email"]))
                  else Success(FastmaskResponse(prefix, domain, fastmaskMap["email"].str))
  }

  /** The reply that tells the two revisions apart: a created record whose email is "". */
  function EmptyEmailReply(): Json
  {
    Fastmail.Envelope(
      Fastmail.MethodResponse(String("MaskedEmail/set"),
        Fastmail.SetArguments(map["fastmask" := Object(map["email" := String("")])]), [String("0")]),
      [])
  }

  /** This revision returns an empty address as a success; the newer one refuses it. */
  lemma AcceptsEmptyEmail(prefix: string, domain: string, body: string)
    ensures CreateMaskedEmail(prefix, domain, Response(200, body, Some(EmptyEmailReply())))
      == Success(FastmaskResponse(prefix, domain, ""))
    ensures Fastmail.CreateMaskedEmail(prefix, domain, Response(200, body, Some(EmptyEmailReply())))
      == Failure(Fastmail.EmailEmpty)
  {
  }

  /**
   * Where this revision succeeds, the newer one returns the same alias unless
   * another entry of `created` is malformed (it decodes the whole map) or the
   * address is empty (it refuses that).
   */
  lemma LegacySuccessAgrees(prefix: string, domain: string, reply: Reply)
    requires CreateMaskedEmail(prefix, domain, reply).Success?
    ensures reply.Response? && reply.parsed.Some? && DecodeMethodResponses(reply.parsed.value).Some?
    ensures var r := CreateMaskedEmail(prefix, domain, reply).value;
      var created := DecodeMethodResponses(reply.parsed.value).value[0][1].members["created"].members;
      var s := Fastmail.CreateMaskedEmail(prefix, domain, reply);
      && (DecodeCreated(created).None? ==> s == Failure(Fastmail.SetResponseUnmarshalFailed))
      && (DecodeCreated(created).Some? && r.email != "" ==> s == Success(r))
      && (DecodeCreated(created).Some? && r.email == "" ==> s == Failure(Fastmail.EmailEmpty))
  {
  }

  /**
   * Where the newer revision succeeds, this one returns the same alias unless
   * some method response is not an array (this revision decodes them all).
   */
  lemma FastmailSuccessAgrees(prefix: string, domain: string, reply: Reply)
    requires Fastmail.CreateMaskedEmail(prefix, domain, reply).Success?
    ensures reply.Response? && reply.parsed.Some?
    ensures DecodeMethodResponses(reply.parsed.value).Some? ==>
      CreateMaskedEmail(prefix, domain, reply) == Success(Fastmail.CreateMaskedEmail(prefix, domain, reply).value)
    ensures DecodeMethodResponses(reply.parsed.value).None? ==>
      CreateMaskedEmail(prefix, domain, reply) == Failure(ResponseUnmarshalFailed)
  {
  }
}
