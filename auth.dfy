/** The session bootstrap of fastmask/auth.go (the JMAP Session resource, RFC 8620, section 2). */
module Auth {
  import opened Wrappers
  import opened Json
  import opened Consts
  import opened JsonApi
  import SecureTokens
  import opened Http

  datatype FastmailIdentity = FastmailIdentity(accountId: string, apiUrl: string)

  datatype AuthError =
    | Transport
    | Rejected(body: string)
    | UnmarshalFailed
    | MissingMaskedEmailCapability
    | AccountIdNotString(found: Json)

  /** The discovery request: `GET` on the well-known URL with the bearer headers. */
  function AuthRequest(token: SecureTokens.SecureToken): (req: HttpRequest)
    ensures req.verb == "GET" && req.url == AuthUrl && req.body.None?
    ensures req.headers == Headers(token)
  {
    HttpRequest("GET", AuthUrl, Headers(token), None)
  }

  /**
   * `Authenticate` after the request is sent: a non-200 status fails with the
   * body; the masked-email capability must be listed; the core account id must
   * be a string (an absent key reads as nil, which is not).
   */
  function Authenticate(reply: Reply): (r: Result<FastmailIdentity, AuthError>)
    ensures reply.NoResponse? ==> r == Failure(Transport)
    ensures reply.Response? && reply.status != 200 ==> r == Failure(Rejected(reply.body))
    ensures reply.Response? && reply.status == 200 && (reply.parsed.None? || DecodeAuthResponse(reply.parsed.value).None?)
      ==> r == Failure(UnmarshalFailed)
    ensures r.Success? ==>
      && reply.Response? && reply.status == 200 && reply.parsed.Some?
      && var session := DecodeAuthResponse(reply.parsed.value);
      && session.Some?
      && MaskedEmailCapability in session.value.capabilities
      && r.value.apiUrl == session.value.apiUrl
      && Lookup(session.value.primaryAccounts, PrimaryAccountKey) == String(r.value.accountId)
  {
    match reply
    case NoResponse => Failure(Transport)
    case Response(status, body, parsed) =>
      if status != 200 then Failure(Rejected(body))
      else if parsed.None? then Failure(UnmarshalFailed)
      else match DecodeAuthResponse(parsed.value)
        case None => Failure(UnmarshalFailed)
        case Some(session) =>
          if MaskedEmailCapability !in session.capabilities then Failure(MissingMaskedEmailCapability)
          else
            var accountId := Lookup(session.primaryAccounts, PrimaryAccountKey);
            if !accountId.String? then Failure(AccountIdNotString(accountId))
            else Success(FastmailIdentity(accountId.str, session.apiUrl))
  }

  /** A 200 reply whose body decodes as the given session. */
  ghost predicate SessionReply(reply: Reply, session: FastmailAuthResponse)
  {
    reply.Response? && reply.status == 200 && reply.parsed.Some? && DecodeAuthResponse(reply.parsed.value) == Some(session)
  }

  /** Without the capability the bootstrap fails, whatever the account ids are, and that error wins over a bad account id. */
  lemma MissingCapabilityWins(reply: Reply, session: FastmailAuthResponse)
    requires SessionReply(reply, session)
    requires MaskedEmailCapability !in session.capabilities
    ensures Authenticate(reply) == Failure(MissingMaskedEmailCapability)
  {
  }

  /** With the capability, the outcome is decided by the core account id alone. */
  lemma AccountIdDecides(reply: Reply, session: FastmailAuthResponse)
    requires SessionReply(reply, session)
    requires MaskedEmailCapability in session.capabilities
    ensures PrimaryAccountKey !in session.primaryAccounts ==> Authenticate(reply) == Failure(AccountIdNotString(Null))
    ensures PrimaryAccountKey in session.primaryAccounts && !session.primaryAccounts[PrimaryAccountKey].String? ==>
      Authenticate(reply) == Failure(AccountIdNotString(session.primaryAccounts[PrimaryAccountKey]))
    ensures PrimaryAccountKey in session.primaryAccounts && session.primaryAccounts[PrimaryAccountKey].String? ==>
      Authenticate(reply) == Success(FastmailIdentity(session.primaryAccounts[PrimaryAccountKey].str, session.apiUrl))
  {
  }

  /** The Session object a server sends for an account (extra capabilities and members allowed). */
  function SessionJson(apiUrl: string, accountId: Json, capabilities: map<string, Json>): Json
  {
    Object(map[
      "apiUrl" := String(apiUrl),
      "capabilities" := Object(capabilities),
      "primaryAccounts" := Object(map[PrimaryAccountKey := accountId]),
      "username" := String("")])
  }

  /** Round trip: a Session naming the capability and a string account id yields exactly that identity. */
  lemma SessionRoundTrip(apiUrl: string, accountId: string, capabilities: map<string, Json>, body: string)
    requires MaskedEmailCapability in capabilities
    ensures Authenticate(Response(200, body, Some(SessionJson(apiUrl, String(accountId), capabilities))))
      == Success(FastmailIdentity(accountId, apiUrl))
  {
  }

  /** An account id sent as a number is a type error. */
  lemma NumericAccountIdRejected(apiUrl: string, n: int, capabilities: map<string, Json>, body: string)
    requires MaskedEmailCapability in capabilities
    ensures Authenticate(Response(200, body, Some(SessionJson(apiUrl, Number(n), capabilities))))
      == Failure(AccountIdNotString(Number(n)))
  {
  }
}
