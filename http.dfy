/**
 * What the client sends and receives over HTTP. The transport is not modelled:
 * a reply is an input, and the request is the value that would be sent.
 */
module Http {
  import opened Wrappers
  import opened Json
  import opened Consts
  import opened SecureTokens

  datatype HttpRequest = HttpRequest(verb: string, url: string, headers: map<string, string>, body: Option<Json>)

  /**
   * An exchange: no response (building the request, sending it or reading the
   * body failed; Go returns that error unchanged), or a status, the body as
   * text, and the body parsed as JSON (None when it does not parse).
   */
  datatype Reply = NoResponse | Response(status: int, body: string, parsed: Option<Json>)

  /** The headers both calls set: JSON content, and the bearer credential taken from `FullToken()`. */
  function Headers(token: SecureToken): (h: map<string, string>)
    ensures h.Keys == {ContentTypeHeader, AuthHeader}
    ensures h[ContentTypeHeader] == JsonContentType
    ensures h[AuthHeader] == "Bearer " + token.FullToken()
  {
    map[ContentTypeHeader := JsonContentType, AuthHeader := "Bearer " + token.FullToken()]
  }

  /**
   * The authorization header carries the raw secret, which the redacted
   * rendering would carry only for a secret shaped like a rendering.
   */
  lemma HeaderCarriesRawSecret(t: string)
    ensures Headers(NewSecureToken(t))[AuthHeader][7..] == t
    ensures Headers(NewSecureToken(t))[AuthHeader] == "Bearer " + NewSecureToken(t).String() <==>
      |t| == 17 && t[4..] == "...<redacted>"
  {
  }
}
