# fastmask, modelled in Dafny

fastmask is a command-line client for Fastmail's masked-email service, which is built on JMAP (RFC 8620). It
loads a bearer token from a config file. The token is stored as a type whose default rendering hides the
secret, and the file is read only after its directory and the file pass a permission guard. The client then
fetches the JMAP Session resource (RFC 8620, section 2; the well-known URL is section 2.2). It requires the
masked-email capability and takes the core account id and the API URL from it. Finally it sends one
`MaskedEmail/set` call, built from a random five-letter prefix and the requested domain, and decodes the
created address from the heterogeneous response envelope (RFC 8620, sections 3.2–3.4 and 5.3).

The model has one module per source file:

- `Consts` (fastmask/const.go): the constants. File modes are `bv32`, and octal values are written in hex.
- `Json`: an abstract JSON value, plus how encoding/json/v2 binds one to a Go string, slice or `map[string]any`.
- `JsonApi` (fastmask/json_api.go): the record types, the `json.Unmarshal` into each of them, and the
  `json.Marshal` of the request.
- `Perms` (fastmask/perms.go): the platform query and the two permission checks. The stat result is an input.
- `SecureTokens` (fastmask/secure_token.go): the token type and `LoadToken`.
- `Prefix` (cli/prefix.go): the in-place loop over a byte array. The random bytes are an input.
- `Http`: the request and reply shapes, and the bearer headers (fastmask/auth.go:16-17, fastmask/fastmail.go:47-48).
- `Auth` (fastmask/auth.go): the session bootstrap decision.
- `Fastmail` (fastmask/fastmail.go): the request envelope and the two-phase response decode.
- `Legacy` (fastmask/main.go): the older single-file revision, kept separate. It has its own loader, its own
  `auth` and its own decode chain over `[][]any`. Lemmas compare it with the newer revision.

How JSON binding is modelled, following encoding/json/v2:

- A JSON null and an absent member both give the Go zero value.
- Unknown members are ignored, and member names match exactly.
- A value decoded into `any` is kept as it is, with null standing for nil.
- A map of records decodes only if every one of its values decodes.

Where the source's revisions disagree with each other:

- fastmask/secure_token.go:41,47 calls `checkDirectoryPermissions` and `checkFilePermissions` in lower case.
  fastmask/perms.go:22,38 defines them capitalised. `SecureTokens.LoadToken` uses the capitalised checks.
- fastmask/fastmail.go:19 and fastmask/main.go:151 call a `GenPrefix` of the fastmask package, which cli/prefix.go
  (a separate `package main`) does not provide; that definition is not part of this model. The model takes
  cli/prefix.go's `GenPrefix` for it and assumes the two are the same; fastmask/const.go:19 declares the same
  `_prefixLen`.
- The record types in fastmask/main.go:25-77 duplicate those in fastmask/json_api.go and fastmask/fastmail.go:13-16.
  Where they are identical the model shares them. The response envelope differs, so `Legacy` has its own.
- The request that fastmask/main.go:152-169 builds from literals equals the one `Fastmail.BuildRequest` builds
  from the constants, so one function models both.

## Model

| member | source | states |
|---|---|---|
| `Perms.ShouldCheckExactlyOnPosix` | fastmask/perms.go:9-20 | permissions are checked exactly on linux, darwin, freebsd, openbsd, netbsd and unix |
| `Perms.CheckDirectoryPermissions` | fastmask/perms.go:22-36 | a failed stat fails on every platform; otherwise the directory passes iff checking is off or its permission bits are exactly 0700; a rejection reports the observed bits |
| `Perms.CheckFilePermissions` | fastmask/perms.go:38-52 | a failed stat fails on every platform; otherwise the file passes iff checking is off or its permission bits are 0600 or 0400; a rejection reports the observed bits |
| `Perms.UncheckedPlatformAcceptsAnyMode` | fastmask/perms.go:23-28 | on an unlisted platform every mode passes once stat succeeds, and a failed stat still fails |
| `Perms.TypeBitsIgnored` | fastmask/perms.go:28-49 | only `Mode().Perm()` is compared: adding bits outside 0o777 (ModeDir, setuid, ...) never changes either verdict |
| `Perms.PinnedModes` | fastmask/const.go:8-10 | on linux: directory 0750 is rejected, 0700 and ModeDir plus 0700 are accepted; file 0644 is rejected, 0600 and 0400 are accepted; on windows 0777 passes |
| `SecureTokens.SecureToken.String` | fastmask/secure_token.go:21-29 | the rendering is `<empty>` iff the token is empty, `<redacted>` iff its length is 1..8, and 17 characters iff it is longer, in which case it is the first 4 bytes + `...<redacted>` |
| `SecureTokens.NewSecureToken` | fastmask/secure_token.go:15-19 | `FullToken()` of a new token returns exactly the string it was made from |
| `SecureTokens.EqualsIffFullToken` | fastmask/secure_token.go:35-37 | `Equals(s)` holds iff s is the raw value, i.e. the string the token was made from |
| `SecureTokens.StringDependsOnlyOnShape` | fastmask/secure_token.go:21-29 | two tokens render alike iff they share the length class (0, 1..8, >8) and, when long, their first 4 bytes; bytes from index 4 on never matter |
| `SecureTokens.StringRevealsOnlyItsOwnShape` | fastmask/secure_token.go:21-29 | the rendering equals the raw token only for a 17-byte token ending in `...<redacted>` |
| `SecureTokens.PinnedShortRenderings` | fastmask/secure_token_test.go:16-25 | the zero token renders `<empty>`, "abc" renders `<redacted>` |
| `SecureTokens.PinnedNormalRendering` | fastmask/secure_token_test.go:26-31 | "supersecrettoken123" renders `supe...<redacted>` |
| `SecureTokens.PinnedApiTokenRendering` | fastmask/secure_token_test.go:32-37 | the API-style token renders `fmu1...<redacted>` |
| `SecureTokens.PinnedExplicitConversion` | fastmask/secure_token_test.go:59-79 | the rendering is redacted while `FullToken()` returns the original unchanged |
| `SecureTokens.LoadToken` | fastmask/secure_token.go:39-65 | success needs both permission checks passed and a config whose token is the loaded one, and is never an empty token; once both checks pass, a failed read fails as a read error, an unparsable or undecodable file as an unmarshal error, an empty token as TokenEmpty, and any other token succeeds |
| `SecureTokens.DirectoryCheckFirst` | fastmask/secure_token.go:40-44 | a failed directory check is the result, whatever the file's stat and contents |
| `SecureTokens.FileCheckBeforeRead` | fastmask/secure_token.go:46-50 | after a passed directory check, a failed file check is the result, whatever the file's contents |
| `SecureTokens.LoadsConfigToken` | fastmask/secure_token.go:56-64 | a guarded `{"token": t}` loads as t when t is non-empty and fails with the empty-token error when it is empty |
| `JsonApi.DecodeConfig` | fastmask/json_api.go:5-7 | decodes iff the value is null or an object whose `token` member is a string, null or absent; the token is that string, and empty for null or absent; anything else fails |
| `JsonApi.DecodeAuthResponse` | fastmask/json_api.go:9-13 | decodes iff the value is null or an object whose `apiUrl` binds as a string and whose `capabilities` and `primaryAccounts` bind as maps; the fields are those bindings, and null gives the empty record |
| `JsonApi.DecodeMaskedEmailResponse` | fastmask/json_api.go:31-33 | decodes iff the value is null or an object whose `methodResponses` is an array, null or absent; the responses are that array's elements kept raw, and empty for null or absent |
| `JsonApi.DecodeSetResponseDetail` | fastmask/json_api.go:35-37 | decodes iff the value is null or an object whose `email` member is a string, null or absent; the email is that string, and empty for null or absent; anything else fails |
| `JsonApi.DecodeCreated` | fastmask/json_api.go:39-41 | the created map decodes iff every entry decodes, keeping its keys and each entry's decoded record |
| `JsonApi.DecodeSetResponse` | fastmask/json_api.go:39-41 | decodes iff the value is null or an object whose `created` is null, absent, or an object whose every entry decodes; `created` is the entry-by-entry decoding, and empty for null or absent |
| `Prefix.LexiconSpellsConsonants` | cli/prefix.go:10-11 | the lexicon has 20 bytes, spelling `bcdfghjkmnpqrstvwxyz` |
| `Prefix.LexiconDistinct` | cli/prefix.go:10-11 | the 20 lexemes are pairwise distinct |
| `Prefix.Lexeme` | cli/prefix.go:24-25 | the index `b % 20` lies in [0, 20) and the lexeme is a lexicon byte |
| `Prefix.ToLexemes` | cli/prefix.go:23-27 | the loop leaves the buffer equal to the lexeme of each original byte, in place (invariant: positions before i are lexemes, those after still hold the random bytes) |
| `Prefix.GenPrefix` | cli/prefix.go:14-29 | an entropy failure panics and yields no prefix; otherwise the prefix is the lexemes of the random bytes as text, 5 characters of the lexicon |
| `Prefix.PrefixWellFormed` | cli/prefix.go:23-28 | every prefix has length 5, and character i is `lexicon[random[i] % 20]` |
| `Prefix.PrefixDeterminedByResidues` | cli/prefix.go:24-26 | two draws give the same prefix iff they agree modulo 20 byte by byte |
| `Prefix.EveryPrefixReachable` | cli/prefix.go:10-28 | every 5-letter word over the lexicon is the prefix of some draw |
| `Http.Headers` | fastmask/auth.go:16-17 | exactly two headers: JSON content type, and `Authorization: Bearer ` + `FullToken()` |
| `Http.HeaderCarriesRawSecret` | fastmask/auth.go:17 | the header after `Bearer ` is the raw secret, and it equals the redacted form only for secrets shaped like a rendering |
| `Auth.AuthRequest` | fastmask/auth.go:12-17 | the bootstrap is a body-less GET of the well-known JMAP URL whose headers are exactly the JSON content type and the raw bearer token |
| `Auth.Authenticate` | fastmask/auth.go:36-60 | no response fails; a non-200 status fails with the body as the error; a 200 body that does not parse or decode fails as an unmarshal error; success needs a decodable session listing the masked-email capability, and returns its `apiUrl` and the string under the core account key |
| `Auth.MissingCapabilityWins` | fastmask/auth.go:45-55 | without the masked-email capability the result is the capability error, whatever the account ids are |
| `Auth.AccountIdDecides` | fastmask/auth.go:50-60 | with the capability, an absent account id fails as nil, a non-string one fails naming its value, a string one succeeds with that id and the session's `apiUrl` |
| `Auth.SessionRoundTrip` | fastmask/auth.go:40-60 | a 200 Session naming the capability and a string account id yields exactly that identity |
| `Auth.NumericAccountIdRejected` | fastmask/auth.go:52-55 | a numeric account id is a type error |
| `Fastmail.CreateRequest` | fastmask/fastmail.go:38-48 | the alias request is a POST to the session's API URL with the bearer headers and the marshalled envelope as body |
| `Fastmail.RequestEnvelope` | fastmask/fastmail.go:20-37 | the envelope is `using = [core, maskedemail]` and the single call `["MaskedEmail/set", {accountId, create: {"fastmask": {forDomain, state: "enabled", emailPrefix}}}, "0"]` |
| `Fastmail.CreateMaskedEmail` | fastmask/fastmail.go:64-110 | non-200 fails naming status and body; success returns the given prefix and domain with a non-empty email that is `created["fastmask"].email` of element 1 of the first method response |
| `Fastmail.OnlyFirstArgumentsInspected` | fastmask/fastmail.go:79-95 | the outcome depends only on element 1 of the first method response: not on its method name or call id, nor on later responses or the body text |
| `Fastmail.EnvelopeFailures` | fastmask/fastmail.go:69-88 | an unparsable body, or one whose `methodResponses` is neither an array nor null, fails as a response unmarshal error; empty or absent `methodResponses` fails as empty; a first response of length 0 or 1 fails with its length; a first response that is neither an array nor null fails to decode; null counts as length 0 |
| `Fastmail.CreatedEntryDecides` | fastmask/fastmail.go:97-110 | with a well-formed `created`, a missing "fastmask" entry fails, an empty email fails, otherwise the alias carries that email |
| `Fastmail.MalformedSiblingRejected` | fastmask/fastmail.go:90-95 | any malformed entry of `created`, under any key, fails the set-response decode whatever the method name, call id, other entries and later responses |
| `Fastmail.CreateRoundTrip` | fastmask/fastmail.go:19-110 | the server's answer to the request built here decodes to the prefix and domain sent and the address created; an empty address is refused |
| `Fastmail.CreateMaskedEmailRun` | fastmask/fastmail.go:18-49 | an entropy failure panics before anything is sent; otherwise the request carries the generated prefix, and a success returns a well-formed prefix |
| `Legacy.LoadToken` | fastmask/main.go:79-92 | a failed read fails as a read error, an unparsable or undecodable file as an unmarshal error; otherwise it succeeds with the config's token, empty or not |
| `Legacy.EmptyTokenAccepted` | fastmask/main.go:86-91 | an empty token is returned by this revision and refused by the newer one |
| `Legacy.BearerHeaders` | fastmask/main.go:102-103 | the raw-string headers equal the newer revision's headers for the same token |
| `Legacy.Authenticate` | fastmask/main.go:123-147 | the decision agrees with the newer revision's `Authenticate` on every reply |
| `Legacy.DecodeMethodResponses` | fastmask/main.go:69-71 | decodes iff the value is null or an object whose `methodResponses` is an array, null or absent and every element is an array or null; element i is the i-th response as a slice, and there are none for null or absent |
| `Legacy.CreateMaskedEmail` | fastmask/main.go:205-263 | non-200 fails naming status and body; it succeeds iff the first of at least one responses has length ≥ 2 and element 1 is a map whose `created` map holds a "fastmask" map whose `email` is a string, which is returned, possibly empty |
| `Legacy.AcceptsEmptyEmail` | fastmask/main.go:249-263 | a created record with email "" is a success here and a failure in fastmask/fastmail.go |
| `Legacy.LegacySuccessAgrees` | fastmask/main.go:214-263 | where this revision succeeds, the newer one fails with SetResponseUnmarshalFailed exactly when some `created` entry is malformed, fails with EmailEmpty when the email is empty, and otherwise returns the same alias |
| `Legacy.FastmailSuccessAgrees` | fastmask/main.go:205-222 | where the newer revision succeeds, this one returns the same alias when every method response is an array or null, and fails with ResponseUnmarshalFailed otherwise |

## Findings

| source | as written | input that shows it | evidently intended | confidence | as-written member | corrected member |
|---|---|---|---|---|---|---|
| fastmask/main.go:254-263 | an `email` that is the empty string is returned as a created alias | `{"methodResponses": [["MaskedEmail/set", {"created": {"fastmask": {"email": ""}}}, "0"]]}` with status 200 | an empty address is a failure, as fastmask/fastmail.go:102-104 later made it | not executed; high: the newer revision adds exactly this check | `Legacy.AcceptsEmptyEmail` | `Fastmail.CreateMaskedEmail` |

## Left out

- HTTP transport is not modelled: `http.NewRequest`, `client.Do`, `io.ReadAll`, the 5-second timeouts and
  the `Body.Close` fatal errors. A reply is an input, and any failure before a status arrives is one `NoResponse`.
- Authenticate and CreateMaskedEmail return `(nil, nil)` when the response is nil and the error is nil. net/http
  never produces that case, so it is not modelled.
- Byte-level JSON parsing and marshalling are not modelled; a parse failure is an input. JSON numbers are
  integers, so floating point is out. Duplicate member names, which json/v2 rejects, cannot be expressed in
  the model.
- Fastmail.CreateMaskedEmailRun: always builds and sends the request. encoding/json/v2's `json.Marshal` fails on a
  string that is not valid UTF-8, such as a malformed domain argument, and fastmask/fastmail.go:38-41 and
  fastmask/main.go:170-173 then return a marshal error and send nothing. Strings here are characters, not
  bytes, so that error path is not modelled.
- `jsontext.Value.Indent` and the printing of the result are not modelled.
- Error messages are constructors. The exact `fmt.Errorf` text, the `%w` wrapping, and `%T`, `%04o` and `%v`
  formatting are not modelled. The checked path is not carried in permission errors.
- `os.Stat`, `os.ReadFile` and the `xdg.ConfigHome` path construction are not modelled. They become a stat
  result per path and a file read result.
- The `crypto/rand` entropy source is an input. The test that two prefixes differ (cli/prefix_test.go:11-13)
  is probabilistic, so it is not modelled.
- cli/main.go, `main` and `usage` of fastmask/main.go, and fastmask/logging.go are not modelled. They are
  argument, exit and logging plumbing.
- Strings are sequences of characters, each standing for one byte. Go's `len` counts bytes, and
  `token[:4]` slices bytes, which can split a multi-byte UTF-8 character. That split is not modelled.
