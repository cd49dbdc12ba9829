/**
 * The credential of fastmask/secure_token.go: a value whose default rendering
 * never shows the secret, and the guarded load of it from the config file.
 */
module SecureTokens {
  import opened Wrappers
  import opened Json
  import opened JsonApi
  import opened Perms

  /** `SecureToken{}`, the zero value, is `SecureToken("")`. */
  datatype SecureToken = SecureToken(token: string) {

    /** The rendering every formatting path uses (`%v` calls it through `fmt.Stringer`). */
    function String(): (r: string)
      ensures |token| == 0 <==> r == "<empty>"
      ensures 1 <= |token| <= 8 <==> r == "<redacted>"
      ensures 8 < |token| <==> |r| == 17
      ensures 8 < |token| ==> r[..4] == token[..4] && r[4..] == "...<redacted>"
    {
      if |token| == 0 then "<empty>"
      else if |token| <= 8 then "<redacted>"
      else token[..4] + "..." + "<redacted>"
    }

    /** The one explicit accessor for the raw secret. */
    function FullToken(): string
    {
      token
    }

    predicate Equals(s: string)
    {
      token == s
    }
  }

  function NewSecureToken(t: string): (st: SecureToken)
    ensures st.FullToken() == t
  {
    SecureToken(t)
  }

  /** `Equals` compares with the raw value, so it recognises exactly the string the token was made from. */
  lemma EqualsIffFullToken(t: string, s: string)
    ensures NewSecureToken(t).Equals(s) <==> s == NewSecureToken(t).FullToken()
    ensures NewSecureToken(t).Equals(s) <==> s == t
  {
  }

  /** Two tokens render alike exactly when they agree on the length class and, when long, on the first 4 bytes. */
  ghost predicate SameShape(a: string, b: string)
  {
    && (|a| == 0 <==> |b| == 0)
    && (|a| <= 8 <==> |b| <= 8)
    && (8 < |a| && 8 < |b| ==> a[..4] == b[..4])
  }

  /** So bytes from index 4 on never influence `String()`. */
  lemma StringDependsOnlyOnShape(a: string, b: string)
    ensures SecureToken(a).String() == SecureToken(b).String() <==> SameShape(a, b)
  {
  }

  /** The rendering shows the raw value only when the value is itself shaped like a rendering. */
  lemma StringRevealsOnlyItsOwnShape(t: string)
    ensures SecureToken(t).String() == t <==> |t| == 17 && t[4..] == "...<redacted>"
  {
  }

  /** The renderings pinned by fastmask/secure_token_test.go: the empty and the short token. */
  lemma PinnedShortRenderings()
    ensures SecureToken("").String() == "<empty>"
    ensures NewSecureToken("abc").String() == "<redacted>"
  {
  }

  /** The long tokens of fastmask/secure_token_test.go: four bytes shown, the rest hidden. */
  lemma PinnedNormalRendering()
    ensures NewSecureToken("supersecrettoken123").String() == "supe...<redacted>"
  {
    assert "supersecrettoken123"[..4] == "supe";
  }

  lemma PinnedApiTokenRendering()
    ensures NewSecureToken("fmu1-abcd1234efgh5678ijkl9012mnop").String() == "fmu1...<redacted>"
  {
    assert "fmu1-abcd1234efgh5678ijkl9012mnop"[..4] == "fmu1";
  }

  /** The explicit-conversion test: redacted rendering, raw accessor unchanged. */
  lemma PinnedExplicitConversion()
    ensures NewSecureToken("fmu1-supersecretapitoken123456789").String() == "fmu1...<redacted>"
    ensures NewSecureToken("fmu1-supersecretapitoken123456789").FullToken() == "fmu1-supersecretapitoken123456789"
  {
    assert "fmu1-supersecretapitoken123456789"[..4] == "fmu1";
  }

  /** What `os.ReadFile` gives: an error, or contents given here already parsed (None: malformed JSON). */
  datatype FileRead = ReadFailed | Read(parsed: Option<Json>)

  datatype LoadError =
    | DirectoryPermissions(dirError: PermError)
    | FilePermissions(fileError: PermError)
    | ReadFileFailed
    | UnmarshalFailed
    | TokenEmpty

  /**
   * `LoadToken`: check the config directory, then the config file, then read and
   * decode it, then reject an empty token. `goos` is the platform; the two stat
   * results and the file read stand for the file system.
   */
  function LoadToken(goos: string, dirStat: StatResult, fileStat: StatResult, file: FileRead): (r: Result<SecureToken, LoadError>)
    ensures r.Success? ==> r.value.FullToken() != ""
    ensures CheckDirectoryPermissions(goos, dirStat) == Pass && CheckFilePermissions(goos, fileStat) == Pass ==>
      && (file.ReadFailed? ==> r == Failure(ReadFileFailed))
      && (file.Read? && (file.parsed.None? || DecodeConfig(file.parsed.value).None?) ==> r == Failure(UnmarshalFailed))
      && (file.Read? && file.parsed.Some? && DecodeConfig(file.parsed.value) == Some(Config("")) ==> r == Failure(TokenEmpty))
    ensures r.Success? ==> CheckDirectoryPermissions(goos, dirStat) == Pass && CheckFilePermissions(goos, fileStat) == Pass
    ensures r.Success? ==> file.Read? && file.parsed.Some? && DecodeConfig(file.parsed.value) == Some(Config(r.value.FullToken()))
    ensures CheckDirectoryPermissions(goos, dirStat) == Pass && CheckFilePermissions(goos, fileStat) == Pass &&
            file.Read? && file.parsed.Some? && DecodeConfig(file.parsed.value).Some? ==>
              (r.Success? <==> DecodeConfig(file.parsed.value).value.token != "")
  {
    match CheckDirectoryPermissions(goos, dirStat)
    case Fail(e) => Failure(DirectoryPermissions(e))
    case Pass =>
      match CheckFilePermissions(goos, fileStat)
      case Fail(e) => Failure(FilePermissions(e))
      case Pass =>
        match file
        case ReadFailed => Failure(ReadFileFailed)
        case Read(parsed) =>
          if parsed.None? then Failure(UnmarshalFailed)
          else match DecodeConfig(parsed.value)
            case None => Failure(UnmarshalFailed)
            case Some(config) =>
              if config.token == "" then Failure(TokenEmpty)
              else Success(NewSecureToken(config.token))
  }

  /** A failed directory check decides the outcome before the file is examined or read. */
  lemma DirectoryCheckFirst(goos: string, dirStat: StatResult, fileStat: StatResult, file: FileRead)
    requires CheckDirectoryPermissions(goos, dirStat).Fail?
    ensures LoadToken(goos, dirStat, fileStat, file) == Failure(DirectoryPermissions(CheckDirectoryPermissions(goos, dirStat).error))
  {
  }

  /** A failed file check decides the outcome before the file is read. */
  lemma FileCheckBeforeRead(goos: string, dirStat: StatResult, fileStat: StatResult, file: FileRead)
    requires CheckDirectoryPermissions(goos, dirStat) == Pass
    requires CheckFilePermissions(goos, fileStat).Fail?
    ensures LoadToken(goos, dirStat, fileStat, file) == Failure(FilePermissions(CheckFilePermissions(goos, fileStat).error))
  {
  }

  /** A well-guarded config file `{"token": t}` loads as t exactly when t is non-empty. */
  lemma LoadsConfigToken(goos: string, dirStat: StatResult, fileStat: StatResult, t: string)
    requires CheckDirectoryPermissions(goos, dirStat) == Pass && CheckFilePermissions(goos, fileStat) == Pass
    ensures t != "" ==> LoadToken(goos, dirStat, fileStat, Read(Some(Object(map["token" := String(t)])))) == Success(NewSecureToken(t))
    ensures t == "" ==> LoadToken(goos, dirStat, fileStat, Read(Some(Object(map["token" := String(t)])))) == Failure(TokenEmpty)
  {
  }
}
