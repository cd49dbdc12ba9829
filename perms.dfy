/**
 * The permission guard of fastmask/perms.go. `os.Stat` is an input (a mode, or
 * a failure) and `runtime.GOOS` is the platform name `goos`.
 */
module Perms {
  import opened Wrappers
  import opened Consts

  datatype StatResult = StatFailed | Stat(mode: FileMode)

  datatype PermError =
    | CannotAccessDirectory
    | InsecureDirectory(dirMode: FileMode)
    | CannotAccessFile
    | InsecureFile(fileMode: FileMode)

  /** `FileMode.Perm()`: the nine Unix permission bits. */
  function Perm(m: FileMode): (p: FileMode)
    ensures p <= 0x1FF
    ensures p & 0x1FF == m & 0x1FF
  {
    m & 0x1FF
  }

  /** The platforms whose file systems carry POSIX mode bits. */
  const SupportsFSPerms: map<string, bool> := map[
    "linux" := true,
    "darwin" := true,
    "freebsd" := true,
    "openbsd" := true,
    "netbsd" := true,
    "unix" := true
  ]

  /** A lookup in the map literal; a missing key reads as false. */
  predicate ShouldCheckPermissions(goos: string)
  {
    goos in SupportsFSPerms && SupportsFSPerms[goos]
  }

  lemma ShouldCheckExactlyOnPosix(goos: string)
    ensures ShouldCheckPermissions(goos) <==>
      goos in {"linux", "darwin", "freebsd", "openbsd", "netbsd", "unix"}
  {
  }

  function CheckDirectoryPermissions(goos: string, stat: StatResult): (r: Outcome<PermError>)
    ensures stat.StatFailed? ==> r == Fail(CannotAccessDirectory)
    ensures r.Pass? <==> stat.Stat? && (ShouldCheckPermissions(goos) ==> Perm(stat.mode) == ConfigDirPerm)
    ensures r.Fail? && stat.Stat? ==> r.error == InsecureDirectory(Perm(stat.mode))
  {
    match stat
    case StatFailed => Fail(CannotAccessDirectory)
    case Stat(mode) =>
      if ShouldCheckPermissions(goos) && Perm(mode) != ConfigDirPerm then Fail(InsecureDirectory(Perm(mode)))
      else Pass
  }

  function CheckFilePermissions(goos: string, stat: StatResult): (r: Outcome<PermError>)
    ensures stat.StatFailed? ==> r == Fail(CannotAccessFile)
    ensures r.Pass? <==>
      stat.Stat? && (ShouldCheckPermissions(goos) ==> Perm(stat.mode) in {ConfigFilePerm, ConfigFilePermReadOnly})
    ensures r.Fail? && stat.Stat? ==> r.error == InsecureFile(Perm(stat.mode))
  {
    match stat
    case StatFailed => Fail(CannotAccessFile)
    case Stat(mode) =>
      if ShouldCheckPermissions(goos) && Perm(mode) != ConfigFilePerm && Perm(mode) != ConfigFilePermReadOnly
      then Fail(InsecureFile(Perm(mode)))
      else Pass
  }

  /** On a platform outside the list every mode passes once stat succeeds; a failed stat fails everywhere. */
  lemma UncheckedPlatformAcceptsAnyMode(goos: string, mode: FileMode)
    requires !ShouldCheckPermissions(goos)
    ensures CheckDirectoryPermissions(goos, Stat(mode)) == Pass
    ensures CheckFilePermissions(goos, Stat(mode)) == Pass
    ensures CheckDirectoryPermissions(goos, StatFailed) == Fail(CannotAccessDirectory)
    ensures CheckFilePermissions(goos, StatFailed) == Fail(CannotAccessFile)
  {
  }

  /**
   * Only the permission bits are compared: setting type bits (ModeDir is 1 << 31,
   * ModeSetuid 1 << 23, ...) never changes a verdict.
   */
  lemma TypeBitsIgnored(goos: string, mode: FileMode, typeBits: FileMode)
    requires typeBits & 0x1FF == 0
    ensures CheckDirectoryPermissions(goos, Stat(mode | typeBits)) == CheckDirectoryPermissions(goos, Stat(mode))
    ensures CheckFilePermissions(goos, Stat(mode | typeBits)) == CheckFilePermissions(goos, Stat(mode))
  {
  }

  /** The modes the guard is documented to reject and accept on Linux. */
  lemma PinnedModes()
    ensures CheckDirectoryPermissions("linux", Stat(0x1E8)).Fail?            // 0o750
    ensures CheckDirectoryPermissions("linux", Stat(0x1C0)) == Pass          // 0o700
    ensures CheckDirectoryPermissions("linux", Stat(0x8000_01C0)) == Pass    // ModeDir | 0o700
    ensures CheckFilePermissions("linux", Stat(0x1A4)).Fail?                 // 0o644
    ensures CheckFilePermissions("linux", Stat(0x180)) == Pass               // 0o600
    ensures CheckFilePermissions("linux", Stat(0x100)) == Pass               // 0o400
    ensures CheckFilePermissions("windows", Stat(0x1FF)) == Pass             // 0o777, unchecked
  {
  }
}
