/** The constants of fastmask/const.go. */
module Consts {
  /** Go's `os.FileMode`, a uint32: permission bits in the low nine, type bits above. */
  type FileMode = bv32

  /** 0o700: owner read, write and search. */
  const ConfigDirPerm: FileMode := 0x1C0
  /** 0o600: owner read and write. */
  const ConfigFilePerm: FileMode := 0x180
  /** 0o400: owner read only. */
  const ConfigFilePermReadOnly: FileMode := 0x100

  const AuthHeader: string := "Authorization"
  /** The JMAP session resource's well-known URL (RFC 8620, section 2.2). */
  const AuthUrl: string := "https://api.fastmail.com/.well-known/jmap"
  const ContentTypeHeader: string := "Content-Type"
  /** The creation id: the key under `create` in the request and under `created` in the reply. */
  const FastmaskRequestId: string := "fastmask"
  const JmapCallId: string := "0"
  const JmapStateEnabled: string := "enabled"
  const JsonContentType: string := "application/json"
  const MaskedEmailCapability: string := "https://www.fastmail.com/dev/maskedemail"
  const MaskedEmailSetMethod: string := "MaskedEmail/set"
  const PrefixLen: nat := 5
  const PrimaryAccountKey: string := "urn:ietf:params:jmap:core"
}
