// The Dokan vocabulary shared by the host, the adapter and the peer provider:
// status codes, open modes, access masks, file information records and the
// serialisable result records every asynchronous operation returns.
module DokanTypes {
  import opened Wrappers

  newtype byte = x: int | 0 <= x < 256

  /** Times are DateTime tick counts (100 ns units); DateTime.MinValue is tick 0. */
  type Time = int

  const TicksPerSecond: int := 10_000_000
  const TicksPerMillisecond: int := 10_000
  /** Tick count of the Unix epoch, 1970-01-01T00:00:00Z. */
  const UnixEpochTicks: int := 621_355_968_000_000_000

  /** DateTimeOffset.FromUnixTimeMilliseconds(ms).UtcDateTime as ticks. */
  function UnixMillisToTicks(ms: int): (t: Time)
    ensures ms == 0 ==> t == UnixEpochTicks
    ensures ms > 0 ==> t > UnixEpochTicks
  {
    UnixEpochTicks + ms * TicksPerMillisecond
  }

  /** Later Unix times are later ticks, and each millisecond is TicksPerMillisecond ticks. */
  lemma UnixMillisMonotone(a: int, b: int)
    requires a < b
    ensures UnixMillisToTicks(a) < UnixMillisToTicks(b)
    ensures UnixMillisToTicks(b) - UnixMillisToTicks(a) == (b - a) * TicksPerMillisecond
  {
  }

  /** The NTSTATUS values that this file system produces (DokanResult.*). */
  datatype NtStatus =
    | Success
    | Error
    | FileNotFound
    | FileExists
    | NotADirectory
    | AccessDenied
    | NotImplemented
    | PathNotFound
    | SharingViolation

  /** System.IO.FileMode. */
  datatype FileMode = CreateNew | Create | Open | OpenOrCreate | Truncate | Append

  /** DokanNet.FileAccess, a 32-bit access mask. */
  type FileAccess = bv32

  const ReadData: FileAccess := 0x1
  const WriteData: FileAccess := 0x2
  const AppendData: FileAccess := 0x4
  const Execute: FileAccess := 0x20
  const Delete: FileAccess := 0x1_0000
  const Synchronize: FileAccess := 0x10_0000
  const GenericExecute: FileAccess := 0x2000_0000
  const GenericWrite: FileAccess := 0x4000_0000
  const GenericRead: FileAccess := 0x8000_0000

  /** FileShare, FileOptions: passed along and recorded, never interpreted. */
  type FileShare = bv32
  type FileOptions = bv32

  /** System.IO.FileAttributes, a 32-bit mask. */
  type FileAttributes = bv32
  const DirectoryAttribute: FileAttributes := 0x10
  const NormalAttribute: FileAttributes := 0x80

  /** DokanNet.FileInformation; a null time is None. */
  datatype FileInformation = FileInformation(
    fileName: string,
    attributes: FileAttributes,
    creationTime: Option<Time>,
    lastAccessTime: Option<Time>,
    lastWriteTime: Option<Time>,
    length: int)

  /** `default(FileInformation)`. */
  const DefaultFileInformation := FileInformation("", 0, None, None, None, 0)

  /**
   * What the peer receives of the kernel's per-handle information: a copy
   * of an AsyncDokanFileInfo (it crosses the socket serialised).
   */
  datatype OpInfo = OpInfo(opId: string, writeToEndOfFile: bool, isDirectory: bool, deleteOnClose: bool)

  /** FileSystemFeatures; only None occurs here. */
  type FileSystemFeatures = bv32
  const NoFeatures: FileSystemFeatures := 0

  /** An opaque security descriptor (FileSystemSecurity). */
  datatype SecurityDescriptor = SecurityDescriptor(sddl: string)

  // ---- Result records; each result type's implicit conversion from a bare
  // status fills the other fields with their defaults. ----

  datatype DokanAsyncResult = DokanAsyncResult(status: NtStatus)

  datatype CreateFileResult = CreateFileResult(status: NtStatus, isDirectory: bool)
  function CreateFileStatus(s: NtStatus): CreateFileResult { CreateFileResult(s, false) }

  datatype FindFilesResult = FindFilesResult(status: NtStatus, files: Option<seq<FileInformation>>)
  function FindFilesStatus(s: NtStatus): FindFilesResult { FindFilesResult(s, None) }

  datatype FindStreamsResult = FindStreamsResult(status: NtStatus, streams: Option<seq<FileInformation>>)

  datatype GetFileInformationResult = GetFileInformationResult(status: NtStatus, fileInfo: FileInformation)
  function FileInformationStatus(s: NtStatus): GetFileInformationResult
  {
    GetFileInformationResult(s, DefaultFileInformation)
  }

  datatype ReadFileResult = ReadFileResult(status: NtStatus, data: Option<seq<byte>>)
  function ReadFileStatus(s: NtStatus): ReadFileResult { ReadFileResult(s, None) }

  datatype WriteFileResult = WriteFileResult(status: NtStatus, bytesWritten: int)
  function WriteFileStatus(s: NtStatus): WriteFileResult { WriteFileResult(s, 0) }

  datatype GetDiskFreeSpaceResult = GetDiskFreeSpaceResult(
    status: NtStatus, freeBytesAvailable: int, totalNumberOfBytes: int, totalNumberOfFreeBytes: int)

  datatype GetVolumeInformationResult = GetVolumeInformationResult(
    status: NtStatus, volumeLabel: string, features: FileSystemFeatures,
    fileSystemName: string, maximumComponentLength: int)

  datatype GetFileSecurityResult = GetFileSecurityResult(status: NtStatus, security: Option<SecurityDescriptor>)
}
