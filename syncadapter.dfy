// AsyncDokanOperations: the synchronous Dokan callbacks, each attaching the
// handle's AsyncDokanFileInfo and waiting on the asynchronous operation.
module SyncAdapter {
  import opened Wrappers
  import opened DokanTypes
  import opened FileInfo

  /** The asynchronous operations the callbacks wait on (IAsyncDokanOperations), as functions of their arguments. */
  datatype AsyncOperations = AsyncOperations(
    cleanup: (string, OpInfo) -> Unit,
    closeFile: (string, OpInfo) -> Unit,
    createFile: (string, FileAccess, FileShare, FileMode, FileOptions, FileAttributes, OpInfo) -> CreateFileResult,
    deleteDirectory: (string, OpInfo) -> DokanAsyncResult,
    deleteFile: (string, OpInfo) -> DokanAsyncResult,
    findFiles: (string, OpInfo) -> FindFilesResult,
    findFilesWithPattern: (string, string, OpInfo) -> FindFilesResult,
    findStreams: (string, OpInfo) -> FindStreamsResult,
    flushFileBuffers: (string, OpInfo) -> DokanAsyncResult,
    getDiskFreeSpace: OpInfo -> GetDiskFreeSpaceResult,
    getFileInformation: (string, OpInfo) -> GetFileInformationResult,
    getFileSecurity: (string, OpInfo) -> GetFileSecurityResult,
    getVolumeInformation: OpInfo -> GetVolumeInformationResult,
    lockFile: (string, int, int, OpInfo) -> DokanAsyncResult,
    mounted: (string, OpInfo) -> DokanAsyncResult,
    moveFile: (string, string, bool, OpInfo) -> DokanAsyncResult,
    readFile: (string, int, int, OpInfo) -> ReadFileResult,
    setAllocationSize: (string, int, OpInfo) -> DokanAsyncResult,
    setEndOfFile: (string, int, OpInfo) -> DokanAsyncResult,
    setFileAttributes: (string, FileAttributes, OpInfo) -> DokanAsyncResult,
    setFileSecurity: (string, SecurityDescriptor, OpInfo) -> DokanAsyncResult,
    setFileTime: (string, Option<Time>, Option<Time>, Option<Time>, OpInfo) -> DokanAsyncResult,
    unlockFile: (string, int, int, OpInfo) -> DokanAsyncResult,
    unmounted: OpInfo -> DokanAsyncResult,
    writeFile: (string, seq<byte>, int, OpInfo) -> WriteFileResult)

  /** The OpId a callback on `info` uses: the attached one, else the fresh one. */
  function HandleId(context: AsyncDokanFileInfo?, freshId: string): string
    reads context
  {
    if context != null then context.opId else freshId
  }

  class SyncDokanOperations {
    const operations: AsyncOperations

    constructor (operations: AsyncOperations)
      ensures this.operations == operations
    {
      this.operations := operations;
    }

    /** The step every callback starts with; the snapshot is what the operation receives. */
    method Attach(info: DokanFileInfo, freshId: string) returns (passed: OpInfo)
      modifies info
      ensures info.context != null && passed == info.context.Snapshot()
      ensures passed.opId == HandleId(old(info.context), freshId)
      ensures old(info.context) != null ==> info.context == old(info.context) && passed == old(info.context.Snapshot())
      ensures old(info.context) == null ==>
        fresh(info.context) && passed == OpInfo(freshId, info.writeToEndOfFile, info.isDirectory, info.deleteOnClose)
      ensures info.writeToEndOfFile == old(info.writeToEndOfFile) && info.isDirectory == old(info.isDirectory)
      ensures info.deleteOnClose == old(info.deleteOnClose)
    {
      var op := AsyncDokanFileInfo.From(info, freshId);
      passed := op.Snapshot();
    }

    method Cleanup(fileName: string, info: DokanFileInfo, freshId: string) returns (passed: OpInfo)
      modifies info
      ensures info.context != null && passed == info.context.Snapshot() && passed.opId == HandleId(old(info.context), freshId)
    {
      passed := Attach(info, freshId);
      var _ := operations.cleanup(fileName, passed);
    }

    method CloseFile(fileName: string, info: DokanFileInfo, freshId: string) returns (passed: OpInfo)
      modifies info
      ensures info.context != null && passed == info.context.Snapshot() && passed.opId == HandleId(old(info.context), freshId)
    {
      passed := Attach(info, freshId);
      var _ := operations.closeFile(fileName, passed);
    }

    /** CreateFile writes the result's IsDirectory back into the kernel's info. */
    method CreateFile(fileName: string, access: FileAccess, share: FileShare, mode: FileMode, options: FileOptions,
                      attributes: FileAttributes, info: DokanFileInfo, freshId: string) returns (status: NtStatus, passed: OpInfo)
      modifies info
      ensures info.context != null && passed == info.context.Snapshot() && passed.opId == HandleId(old(info.context), freshId)
      ensures var r := operations.createFile(fileName, access, share, mode, options, attributes, passed);
        status == r.status && info.isDirectory == r.isDirectory
      ensures info.deleteOnClose == old(info.deleteOnClose) && info.writeToEndOfFile == old(info.writeToEndOfFile)
    {
      passed := Attach(info, freshId);
      var result := operations.createFile(fileName, access, share, mode, options, attributes, passed);
      info.isDirectory := result.isDirectory;
      status := result.status;
    }

    method DeleteDirectory(fileName: string, info: DokanFileInfo, freshId: string) returns (status: NtStatus, passed: OpInfo)
      modifies info
      ensures info.context != null && passed == info.context.Snapshot() && passed.opId == HandleId(old(info.context), freshId)
      ensures status == operations.deleteDirectory(fileName, passed).status
    {
      passed := Attach(info, freshId);
      status := operations.deleteDirectory(fileName, passed).status;
    }

    method DeleteFile(fileName: string, info: DokanFileInfo, freshId: string) returns (status: NtStatus, passed: OpInfo)
      modifies info
      ensures info.context != null && passed == info.context.Snapshot() && passed.opId == HandleId(old(info.context), freshId)
      ensures status == operations.deleteFile(fileName, passed).status
    {
      passed := Attach(info, freshId);
      status := operations.deleteFile(fileName, passed).status;
    }

    method FindFiles(fileName: string, info: DokanFileInfo, freshId: string)
      returns (status: NtStatus, files: Option<seq<FileInformation>>, passed: OpInfo)
      modifies info
      ensures info.context != null && passed == info.context.Snapshot() && passed.opId == HandleId(old(info.context), freshId)
      ensures status == operations.findFiles(fileName, passed).status && files == operations.findFiles(fileName, passed).files
    {
      passed := Attach(info, freshId);
      var result := operations.findFiles(fileName, passed);
      files := result.files;
      status := result.status;
    }

    method FindFilesWithPattern(fileName: string, searchPattern: string, info: DokanFileInfo, freshId: string)
      returns (status: NtStatus, files: Option<seq<FileInformation>>, passed: OpInfo)
      modifies info
      ensures info.context != null && passed == info.context.Snapshot() && passed.opId == HandleId(old(info.context), freshId)
      ensures var r := operations.findFilesWithPattern(fileName, searchPattern, passed); status == r.status && files == r.files
    {
      passed := Attach(info, freshId);
      var result := operations.findFilesWithPattern(fileName, searchPattern, passed);
      files := result.files;
      status := result.status;
    }

    method FindStreams(fileName: string, info: DokanFileInfo, freshId: string)
      returns (status: NtStatus, streams: Option<seq<FileInformation>>, passed: OpInfo)
      modifies info
      ensures info.context != null && passed == info.context.Snapshot() && passed.opId == HandleId(old(info.context), freshId)
      ensures var r := operations.findStreams(fileName, passed); status == r.status && streams == r.streams
    {
      passed := Attach(info, freshId);
      var result := operations.findStreams(fileName, passed);
      streams := result.streams;
      status := result.status;
    }

    method FlushFileBuffers(fileName: string, info: DokanFileInfo, freshId: string) returns (status: NtStatus, passed: OpInfo)
      modifies info
      ensures info.context != null && passed == info.context.Snapshot() && passed.opId == HandleId(old(info.context), freshId)
      ensures status == operations.flushFileBuffers(fileName, passed).status
    {
      passed := Attach(info, freshId);
      status := operations.flushFileBuffers(fileName, passed).status;
    }

    method GetDiskFreeSpace(info: DokanFileInfo, freshId: string)
      returns (status: NtStatus, freeBytesAvailable: int, totalNumberOfBytes: int, totalNumberOfFreeBytes: int, passed: OpInfo)
      modifies info
      ensures info.context != null && passed == info.context.Snapshot() && passed.opId == HandleId(old(info.context), freshId)
      ensures var r := operations.getDiskFreeSpace(passed);
        status == r.status && freeBytesAvailable == r.freeBytesAvailable &&
        totalNumberOfBytes == r.totalNumberOfBytes && totalNumberOfFreeBytes == r.totalNumberOfFreeBytes
    {
      passed := Attach(info, freshId);
      var result := operations.getDiskFreeSpace(passed);
      freeBytesAvailable := result.freeBytesAvailable;
      totalNumberOfBytes := result.totalNumberOfBytes;
      totalNumberOfFreeBytes := result.totalNumberOfFreeBytes;
      status := result.status;
    }

    method GetFileInformation(fileName: string, info: DokanFileInfo, freshId: string)
      returns (status: NtStatus, fileInfo: FileInformation, passed: OpInfo)
      modifies info
      ensures info.context != null && passed == info.context.Snapshot() && passed.opId == HandleId(old(info.context), freshId)
      ensures var r := operations.getFileInformation(fileName, passed); status == r.status && fileInfo == r.fileInfo
    {
      passed := Attach(info, freshId);
      var result := operations.getFileInformation(fileName, passed);
      fileInfo := result.fileInfo;
      status := result.status;
    }

    method GetFileSecurity(fileName: string, info: DokanFileInfo, freshId: string)
      returns (status: NtStatus, security: Option<SecurityDescriptor>, passed: OpInfo)
      modifies info
      ensures info.context != null && passed == info.context.Snapshot() && passed.opId == HandleId(old(info.context), freshId)
      ensures var r := operations.getFileSecurity(fileName, passed); status == r.status && security == r.security
    {
      passed := Attach(info, freshId);
      var result := operations.getFileSecurity(fileName, passed);
      security := result.security;
      status := result.status;
    }

    method GetVolumeInformation(info: DokanFileInfo, freshId: string)
      returns (status: NtStatus, volumeLabel: string, features: FileSystemFeatures, fileSystemName: string,
               maximumComponentLength: int, passed: OpInfo)
      modifies info
      ensures info.context != null && passed == info.context.Snapshot() && passed.opId == HandleId(old(info.context), freshId)
      ensures var r := operations.getVolumeInformation(passed);
        status == r.status && volumeLabel == r.volumeLabel && features == r.features &&
        fileSystemName == r.fileSystemName && maximumComponentLength == r.maximumComponentLength
    {
      passed := Attach(info, freshId);
      var result := operations.getVolumeInformation(passed);
      volumeLabel := result.volumeLabel;
      features := result.features;
      fileSystemName := result.fileSystemName;
      maximumComponentLength := result.maximumComponentLength;
      status := result.status;
    }

    method LockFile(fileName: string, offset: int, length: int, info: DokanFileInfo, freshId: string)
      returns (status: NtStatus, passed: OpInfo)
      modifies info
      ensures info.context != null && passed == info.context.Snapshot() && passed.opId == HandleId(old(info.context), freshId)
      ensures status == operations.lockFile(fileName, offset, length, passed).status
    {
      passed := Attach(info, freshId);
      status := operations.lockFile(fileName, offset, length, passed).status;
    }

    method Mounted(mountPoint: string, info: DokanFileInfo, freshId: string) returns (status: NtStatus, passed: OpInfo)
      modifies info
      ensures info.context != null && passed == info.context.Snapshot() && passed.opId == HandleId(old(info.context), freshId)
      ensures status == operations.mounted(mountPoint, passed).status
    {
      passed := Attach(info, freshId);
      status := operations.mounted(mountPoint, passed).status;
    }

    method MoveFile(oldName: string, newName: string, replace: bool, info: DokanFileInfo, freshId: string)
      returns (status: NtStatus, passed: OpInfo)
      modifies info
      ensures info.context != null && passed == info.context.Snapshot() && passed.opId == HandleId(old(info.context), freshId)
      ensures status == operations.moveFile(oldName, newName, replace, passed).status
    {
      passed := Attach(info, freshId);
      status := operations.moveFile(oldName, newName, replace, passed).status;
    }

    /**
     * ReadFile asks for at most buffer.Length bytes and block-copies the data
     * to the front of the caller's buffer; data longer than the buffer makes
     * the copy throw.
     */
    method ReadFile(fileName: string, buffer: array<byte>, offset: int, info: DokanFileInfo, freshId: string)
      returns (outcome: Result<NtStatus, string>, bytesRead: nat, passed: OpInfo)
      modifies info, buffer
      ensures info.context != null && passed == info.context.Snapshot() && passed.opId == HandleId(old(info.context), freshId)
      ensures var r := operations.readFile(fileName, offset, buffer.Length, passed);
        var data := if r.data.Some? then r.data.value else [];
        bytesRead == |data| &&
        (|data| <= buffer.Length ==>
          outcome == Ok(r.status) && buffer[..bytesRead] == data && buffer[bytesRead..] == old(buffer[bytesRead..])) &&
        (|data| > buffer.Length ==> outcome.Err? && buffer[..] == old(buffer[..]))
    {
      passed := Attach(info, freshId);
      var result := operations.readFile(fileName, offset, buffer.Length, passed);
      var data := if result.data.Some? then result.data.value else [];
      bytesRead := |data|;
      if |data| > 0 {
        if |data| > buffer.Length {
          return Err("ArgumentException"), bytesRead, passed;
        }
        for i := 0 to |data|
          invariant buffer[..i] == data[..i]
          invariant forall k :: i <= k < buffer.Length ==> buffer[k] == old(buffer[k])
          modifies buffer
        {
          buffer[i] := data[i];
        }
        assert buffer[|data|..] == old(buffer[|data|..]);
      }
      outcome := Ok(result.status);
    }

    method SetAllocationSize(fileName: string, length: int, info: DokanFileInfo, freshId: string)
      returns (status: NtStatus, passed: OpInfo)
      modifies info
      ensures info.context != null && passed == info.context.Snapshot() && passed.opId == HandleId(old(info.context), freshId)
      ensures status == operations.setAllocationSize(fileName, length, passed).status
    {
      passed := Attach(info, freshId);
      status := operations.setAllocationSize(fileName, length, passed).status;
    }

    method SetEndOfFile(fileName: string, length: int, info: DokanFileInfo, freshId: string)
      returns (status: NtStatus, passed: OpInfo)
      modifies info
      ensures info.context != null && passed == info.context.Snapshot() && passed.opId == HandleId(old(info.context), freshId)
      ensures status == operations.setEndOfFile(fileName, length, passed).status
    {
      passed := Attach(info, freshId);
      status := operations.setEndOfFile(fileName, length, passed).status;
    }

    method SetFileAttributes(fileName: string, attributes: FileAttributes, info: DokanFileInfo, freshId: string)
      returns (status: NtStatus, passed: OpInfo)
      modifies info
      ensures info.context != null && passed == info.context.Snapshot() && passed.opId == HandleId(old(info.context), freshId)
      ensures status == operations.setFileAttributes(fileName, attributes, passed).status
    {
      passed := Attach(info, freshId);
      status := operations.setFileAttributes(fileName, attributes, passed).status;
    }

    method SetFileSecurity(fileName: string, security: SecurityDescriptor, info: DokanFileInfo, freshId: string)
      returns (status: NtStatus, passed: OpInfo)
      modifies info
      ensures info.context != null && passed == info.context.Snapshot() && passed.opId == HandleId(old(info.context), freshId)
      ensures status == operations.setFileSecurity(fileName, security, passed).status
    {
      passed := Attach(info, freshId);
      status := operations.setFileSecurity(fileName, security, passed).status;
    }

    method SetFileTime(fileName: string, creationTime: Option<Time>, lastAccessTime: Option<Time>, lastWriteTime: Option<Time>,
                       info: DokanFileInfo, freshId: string) returns (status: NtStatus, passed: OpInfo)
      modifies info
      ensures info.context != null && passed == info.context.Snapshot() && passed.opId == HandleId(old(info.context), freshId)
      ensures status == operations.setFileTime(fileName, creationTime, lastAccessTime, lastWriteTime, passed).status
    {
      passed := Attach(info, freshId);
      status := operations.setFileTime(fileName, creationTime, lastAccessTime, lastWriteTime, passed).status;
    }

    method UnlockFile(fileName: string, offset: int, length: int, info: DokanFileInfo, freshId: string)
      returns (status: NtStatus, passed: OpInfo)
      modifies info
      ensures info.context != null && passed == info.context.Snapshot() && passed.opId == HandleId(old(info.context), freshId)
      ensures status == operations.unlockFile(fileName, offset, length, passed).status
    {
      passed := Attach(info, freshId);
      status := operations.unlockFile(fileName, offset, length, passed).status;
    }

    method Unmounted(info: DokanFileInfo, freshId: string) returns (status: NtStatus, passed: OpInfo)
      modifies info
      ensures info.context != null && passed == info.context.Snapshot() && passed.opId == HandleId(old(info.context), freshId)
      ensures status == operations.unmounted(passed).status
    {
      passed := Attach(info, freshId);
      status := operations.unmounted(passed).status;
    }

    method WriteFile(fileName: string, buffer: seq<byte>, offset: int, info: DokanFileInfo, freshId: string)
      returns (status: NtStatus, bytesWritten: int, passed: OpInfo)
      modifies info
      ensures info.context != null && passed == info.context.Snapshot() && passed.opId == HandleId(old(info.context), freshId)
      ensures var r := operations.writeFile(fileName, buffer, offset, passed); status == r.status && bytesWritten == r.bytesWritten
    {
      passed := Attach(info, freshId);
      var result := operations.writeFile(fileName, buffer, offset, passed);
      bytesWritten := result.bytesWritten;
      status := result.status;
    }

    /**
     * Two callbacks on one kernel handle: the second sees the OpId the first
     * attached, whatever fresh id it is offered, and the flags first seen.
     */
    method SameHandleTwice(info: DokanFileInfo, firstId: string, secondId: string) returns (first: OpInfo, second: OpInfo)
      modifies info
      ensures first == second && first.opId == HandleId(old(info.context), firstId)
    {
      first := Attach(info, firstId);
      info.isDirectory := !info.isDirectory;
      info.deleteOnClose := !info.deleteOnClose;
      second := Attach(info, secondId);
    }
  }
}
