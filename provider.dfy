// The demo peer's file system (WebFSProvider): the OpId-keyed table of open
// handles and the Dokan operations answered from the browser's storage.
module PeerProvider {
  import opened Wrappers
  import opened DokanTypes
  import opened BrowserStorage

  /** Access bits that touch file data (DataAccess). */
  const DataAccess: FileAccess := ReadData | WriteData | AppendData | Execute | GenericExecute | GenericWrite | GenericRead

  /** A writable stream staged on a file by the first WriteFile of a handle: its file and its buffered content. */
  datatype StagedStream = StagedStream(path: Path, data: seq<byte>)

  /** OpenFileContext: the CreateFile arguments, the handle's info and the staged stream (`Context`). */
  datatype OpenFileContext = OpenFileContext(
    filename: string, access: FileAccess, share: FileShare, mode: FileMode,
    options: FileOptions, attributes: FileAttributes, info: OpInfo, stream: Option<StagedStream>)

  type OpenFiles = map<string, OpenFileContext>

  // ---- CreateFile's decision table ----

  datatype CreateEffect = NoEffect | MakeDirectory | WriteEmpty

  /** What CreateFile does to storage, what it answers, and whether it records the kind found in the handle's info. */
  datatype CreateDecision = CreateDecision(effect: CreateEffect, result: CreateFileResult, markIsDirectory: bool)

  function Refuse(s: NtStatus): CreateDecision
  {
    CreateDecision(NoEffect, CreateFileStatus(s), false)
  }

  /** The mode switch of CreateFile as the source has it. */
  function DecideCreateAsWritten(isDirectoryRequest: bool, mode: FileMode, entry: Option<Node>, access: FileAccess): CreateDecision
  {
    var present := entry.Some?;
    var isFile := present && entry.value.File?;
    var pathIsDirectory := entry == Some(Directory);
    var success := CreateDecision(NoEffect, CreateFileResult(Success, pathIsDirectory), false);
    if isDirectoryRequest then
      match mode
      case CreateNew => if present then Refuse(FileExists) else success.(effect := MakeDirectory)
      case Open => if isFile then Refuse(NotADirectory) else if !present then Refuse(FileNotFound) else success
      case _ => Refuse(Error)
    else
      match mode
      case CreateNew => if present then Refuse(FileExists) else success
      case Open =>
        if !present then Refuse(FileNotFound)
        else if access & DataAccess == 0 || pathIsDirectory then
          if pathIsDirectory && access & Delete == Delete && access & Synchronize != Synchronize then Refuse(AccessDenied)
          else CreateDecision(NoEffect, CreateFileResult(Success, pathIsDirectory), true)
        else success
      case Truncate => if !present then Refuse(FileNotFound) else success.(effect := WriteEmpty)
      case Create => success.(effect := WriteEmpty)
      case Append => if !present then success.(effect := WriteEmpty) else success
      case OpenOrCreate => if present then Refuse(FileExists) else success.(effect := WriteEmpty)
  }

  /**
   * The mode switch with the two CreateNew cases corrected: a new file is
   * created, and a new directory is reported as a directory.
   */
  function DecideCreate(isDirectoryRequest: bool, mode: FileMode, entry: Option<Node>, access: FileAccess): (d: CreateDecision)
    ensures mode == CreateNew && entry.None? ==>
      d == CreateDecision(if isDirectoryRequest then MakeDirectory else WriteEmpty, CreateFileResult(Success, isDirectoryRequest), false)
    ensures !(mode == CreateNew && entry.None?) ==> d == DecideCreateAsWritten(isDirectoryRequest, mode, entry, access)
  {
    if mode == CreateNew && entry.None? then
      CreateDecision(if isDirectoryRequest then MakeDirectory else WriteEmpty, CreateFileResult(Success, isDirectoryRequest), false)
    else DecideCreateAsWritten(isDirectoryRequest, mode, entry, access)
  }

  /** As written, CreateNew on a missing path answers Success but creates no file. */
  lemma CreateNewFileNotCreated(access: FileAccess)
    ensures DecideCreateAsWritten(false, CreateNew, None, access) == CreateDecision(NoEffect, CreateFileResult(Success, false), false)
  {
  }

  /** As written, a directory newly created by CreateNew is reported as not a directory. */
  lemma CreateNewDirectoryReportedAsFile(access: FileAccess)
    ensures DecideCreateAsWritten(true, CreateNew, None, access).effect == MakeDirectory
    ensures DecideCreateAsWritten(true, CreateNew, None, access).result == CreateFileResult(Success, false)
  {
  }

  /** Directory requests: CreateNew creates unless something exists, Open needs a directory, other modes fail. */
  lemma DirectoryRequestRules(mode: FileMode, entry: Option<Node>, access: FileAccess)
    ensures var d := DecideCreate(true, mode, entry, access);
      (mode == CreateNew ==> (entry.Some? ==> d.result.status == FileExists && d.effect == NoEffect) &&
                             (entry.None? ==> d.effect == MakeDirectory && d.result == CreateFileResult(Success, true))) &&
      (mode == Open ==> d.effect == NoEffect &&
                        (entry.Some? && entry.value.File? ==> d.result.status == NotADirectory) &&
                        (entry.None? ==> d.result.status == FileNotFound) &&
                        (entry == Some(Directory) ==> d.result == CreateFileResult(Success, true))) &&
      (mode != CreateNew && mode != Open ==> d == Refuse(Error))
  {
  }

  /**
   * File requests: which modes refuse on an existing or a missing path, and
   * which reset the content or create an empty file.
   */
  lemma FileRequestRules(mode: FileMode, entry: Option<Node>, access: FileAccess)
    ensures var d := DecideCreate(false, mode, entry, access);
      (mode == CreateNew ==> (entry.Some? ==> d.result.status == FileExists && d.effect == NoEffect) &&
                             (entry.None? ==> d.effect == WriteEmpty && d.result.status == Success)) &&
      ((mode == Open || mode == Truncate) && entry.None? ==> d.result.status == FileNotFound && d.effect == NoEffect) &&
      (mode == OpenOrCreate ==> (entry.Some? ==> d.result.status == FileExists && d.effect == NoEffect) &&
                                (entry.None? ==> d.effect == WriteEmpty && d.result.status == Success)) &&
      (mode == Create ==> d.effect == WriteEmpty && d.result.status == Success) &&
      (mode == Truncate && entry.Some? ==> d.effect == WriteEmpty && d.result.status == Success) &&
      (mode == Append ==> d.result.status == Success && (d.effect == WriteEmpty <==> entry.None?))
  {
  }

  /**
   * Opening an existing path for attributes only, or opening a directory,
   * succeeds and reports the kind found, except that a directory staged with
   * Delete but without Synchronize is refused.
   */
  lemma AttributeOpenRule(entry: Node, access: FileAccess)
    requires access & DataAccess == 0 || entry == Directory
    ensures var d := DecideCreate(false, Open, Some(entry), access);
      d.effect == NoEffect &&
      (if entry == Directory && access & Delete == Delete && access & Synchronize != Synchronize
       then d.result.status == AccessDenied
       else d.result == CreateFileResult(Success, entry == Directory) && d.markIsDirectory)
  {
  }

  /** Carries out a decision's storage effect; a storage call that throws makes the answer Error. */
  function ApplyCreate(st: Storage, p: Path, d: CreateDecision, now: int): (Storage, CreateFileResult)
  {
    match d.effect
    case NoEffect => (st, d.result)
    case MakeDirectory =>
      (match MakeDirectories(st, p) case None => (st, CreateFileStatus(Error)) case Some(st') => (st', d.result))
    case WriteEmpty =>
      (match WriteFile(st, p, [], now) case None => (st, CreateFileStatus(Error)) case Some(st') => (st', d.result))
  }

  /** The as-written switch and the corrected one differ exactly on CreateNew of a missing path. */
  lemma AsWrittenDiffersOnlyOnCreateNew(isDirectoryRequest: bool, mode: FileMode, entry: Option<Node>, access: FileAccess)
    ensures DecideCreateAsWritten(isDirectoryRequest, mode, entry, access) != DecideCreate(isDirectoryRequest, mode, entry, access)
            <==> mode == CreateNew && entry.None?
  {
  }

  /**
   * A decision's storage effect happens only where storage allows it, and the
   * answer is then the decision's; where storage refuses, nothing changes and
   * the answer is Error.
   */
  lemma ApplyCreateOutcome(st: Storage, p: Path, d: CreateDecision, now: int)
    ensures var (st', r) := ApplyCreate(st, p, d, now);
      (d.effect == NoEffect ==> st' == st && r == d.result) &&
      (d.effect == MakeDirectory ==>
        (MakeDirectories(st, p).Some? ==>
           r == d.result && Lookup(st', p) == Some(Directory) && forall q :: q in st ==> q in st' && st'[q] == st[q]) &&
        (MakeDirectories(st, p).None? ==> st' == st && r == CreateFileStatus(Error))) &&
      (d.effect == WriteEmpty ==>
        (p != [] && Lookup(st, Parent(p)) == Some(Directory) && Lookup(st, p) != Some(Directory) ==>
           r == d.result && Lookup(st', p) == Some(File([], now)) && forall q :: q != p ==> Lookup(st', q) == Lookup(st, q)) &&
        (!(p != [] && Lookup(st, Parent(p)) == Some(Directory) && Lookup(st, p) != Some(Directory)) ==>
           st' == st && r == CreateFileStatus(Error)))
  {
  }

  // ---- Closing a handle ----

  /** Disposing the staged stream writes its content back to its file, if that is still a file. */
  function Committed(st: Storage, ctx: OpenFileContext, now: int): Storage
  {
    match ctx.stream
    case None => st
    case Some(s) =>
      if Lookup(st, s.path).Some? && Lookup(st, s.path).value.File? then st[s.path := File(s.data, now)] else st
  }

  /** The storage after CloseContext: commit, then remove the path recursively if delete-on-close is set (failures ignored). */
  function AfterClose(st: Storage, ctx: OpenFileContext, now: int): Storage
  {
    var st1 := Committed(st, ctx, now);
    if ctx.info.deleteOnClose then
      match RemovePath(st1, PathOf(ctx.filename), true) case None => st1 case Some(st2) => st2
    else st1
  }

  /**
   * Closing deletes the handle's path (and what is below it) exactly when
   * delete-on-close is set; otherwise it only commits the staged stream, whose
   * bytes land in its file when that is still a file.
   */
  lemma CloseDeletesOnlyOnRequest(st: Storage, ctx: OpenFileContext, now: int)
    ensures ctx.info.deleteOnClose && PathOf(ctx.filename) != [] ==>
      Lookup(AfterClose(st, ctx, now), PathOf(ctx.filename)) == None
    ensures !ctx.info.deleteOnClose ==> AfterClose(st, ctx, now) == Committed(st, ctx, now)
    ensures ctx.stream.None? && !ctx.info.deleteOnClose ==> AfterClose(st, ctx, now) == st
    ensures !ctx.info.deleteOnClose && ctx.stream.Some? &&
            Lookup(st, ctx.stream.value.path).Some? && Lookup(st, ctx.stream.value.path).value.File? ==>
      Lookup(AfterClose(st, ctx, now), ctx.stream.value.path) == Some(File(ctx.stream.value.data, now)) &&
      forall q :: q != ctx.stream.value.path ==> Lookup(AfterClose(st, ctx, now), q) == Lookup(st, q)
  {
    if ctx.stream.Some? {
      var s := ctx.stream.value;
      if Lookup(st, s.path).Some? && Lookup(st, s.path).value.File? {
        VisibleParent(st, s.path);
        WriteKeepsOthers(st, s.path, s.data, now);
      }
    }
  }

  /** Whatever the table, an open that does not succeed leaves storage as it was. */
  lemma FailedCreateHasNoEffect(st: Storage, p: Path, isDirectoryRequest: bool, mode: FileMode, access: FileAccess, now: int)
    ensures var r := ApplyCreate(st, p, DecideCreateAsWritten(isDirectoryRequest, mode, Lookup(st, p), access), now);
      r.1.status != Success ==> r.0 == st
    ensures var r := ApplyCreate(st, p, DecideCreate(isDirectoryRequest, mode, Lookup(st, p), access), now);
      r.1.status != Success ==> r.0 == st
  {
  }

  /**
   * As written, a CreateFile that fails on an existing file closes its handle
   * at once, and when the kernel asked for delete-on-close that close removes
   * the file the open was refused for.
   */
  lemma RefusedOpenDeletesExisting(st: Storage, ctx: OpenFileContext, now: int)
    requires ctx.mode == CreateNew && ctx.info.deleteOnClose && ctx.stream.None?
    requires Lookup(st, PathOf(ctx.filename)).Some? && Lookup(st, PathOf(ctx.filename)).value.File?
    ensures DecideCreateAsWritten(ctx.info.isDirectory, CreateNew, Lookup(st, PathOf(ctx.filename)), ctx.access).result.status == FileExists
    ensures Lookup(AfterClose(st, ctx, now), PathOf(ctx.filename)) == None
  {
    CloseDeletesOnlyOnRequest(st, ctx, now);
  }

  /** Cleanup's update of the handle: delete-on-close can be switched on, never off. */
  function CleanupMark(ctx: OpenFileContext, info: OpInfo): (c: OpenFileContext)
    ensures c.info.deleteOnClose == (ctx.info.deleteOnClose || info.deleteOnClose)
    ensures c.(info := ctx.info) == ctx && c.info.(deleteOnClose := ctx.info.deleteOnClose) == ctx.info
  {
    if info.deleteOnClose && !ctx.info.deleteOnClose then ctx.(info := ctx.info.(deleteOnClose := true)) else ctx
  }

  // ---- Delete checks ----

  function DeleteDirectoryCheck(entry: Option<Node>): NtStatus
  {
    if entry.Some? && entry.value.File? then AccessDenied else if entry.None? then FileNotFound else Success
  }

  function DeleteFileCheck(entry: Option<Node>): NtStatus
  {
    if entry == Some(Directory) then AccessDenied else if entry.None? then FileNotFound else Success
  }

  /** The delete checks refuse the wrong kind, report a missing path, and otherwise allow. */
  lemma DeleteCheckRules(entry: Option<Node>)
    ensures DeleteFileCheck(entry) == Success <==> entry.Some? && entry.value.File?
    ensures DeleteDirectoryCheck(entry) == Success <==> entry == Some(Directory)
    ensures entry.None? ==> DeleteFileCheck(entry) == FileNotFound && DeleteDirectoryCheck(entry) == FileNotFound
    ensures entry == Some(Directory) ==> DeleteFileCheck(entry) == AccessDenied
    ensures entry.Some? && entry.value.File? ==> DeleteDirectoryCheck(entry) == AccessDenied
  {
  }

  // ---- Reading ----

  /** bytesRead = Math.Max(0, Math.Min(size - offset, maxCount)). */
  function ReadCount(size: int, offset: int, maxCount: int): int
  {
    var m := if size - offset < maxCount then size - offset else maxCount;
    if m < 0 then 0 else m
  }

  /**
   * The bytes ReadFile returns from a file's content: nothing read when the
   * count is 0; otherwise the stream is positioned at the offset only when it
   * is positive, and reading past the end throws (None).
   */
  function ReadBytes(data: seq<byte>, offset: int, maxCount: int): (r: Option<seq<byte>>)
    ensures r.Some? ==> |r.value| == ReadCount(|data|, offset, maxCount)
    ensures 0 <= offset <= |data| ==> r.Some? && r.value == data[offset..offset + ReadCount(|data|, offset, maxCount)]
    ensures offset > |data| ==> r == Some([])
    ensures offset < 0 ==> (r.Some? <==> ReadCount(|data|, offset, maxCount) <= |data|)
  {
    var n := ReadCount(|data|, offset, maxCount);
    var start := if offset > 0 then offset else 0;
    if n == 0 then Some([])
    else if start + n > |data| then None
    else Some(data[start..start + n])
  }

  /** The read length is never negative, never above maxCount, and never runs past the end from a valid offset. */
  lemma ReadCountBounds(size: nat, offset: int, maxCount: int)
    ensures 0 <= ReadCount(size, offset, maxCount)
    ensures maxCount >= 0 ==> ReadCount(size, offset, maxCount) <= maxCount
    ensures 0 <= offset ==> offset + ReadCount(size, offset, maxCount) <= size || ReadCount(size, offset, maxCount) == 0
    ensures offset >= size ==> ReadCount(size, offset, maxCount) == 0
    ensures 0 <= offset <= size && maxCount >= 0 ==>
      ReadCount(size, offset, maxCount) == if size - offset < maxCount then size - offset else maxCount
  {
  }

  // ---- Writing ----

  function Zeros(n: nat): (z: seq<byte>)
    ensures |z| == n && forall i :: 0 <= i < n ==> z[i] == 0
  {
    seq(n, _ => 0)
  }

  /** A stream write: `buffer` placed at `offset`, the gap before it (if any) zero-filled. */
  function WriteAt(content: seq<byte>, offset: nat, buffer: seq<byte>): (r: seq<byte>)
    ensures |r| == if offset + |buffer| > |content| then offset + |buffer| else |content|
    ensures r[offset..offset + |buffer|] == buffer
    ensures forall i :: 0 <= i < offset && i < |content| ==> r[i] == content[i]
    ensures forall i :: |content| <= i < offset ==> r[i] == 0
    ensures forall i :: offset + |buffer| <= i < |content| ==> r[i] == content[i]
  {
    var padded := if offset > |content| then content + Zeros(offset - |content|) else content;
    padded[..offset] + buffer + (if offset + |buffer| < |padded| then padded[offset + |buffer|..] else [])
  }

  /** truncate(length): cut, or extend with zeros. */
  function Truncated(content: seq<byte>, length: nat): (r: seq<byte>)
    ensures |r| == length
    ensures forall i :: 0 <= i < length && i < |content| ==> r[i] == content[i]
    ensures forall i :: |content| <= i < length ==> r[i] == 0
  {
    if length <= |content| then content[..length] else content + Zeros(length - |content|)
  }

  /** The content after SetEndOfFile / SetAllocationSize: truncate is called only for a positive length. */
  function ResizedContent(content: seq<byte>, length: int): (r: seq<byte>)
    ensures length > 0 ==> |r| == length
    ensures length > 0 ==> forall i :: 0 <= i < length && i < |content| ==> r[i] == content[i]
    ensures length > 0 ==> forall i :: |content| <= i < length ==> r[i] == 0
    ensures length <= 0 ==> r == content
  {
    if length > 0 then Truncated(content, length) else content
  }

  /**
   * SetEndOfFile / SetAllocationSize on storage: the file is staged with
   * create = true (an empty name yields no handle), resized, and committed.
   */
  function Resized(st: Storage, filename: string, length: int, now: int): (r: Option<Storage>)
    ensures r.Some? ==> PathOf(filename) != [] && Lookup(r.value, PathOf(filename)).Some?
    ensures r.Some? ==> forall q :: q != PathOf(filename) ==> Lookup(r.value, q) == Lookup(st, q)
    ensures r.Some? <==> PathOf(filename) != [] && Lookup(st, Parent(PathOf(filename))) == Some(Directory)
                         && Lookup(st, PathOf(filename)) != Some(Directory)
    ensures r.Some? ==>
      var current := if Lookup(st, PathOf(filename)).Some? && Lookup(st, PathOf(filename)).value.File?
                     then Lookup(st, PathOf(filename)).value.data else [];
      Lookup(r.value, PathOf(filename)) == Some(File(ResizedContent(current, length), now))
  {
    var p := PathOf(filename);
    if p == [] then None
    else
      var current := if Lookup(st, p).Some? && Lookup(st, p).value.File? then Lookup(st, p).value.data else [];
      WriteFile(st, p, ResizedContent(current, length), now)
  }

  // ---- Enumeration and information ----

  function DirectoryEntry(name: string, now: Time): FileInformation
  {
    FileInformation(name, DirectoryAttribute, None, Some(now), None, 0)
  }

  function FileEntry(name: string, size: int, now: Time): FileInformation
  {
    FileInformation(name, NormalAttribute, None, Some(now), None, size)
  }

  /** The (creation, last write) time GetFileInformation reports for a lastModified stamp; 0 means unknown. */
  function ModifiedTime(lastModified: int): Option<Time>
  {
    if lastModified == 0 then None else Some(UnixMillisToTicks(lastModified))
  }

  /** GetFileInformation, answered from storage alone (the handle table is not consulted). */
  function FileInformationOf(st: Storage, filename: string, now: Time): (r: GetFileInformationResult)
    ensures Lookup(st, PathOf(filename)).None? <==> r.status == FileNotFound
    ensures r.status == Success ==> r.fileInfo.fileName == filename && r.fileInfo.lastAccessTime == Some(now)
    ensures r.status == Success ==>
      (r.fileInfo.attributes == DirectoryAttribute <==> Lookup(st, PathOf(filename)) == Some(Directory))
    ensures r.status != FileNotFound ==> r.status == Success
  {
    match Lookup(st, PathOf(filename))
    case None => FileInformationStatus(FileNotFound)
    case Some(Directory) =>
      GetFileInformationResult(Success, FileInformation(filename, DirectoryAttribute, None, Some(now), None, 0))
    case Some(File(data, lm)) =>
      GetFileInformationResult(Success, FileInformation(filename, NormalAttribute, ModifiedTime(lm), Some(now), ModifiedTime(lm), |data|))
  }

  /** A file's record carries its size and, when known, its modification time. */
  lemma FileInformationOfFile(st: Storage, filename: string, now: Time)
    requires Lookup(st, PathOf(filename)).Some? && Lookup(st, PathOf(filename)).value.File?
    ensures var n := Lookup(st, PathOf(filename)).value; var r := FileInformationOf(st, filename, now);
      r.status == Success && r.fileInfo.attributes == NormalAttribute && r.fileInfo.length == |n.data| &&
      r.fileInfo.lastWriteTime == r.fileInfo.creationTime &&
      (r.fileInfo.lastWriteTime.None? <==> n.lastModified == 0)
  {
  }

  // ---- Moving ----

  /** MoveFile on storage: the new storage and the answer. */
  function Moved(st: Storage, oldName: string, newName: string, now: int): (Storage, NtStatus)
  {
    var src := PathOf(oldName);
    var dst := PathOf(newName);
    match Lookup(st, src)
    case Some(File(data, _)) =>
      (match WriteFile(st, dst, data, now)
       case None => (st, NotImplemented)
       case Some(st1) =>
         match RemovePath(st1, src, false)
         case None => (st1, NotImplemented)
         case Some(st2) => (st2, Success))
    case Some(Directory) =>
      if Children(st, src) != {} then (st, NotImplemented)
      else
        (match MakeDirectories(st, dst)
         case None => (st, NotImplemented)
         case Some(st1) =>
           match RemovePath(st1, src, false)
           case None => (st1, NotImplemented)
           case Some(st2) => (st2, Success))
    case None => (st, NotImplemented)
  }

  /**
   * A file is moved by copying its bytes to the new name and removing the
   * old one; an empty directory by creating the new one and removing the old;
   * anything else is not implemented and leaves storage as it was.
   */
  lemma MoveRules(st: Storage, oldName: string, newName: string, now: int)
    ensures var src := PathOf(oldName); var dst := PathOf(newName); var (st', status) := Moved(st, oldName, newName, now);
      (Lookup(st, src).None? ==> st' == st && status == NotImplemented) &&
      (Lookup(st, src) == Some(Directory) && Children(st, src) != {} ==> st' == st && status == NotImplemented) &&
      (status == Success ==> Lookup(st', src) == None && src != []) &&
      (status == Success && Lookup(st, src).value.File? && !IsPrefix(src, dst) ==>
         Lookup(st', dst) == Some(File(Lookup(st, src).value.data, now))) &&
      (status == Success && Lookup(st, src) == Some(Directory) && !IsPrefix(src, dst) ==>
         Lookup(st', dst) == Some(Directory))
  {
    var src := PathOf(oldName);
    var dst := PathOf(newName);
    var (st', status) := Moved(st, oldName, newName, now);
    if status == Success && !IsPrefix(src, dst) {
      match Lookup(st, src)
      case Some(File(data, _)) =>
        var st1 := WriteFile(st, dst, data, now).value;
        RemoveKeepsOthers(st1, src, false, dst);
      case Some(Directory) =>
        var st1 := MakeDirectories(st, dst).value;
        RemoveKeepsOthers(st1, src, false, dst);
    }
  }

  /** Moving a file onto its own name answers Success and leaves no file there. */
  lemma MoveOntoItself(st: Storage, name: string, now: int)
    requires Lookup(st, PathOf(name)).Some? && Lookup(st, PathOf(name)).value.File?
    ensures Moved(st, name, name, now).1 == Success
    ensures Lookup(Moved(st, name, name, now).0, PathOf(name)) == None
  {
    var p := PathOf(name);
    VisibleParent(st, p);
    var st1 := WriteFile(st, p, Lookup(st, p).value.data, now).value;
    assert Lookup(st1, p).Some? && Lookup(st1, p).value.File?;
  }

  // ---- The provider ----

  /** Which operation is being traced. */
  datatype Operation = CreateFileOp | GetFileInformationOp | FindFilesOp | OtherOp

  class WebFSProvider {
    var storage: Storage
    var openFiles: OpenFiles

    constructor (initial: Storage)
      ensures storage == initial && openFiles == map[]
    {
      storage := initial;
      openFiles := map[];
    }

    /** CreateContext: registers (or replaces) the handle under its OpId. */
    method CreateContext(filename: string, access: FileAccess, share: FileShare, mode: FileMode,
                         options: FileOptions, attributes: FileAttributes, info: OpInfo) returns (ctx: OpenFileContext)
      modifies this
      ensures ctx == OpenFileContext(filename, access, share, mode, options, attributes, info, None)
      ensures openFiles == old(openFiles)[info.opId := ctx] && storage == old(storage)
    {
      ctx := OpenFileContext(filename, access, share, mode, options, attributes, info, None);
      openFiles := openFiles[info.opId := ctx];
    }

    /** GetContext: the handle registered under the info's OpId. */
    function GetContext(info: OpInfo): (r: Option<OpenFileContext>)
      reads this
      ensures r.Some? <==> info.opId in openFiles
      ensures r.Some? ==> r.value == openFiles[info.opId]
    {
      if info.opId in openFiles then Some(openFiles[info.opId]) else None
    }

    /** CloseContext: forget the handle, commit its stream, honour delete-on-close; unknown OpIds do nothing. */
    method CloseContext(opId: string, now: int)
      modifies this
      ensures opId !in old(openFiles) ==> storage == old(storage) && openFiles == old(openFiles)
      ensures opId in old(openFiles) ==>
        openFiles == old(openFiles) - {opId} && storage == AfterClose(old(storage), old(openFiles)[opId], now)
    {
      if opId in openFiles {
        var ctx := openFiles[opId];
        openFiles := openFiles - {opId};
        if ctx.stream.Some? {
          var s := ctx.stream.value;
          if Lookup(storage, s.path).Some? && Lookup(storage, s.path).value.File? {
            storage := storage[s.path := File(s.data, now)];
          }
        }
        if ctx.info.deleteOnClose {
          var removed := RemovePath(storage, PathOf(ctx.filename), true);
          if removed.Some? {
            storage := removed.value;
          }
        }
      }
    }

    /** Trace: a CreateFile that did not succeed closes its handle at once (Cleanup will not come). */
    method Trace(op: Operation, openFile: Option<OpenFileContext>, status: NtStatus, now: int)
      modifies this
      ensures op == CreateFileOp && openFile.Some? && status != Success && openFile.value.info.opId in old(openFiles) ==>
        openFiles == old(openFiles) - {openFile.value.info.opId} &&
        storage == AfterClose(old(storage), old(openFiles)[openFile.value.info.opId], now)
      ensures !(op == CreateFileOp && openFile.Some? && status != Success && openFile.value.info.opId in old(openFiles)) ==>
        openFiles == old(openFiles) && storage == old(storage)
    {
      if openFile.Some? && op == CreateFileOp && status != Success {
        CloseContext(openFile.value.info.opId, now);
      }
    }

    method Cleanup(filename: string, info: OpInfo, now: int)
      modifies this
      ensures openFiles == old(openFiles) - {info.opId}
      ensures info.opId in old(openFiles) ==> storage == AfterClose(old(storage), CleanupMark(old(openFiles)[info.opId], info), now)
      ensures info.opId !in old(openFiles) ==> storage == old(storage)
    {
      var ct := GetContext(info);
      if ct.Some? {
        if info.deleteOnClose && !ct.value.info.deleteOnClose {
          openFiles := openFiles[info.opId := ct.value.(info := ct.value.info.(deleteOnClose := true))];
        }
      }
      CloseContext(info.opId, now);
    }

    method CloseFile(filename: string, info: OpInfo, now: int)
      modifies this
      ensures openFiles == old(openFiles) - {info.opId}
      ensures info.opId in old(openFiles) ==> storage == AfterClose(old(storage), old(openFiles)[info.opId], now)
      ensures info.opId !in old(openFiles) ==> storage == old(storage)
    {
      CloseContext(info.opId, now);
    }

    /**
     * The part of CreateFile that does not depend on the table: register the
     * handle, carry out the decision's storage effect, and record the kind
     * found in the handle's info when the decision asks for it.
     */
    method Open(filename: string, access: FileAccess, share: FileShare, mode: FileMode,
                options: FileOptions, attributes: FileAttributes, info: OpInfo, d: CreateDecision, now: int)
      returns (ctx: OpenFileContext, r: CreateFileResult)
      modifies this
      ensures var (st1, res) := ApplyCreate(old(storage), PathOf(filename), d, now);
        r == res && storage == st1 &&
        ctx == OpenFileContext(filename, access, share, mode, options, attributes,
                               if d.markIsDirectory && res.status == Success then info.(isDirectory := res.isDirectory) else info, None) &&
        openFiles == old(openFiles)[info.opId := ctx]
    {
      ctx := CreateContext(filename, access, share, mode, options, attributes, info);
      var p := PathOf(filename);
      r := d.result;
      if d.effect == MakeDirectory {
        var made := MakeDirectories(storage, p);
        if made.None? {
          r := CreateFileStatus(Error);
        } else {
          storage := made.value;
        }
      } else if d.effect == WriteEmpty {
        var written := BrowserStorage.WriteFile(storage, p, [], now);
        if written.None? {
          r := CreateFileStatus(Error);
        } else {
          storage := written.value;
        }
      }
      if d.markIsDirectory && r.status == Success {
        ctx := ctx.(info := info.(isDirectory := r.isDirectory));
        openFiles := openFiles[info.opId := ctx];
      }
    }

    /**
     * CreateFile as the source has it: the as-written table, and a failed
     * open closes its handle through Trace, delete-on-close included.
     */
    method CreateFile(filename: string, access: FileAccess, share: FileShare, mode: FileMode,
                      options: FileOptions, attributes: FileAttributes, info: OpInfo, now: int) returns (r: CreateFileResult)
      modifies this
      ensures var p := PathOf(filename);
        var d := DecideCreateAsWritten(info.isDirectory, mode, Lookup(old(storage), p), access);
        var (st1, res) := ApplyCreate(old(storage), p, d, now);
        var ctx := OpenFileContext(filename, access, share, mode, options, attributes,
                                   if d.markIsDirectory && res.status == Success then info.(isDirectory := res.isDirectory) else info, None);
        r == res &&
        (r.status == Success ==> storage == st1 && openFiles == old(openFiles)[info.opId := ctx]) &&
        (r.status != Success ==> storage == AfterClose(st1, ctx, now) && openFiles == old(openFiles) - {info.opId})
    {
      var d := DecideCreateAsWritten(info.isDirectory, mode, Lookup(storage, PathOf(filename)), access);
      var ct;
      ct, r := Open(filename, access, share, mode, options, attributes, info, d, now);
      Trace(CreateFileOp, Some(ct), r.status, now);
    }

    /**
     * CreateFile corrected: the corrected table, and a failed open only
     * forgets its handle, so it never changes storage.
     */
    method CreateFileCorrected(filename: string, access: FileAccess, share: FileShare, mode: FileMode,
                               options: FileOptions, attributes: FileAttributes, info: OpInfo, now: int) returns (r: CreateFileResult)
      modifies this
      ensures var p := PathOf(filename);
        var d := DecideCreate(info.isDirectory, mode, Lookup(old(storage), p), access);
        var (st1, res) := ApplyCreate(old(storage), p, d, now);
        var ctx := OpenFileContext(filename, access, share, mode, options, attributes,
                                   if d.markIsDirectory && res.status == Success then info.(isDirectory := res.isDirectory) else info, None);
        r == res &&
        (r.status == Success ==> storage == st1 && openFiles == old(openFiles)[info.opId := ctx]) &&
        (r.status != Success ==> storage == old(storage) && openFiles == old(openFiles) - {info.opId})
    {
      var p := PathOf(filename);
      FailedCreateHasNoEffect(storage, p, info.isDirectory, mode, access, now);
      var d := DecideCreate(info.isDirectory, mode, Lookup(storage, p), access);
      var ct;
      ct, r := Open(filename, access, share, mode, options, attributes, info, d, now);
      if r.status != Success {
        openFiles := openFiles - {info.opId};
      }
    }

    method DeleteDirectory(filename: string, info: OpInfo) returns (r: DokanAsyncResult)
      modifies this
      ensures storage == old(storage)
      ensures info.opId !in old(openFiles) ==> r.status == Error && openFiles == old(openFiles)
      ensures info.opId in old(openFiles) ==> r.status == DeleteDirectoryCheck(Lookup(storage, PathOf(filename)))
      ensures info.opId in old(openFiles) && r.status == Success ==>
        openFiles == old(openFiles)[info.opId := old(openFiles)[info.opId].(info := old(openFiles)[info.opId].info.(deleteOnClose := info.deleteOnClose))]
      ensures r.status != Success ==> openFiles == old(openFiles)
    {
      var ct := GetContext(info);
      if ct.None? {
        return DokanAsyncResult(Error);
      }
      var status := DeleteDirectoryCheck(Lookup(storage, PathOf(filename)));
      if status == Success {
        openFiles := openFiles[info.opId := ct.value.(info := ct.value.info.(deleteOnClose := info.deleteOnClose))];
      }
      r := DokanAsyncResult(status);
    }

    /** DeleteFile only checks and records the request; the file goes at close. */
    method DeleteFile(filename: string, info: OpInfo) returns (r: DokanAsyncResult)
      modifies this
      ensures storage == old(storage)
      ensures info.opId !in old(openFiles) ==> r.status == Error && openFiles == old(openFiles)
      ensures info.opId in old(openFiles) ==> r.status == DeleteFileCheck(Lookup(storage, PathOf(filename)))
      ensures info.opId in old(openFiles) && r.status == Success ==>
        openFiles == old(openFiles)[info.opId := old(openFiles)[info.opId].(info := old(openFiles)[info.opId].info.(deleteOnClose := info.deleteOnClose))]
      ensures r.status != Success ==> openFiles == old(openFiles)
    {
      var ct := GetContext(info);
      if ct.None? {
        return DokanAsyncResult(Error);
      }
      var status := DeleteFileCheck(Lookup(storage, PathOf(filename)));
      if status == Success {
        openFiles := openFiles[info.opId := ct.value.(info := ct.value.info.(deleteOnClose := info.deleteOnClose))];
      }
      r := DokanAsyncResult(status);
    }

    /** ReadFile: needs the handle; reads the committed content of the named file. */
    function ReadFile(filename: string, offset: int, maxCount: int, info: OpInfo): (r: ReadFileResult)
      reads this
      ensures info.opId !in openFiles ==> r == ReadFileStatus(Error)
      ensures r.status == Success ==>
        info.opId in openFiles && Lookup(storage, PathOf(filename)).Some? && Lookup(storage, PathOf(filename)).value.File? &&
        r.data == ReadBytes(Lookup(storage, PathOf(filename)).value.data, offset, maxCount)
      ensures r.status == Success || r == ReadFileStatus(Error)
      ensures info.opId in openFiles && Lookup(storage, PathOf(filename)).Some? && Lookup(storage, PathOf(filename)).value.File?
              && ReadBytes(Lookup(storage, PathOf(filename)).value.data, offset, maxCount).Some? ==>
        r == ReadFileResult(Success, ReadBytes(Lookup(storage, PathOf(filename)).value.data, offset, maxCount))
    {
      if info.opId !in openFiles then ReadFileStatus(Error)
      else
        match Lookup(storage, PathOf(filename))
        case Some(File(data, _)) =>
          (match ReadBytes(data, offset, maxCount)
           case None => ReadFileStatus(Error)
           case Some(bytes) => ReadFileResult(Success, Some(bytes)))
        case _ => ReadFileStatus(Error)
    }

    /** WriteFile: the first write of a handle opens a stream on the file's current content; each write goes into it. */
    method WriteFile(filename: string, buffer: seq<byte>, offset: int, info: OpInfo) returns (r: WriteFileResult)
      modifies this
      ensures storage == old(storage)
      ensures info.opId !in old(openFiles) ==> r == WriteFileStatus(Error) && openFiles == old(openFiles)
      ensures info.opId in old(openFiles) ==>
        var ctx := old(openFiles)[info.opId];
        var p := PathOf(filename);
        var staged := if ctx.stream.Some? then ctx.stream
                      else if Lookup(storage, p).Some? && Lookup(storage, p).value.File?
                      then Some(StagedStream(p, Lookup(storage, p).value.data)) else None;
        (staged.None? ==> r == WriteFileStatus(Error) && openFiles == old(openFiles)) &&
        (staged.Some? && offset < 0 ==> r == WriteFileStatus(Error) && openFiles == old(openFiles)[info.opId := ctx.(stream := staged)]) &&
        (staged.Some? && offset >= 0 ==>
          (r == WriteFileResult(Success, |buffer|) &&
           openFiles == old(openFiles)[info.opId := ctx.(stream := Some(staged.value.(data := WriteAt(staged.value.data, offset, buffer))))]))
    {
      var ct := GetContext(info);
      if ct.None? {
        return WriteFileStatus(Error);
      }
      var ctx := ct.value;
      var str := ctx.stream;
      if str.None? {
        var p := PathOf(filename);
        var handle := Lookup(storage, p);
        if handle.None? || !handle.value.File? {
          return WriteFileStatus(Error);
        }
        str := Some(StagedStream(p, handle.value.data));
        ctx := ctx.(stream := str);
        openFiles := openFiles[info.opId := ctx];
      }
      if offset < 0 {
        return WriteFileStatus(Error);
      }
      ctx := ctx.(stream := Some(str.value.(data := WriteAt(str.value.data, offset, buffer))));
      openFiles := openFiles[info.opId := ctx];
      r := WriteFileResult(Success, |buffer|);
    }

    method SetEndOfFile(filename: string, length: int, info: OpInfo, now: int) returns (r: DokanAsyncResult)
      modifies this
      ensures openFiles == old(openFiles)
      ensures info.opId !in openFiles ==> r.status == Error && storage == old(storage)
      ensures info.opId in openFiles ==>
        match Resized(old(storage), filename, length, now)
        case None => r.status == Error && storage == old(storage)
        case Some(st) => r.status == Success && storage == st
    {
      r := Resize(filename, length, info, now);
    }

    method SetAllocationSize(filename: string, length: int, info: OpInfo, now: int) returns (r: DokanAsyncResult)
      modifies this
      ensures openFiles == old(openFiles)
      ensures info.opId !in openFiles ==> r.status == Error && storage == old(storage)
      ensures info.opId in openFiles ==>
        match Resized(old(storage), filename, length, now)
        case None => r.status == Error && storage == old(storage)
        case Some(st) => r.status == Success && storage == st
    {
      r := Resize(filename, length, info, now);
    }

    /** The body SetEndOfFile and SetAllocationSize share. */
    method Resize(filename: string, length: int, info: OpInfo, now: int) returns (r: DokanAsyncResult)
      modifies this
      ensures openFiles == old(openFiles)
      ensures info.opId !in openFiles ==> r.status == Error && storage == old(storage)
      ensures info.opId in openFiles ==>
        match Resized(old(storage), filename, length, now)
        case None => r.status == Error && storage == old(storage)
        case Some(st) => r.status == Success && storage == st
    {
      if info.opId !in openFiles {
        return DokanAsyncResult(Error);
      }
      var resized := Resized(storage, filename, length, now);
      if resized.None? {
        return DokanAsyncResult(Error);
      }
      storage := resized.value;
      r := DokanAsyncResult(Success);
    }

    /**
     * FindFiles: with a handle on a directory, one entry per subdirectory
     * followed by one entry per file; in every other case an empty listing.
     */
    method FindFiles(filename: string, info: OpInfo, now: Time) returns (r: FindFilesResult)
      ensures r.status == Success && r.files.Some?
      ensures info.opId !in openFiles || Lookup(storage, PathOf(filename)) != Some(Directory) ==> r.files.value == []
      ensures info.opId in openFiles && Lookup(storage, PathOf(filename)) == Some(Directory) ==>
        var p := PathOf(filename);
        var fs := r.files.value;
        var nd := |SubDirectories(storage, p)|;
        nd + |SubFiles(storage, p)| == |fs| &&
        (forall i :: 0 <= i < nd ==> fs[i].fileName in SubDirectories(storage, p) && fs[i] == DirectoryEntry(fs[i].fileName, now)) &&
        (forall i :: nd <= i < |fs| ==>
           (fs[i].fileName in SubFiles(storage, p) &&
            fs[i] == FileEntry(fs[i].fileName, |storage[p + [fs[i].fileName]].data|, now))) &&
        (forall i, j :: 0 <= i < j < |fs| ==> fs[i].fileName != fs[j].fileName)
    {
      var files: seq<FileInformation> := [];
      if info.opId in openFiles && Lookup(storage, PathOf(filename)) == Some(Directory) {
        var p := PathOf(filename);
        var ds := DirectoryEntries(SubDirectories(storage, p), now);
        var fs := FileEntries(storage, p, now);
        files := ds + fs;
        assert forall i :: |ds| <= i < |files| ==> files[i] == fs[i - |ds|];
      }
      r := FindFilesResult(Success, Some(files));
    }

    /** GetFileInformation: answered from storage (Trace has nothing to do for it). */
    function GetFileInformation(filename: string, info: OpInfo, now: Time): (r: GetFileInformationResult)
      reads this
      ensures Lookup(storage, PathOf(filename)).None? <==> r.status == FileNotFound
      ensures r.status == Success ==> r.fileInfo.fileName == filename
    {
      FileInformationOf(storage, filename, now)
    }

    method MoveFile(oldName: string, newName: string, replace: bool, info: OpInfo, now: int) returns (r: DokanAsyncResult)
      modifies this
      ensures openFiles == old(openFiles)
      ensures storage == Moved(old(storage), oldName, newName, now).0
      ensures r.status == Moved(old(storage), oldName, newName, now).1
    {
      var moved := Moved(storage, oldName, newName, now);
      storage := moved.0;
      r := DokanAsyncResult(moved.1);
    }
  }

  /** The first loop of FindFiles: one directory entry per name, each name once. */
  method DirectoryEntries(dirs: set<string>, now: Time) returns (fs: seq<FileInformation>)
    ensures |fs| == |dirs|
    ensures forall i :: 0 <= i < |fs| ==> fs[i].fileName in dirs && fs[i] == DirectoryEntry(fs[i].fileName, now)
    ensures forall i, j :: 0 <= i < j < |fs| ==> fs[i].fileName != fs[j].fileName
  {
    fs := [];
    var pending := dirs;
    while pending != {}
      invariant pending <= dirs
      invariant |fs| + |pending| == |dirs|
      invariant forall i :: 0 <= i < |fs| ==> fs[i].fileName in dirs - pending && fs[i] == DirectoryEntry(fs[i].fileName, now)
      invariant forall i, j :: 0 <= i < j < |fs| ==> fs[i].fileName != fs[j].fileName
      decreases |pending|
    {
      var n :| n in pending;
      fs := fs + [DirectoryEntry(n, now)];
      pending := pending - {n};
    }
  }

  /** The second loop of FindFiles: one entry per file below p, with its size, each name once. */
  method FileEntries(st: Storage, p: Path, now: Time) returns (fs: seq<FileInformation>)
    ensures |fs| == |SubFiles(st, p)|
    ensures forall i :: 0 <= i < |fs| ==>
      fs[i].fileName in SubFiles(st, p) && fs[i] == FileEntry(fs[i].fileName, |st[p + [fs[i].fileName]].data|, now)
    ensures forall i, j :: 0 <= i < j < |fs| ==> fs[i].fileName != fs[j].fileName
  {
    fs := [];
    var regular := SubFiles(st, p);
    var pending := regular;
    while pending != {}
      invariant pending <= regular
      invariant |fs| + |pending| == |regular|
      invariant forall i :: 0 <= i < |fs| ==>
        fs[i].fileName in regular - pending && fs[i] == FileEntry(fs[i].fileName, |st[p + [fs[i].fileName]].data|, now)
      invariant forall i, j :: 0 <= i < j < |fs| ==> fs[i].fileName != fs[j].fileName
      decreases |pending|
    {
      var n :| n in pending;
      fs := fs + [FileEntry(n, |st[p + [n]].data|, now)];
      pending := pending - {n};
    }
  }

  // ---- Operations the demo does not support ----

  function FindFilesWithPattern(filename: string, pattern: string, info: OpInfo): FindFilesResult { FindFilesStatus(NotImplemented) }
  function FlushFileBuffers(filename: string, info: OpInfo): DokanAsyncResult { DokanAsyncResult(NotImplemented) }
  function LockFile(filename: string, offset: int, length: int, info: OpInfo): DokanAsyncResult { DokanAsyncResult(NotImplemented) }
  function UnlockFile(filename: string, offset: int, length: int, info: OpInfo): DokanAsyncResult { DokanAsyncResult(NotImplemented) }
  function SetFileAttributes(filename: string, attributes: FileAttributes, info: OpInfo): DokanAsyncResult { DokanAsyncResult(NotImplemented) }
  function SetFileTime(filename: string, c: Option<Time>, a: Option<Time>, w: Option<Time>, info: OpInfo): DokanAsyncResult
  {
    DokanAsyncResult(NotImplemented)
  }

  /** The members that throw NotImplementedException. */
  const NotImplementedException := "NotImplementedException"
  function GetFileSecurity(filename: string, info: OpInfo): Result<GetFileSecurityResult, string> { Err(NotImplementedException) }
  function SetFileSecurity(filename: string, sd: SecurityDescriptor, info: OpInfo): Result<DokanAsyncResult, string> { Err(NotImplementedException) }
  function FindStreams(filename: string, info: OpInfo): Result<FindStreamsResult, string> { Err(NotImplementedException) }
  function GetDiskFreeSpace(info: OpInfo): Result<GetDiskFreeSpaceResult, string> { Err(NotImplementedException) }
  function GetVolumeInformation(info: OpInfo): Result<GetVolumeInformationResult, string> { Err(NotImplementedException) }
  function Mounted(mountPoint: string, info: OpInfo): Result<DokanAsyncResult, string> { Err(NotImplementedException) }
  function Unmounted(info: OpInfo): Result<DokanAsyncResult, string> { Err(NotImplementedException) }

  /** The unsupported members answer NotImplemented or throw, whatever they are given. */
  lemma UnsupportedOperations(filename: string, pattern: string, offset: int, length: int, a: FileAttributes,
                              t: Option<Time>, sd: SecurityDescriptor, info: OpInfo)
    ensures FindFilesWithPattern(filename, pattern, info).status == NotImplemented
    ensures FlushFileBuffers(filename, info).status == NotImplemented
    ensures LockFile(filename, offset, length, info).status == NotImplemented
    ensures UnlockFile(filename, offset, length, info).status == NotImplemented
    ensures SetFileAttributes(filename, a, info).status == NotImplemented
    ensures SetFileTime(filename, t, t, t, info).status == NotImplemented
    ensures GetFileSecurity(filename, info).Err? && SetFileSecurity(filename, sd, info).Err?
    ensures FindStreams(filename, info).Err? && GetDiskFreeSpace(info).Err? && GetVolumeInformation(info).Err?
    ensures Mounted(filename, info).Err? && Unmounted(info).Err?
  {
  }
}
