// AsyncDokanFileInfo: the per-handle record that carries an OpId, attached
// to the kernel's DokanFileInfo on first use.
module FileInfo {
  import opened DokanTypes

  /** The kernel's per-handle information (IDokanFileInfo): three flags and a context slot. */
  class DokanFileInfo {
    var context: AsyncDokanFileInfo?
    var writeToEndOfFile: bool
    var isDirectory: bool
    var deleteOnClose: bool

    constructor (writeToEndOfFile: bool, isDirectory: bool, deleteOnClose: bool)
      ensures context == null
      ensures this.writeToEndOfFile == writeToEndOfFile && this.isDirectory == isDirectory
      ensures this.deleteOnClose == deleteOnClose
    {
      context := null;
      this.writeToEndOfFile := writeToEndOfFile;
      this.isDirectory := isDirectory;
      this.deleteOnClose := deleteOnClose;
    }
  }

  class AsyncDokanFileInfo {
    var writeToEndOfFile: bool
    var isDirectory: bool
    var deleteOnClose: bool
    /** Init-only: fixed when the object is created. */
    const opId: string

    constructor (opId: string, writeToEndOfFile: bool, isDirectory: bool, deleteOnClose: bool)
      ensures this.opId == opId && this.writeToEndOfFile == writeToEndOfFile
      ensures this.isDirectory == isDirectory && this.deleteOnClose == deleteOnClose
    {
      this.opId := opId;
      this.writeToEndOfFile := writeToEndOfFile;
      this.isDirectory := isDirectory;
      this.deleteOnClose := deleteOnClose;
    }

    /** The value handed to the asynchronous operations. */
    function Snapshot(): (s: OpInfo)
      reads this
      ensures s.opId == opId && s.writeToEndOfFile == writeToEndOfFile
      ensures s.isDirectory == isDirectory && s.deleteOnClose == deleteOnClose
    {
      OpInfo(opId, writeToEndOfFile, isDirectory, deleteOnClose)
    }

    /**
     * From: the object already attached to `info`, untouched; otherwise a new
     * one with `freshId` (Guid.NewGuid) and the kernel's flags, attached.
     */
    static method From(info: DokanFileInfo, freshId: string) returns (op: AsyncDokanFileInfo)
      modifies info
      ensures info.context == op
      ensures old(info.context) != null ==> op == old(info.context) && unchanged(op)
      ensures old(info.context) == null ==>
        fresh(op) && op.Snapshot() == OpInfo(freshId, info.writeToEndOfFile, info.isDirectory, info.deleteOnClose)
      ensures info.writeToEndOfFile == old(info.writeToEndOfFile) && info.isDirectory == old(info.isDirectory)
      ensures info.deleteOnClose == old(info.deleteOnClose)
    {
      var attached := info.context;
      if attached == null {
        op := new AsyncDokanFileInfo(freshId, info.writeToEndOfFile, info.isDirectory, info.deleteOnClose);
        info.context := op;
      } else {
        op := attached;
      }
    }
  }
}
