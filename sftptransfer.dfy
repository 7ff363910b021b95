/**
 * The file transfers of pkg/sftp/commands.go: `get` and `put`, the single-file download and
 * upload with their clean-up of a partial destination, and the per-file loop of a directory
 * transfer that counts what succeeded, records what failed and stops when cancelled.
 *
 * What each step of a transfer returns (opening, stat, create, the copy, sync, close, and
 * whether the context has been cancelled at each point where the code looks) is given in
 * advance; the destination file system is a `Disk` whose sets of files and directories the
 * transfer changes.
 */
module SftpTransfer {
  import opened Wrappers
  import GoPath
  import SftpPath
  import SftpScan
  import SftpDispatch

  /** What `io.CopyBuffer` returns: the bytes written, or an error (that error is `context.Canceled` or another). */
  datatype Copy = Copied(written: int) | CopyError(canceled: bool)

  /** The results of the steps of one single-file transfer, in the order the code takes them. */
  datatype Steps = Steps(
    cancelledAtStart: bool,   // `ctx.Done()` at the select before opening
    openOk: bool,             // opening the source
    statOk: bool,             // `srcFile.Stat()`
    size: int,                // the size that stat reports
    createOk: bool,           // creating the destination
    copy: Copy,
    syncOk: bool,             // `dstFile.Sync()` (downloads only)
    closeOk: bool,            // the explicit `dstFile.Close()`
    cancelledAtExit: bool,    // `ctx.Err() == context.Canceled` when the deferred clean-up runs
    removeOk: bool)           // removing the destination succeeds (the code ignores that error)

  /** The steps reach the creation of the destination, and it succeeds. */
  predicate Created(s: Steps) {
    !s.cancelledAtStart && s.openOk && s.statOk && s.createOk
  }

  datatype TransferError =
    | Canceled                               // context.Canceled
    | OpenFailed                             // "open remote/local: ..."
    | StatFailed                             // "stat remote/local: ..." of the source file
    | CreateFailed                           // "create local/remote: ..."
    | CopyFailed                             // "copy file: ..." / "upload: ..."
    | Incomplete(got: int, expected: int)    // "incomplete download/upload: ..."
    | SyncFailed                             // "sync file: ..."
    | CloseFailed                            // "close file: ..." / "close remote file: ..."
    | CmdFailed(e: SftpDispatch.CmdError)    // usage, "resolve remote: ...", "resolve local: ..."
    | PathStatFailed                         // "stat remote: ..." / "stat local: ..." in get/put
    | ScanFailed(scan: SftpScan.ScanError)   // "scan remote/local directory: ..."
    | NotADirectory(path: string)            // "remote path '...' already exists and is not a directory"
    | MkdirFailed(path: string)              // "create local/remote directory: ..."
    | FilesFailed(count: nat)                // "<n> files failed to download/upload"

  /** What becomes of the destination path. */
  datatype Fate = Untouched | Kept | Removed

  datatype FileResult = FileResult(err: Option<TransferError>, fate: Fate)

  /** The destination after an attempt to remove it, whose error the code ignores. */
  function RemovalFate(removeOk: bool): Fate {
    if removeOk then Removed else Kept
  }

  /** The set of files after a transfer's effect on the destination `p`. */
  function Applied(fs: set<string>, p: string, fate: Fate): set<string> {
    match fate
    case Untouched => fs
    case Kept => fs + {p}
    case Removed => fs - {p}
  }

  // ---------------------------------------------------------------- single files

  /** The download's error once the local file exists: copy, byte count, sync, close. */
  function DownloadAfterCreate(s: Steps): Option<TransferError> {
    match s.copy
    case CopyError(_) => Some(CopyFailed)
    case Copied(n) =>
      if n != s.size then Some(Incomplete(n, s.size))
      else if !s.syncOk then Some(SyncFailed)
      else if !s.closeOk then Some(CloseFailed)
      else None
  }

  /**
   * `downloadSingleFile` and `downloadSingleFileWithPrefix` once the destination is fixed.
   * Every failure after the local file is created tries to remove it, and so does the
   * deferred clean-up when the context is cancelled by then; a failed removal leaves it.
   */
  function DownloadResult(s: Steps): (r: FileResult)
    ensures r.fate == Untouched <==> !Created(s)
    ensures !Created(s) ==> r.err.Some?
    ensures r.fate == Removed ==> s.removeOk
    ensures r.err.None? && !s.cancelledAtExit ==> r.fate == Kept
  {
    if s.cancelledAtStart then FileResult(Some(Canceled), Untouched)
    else if !s.openOk then FileResult(Some(OpenFailed), Untouched)
    else if !s.statOk then FileResult(Some(StatFailed), Untouched)
    else if !s.createOk then FileResult(Some(CreateFailed), Untouched)
    else
      var e := DownloadAfterCreate(s);
      FileResult(e, if e.Some? || s.cancelledAtExit then RemovalFate(s.removeOk) else Kept)
  }

  /** The upload's error once the remote file exists, and whether that path removes it. */
  function UploadAfterCreate(s: Steps): (Option<TransferError>, bool) {
    match s.copy
    case CopyError(canceled) => if canceled then (Some(Canceled), false) else (Some(CopyFailed), true)
    case Copied(n) =>
      if n != s.size then (Some(Incomplete(n, s.size)), true)
      else if !s.closeOk then (Some(CloseFailed), false)
      else (None, false)
  }

  /**
   * `uploadSingleFile` and `uploadSingleFileWithPrefix` once the destination is fixed. A
   * cancelled copy and a failed close return without removing the remote file; only the
   * deferred clean-up, when the context is cancelled by then, tries to remove it on those
   * paths. A failed removal leaves the file.
   */
  function UploadResult(s: Steps): (r: FileResult)
    ensures r.fate == Untouched <==> !Created(s)
    ensures !Created(s) ==> r.err.Some?
    ensures r.fate == Removed ==> s.removeOk
    ensures r.err.None? && !s.cancelledAtExit ==> r.fate == Kept
  {
    if s.cancelledAtStart then FileResult(Some(Canceled), Untouched)
    else if !s.openOk then FileResult(Some(OpenFailed), Untouched)
    else if !s.statOk then FileResult(Some(StatFailed), Untouched)
    else if !s.createOk then FileResult(Some(CreateFailed), Untouched)
    else
      var (e, remove) := UploadAfterCreate(s);
      FileResult(e, if remove || s.cancelledAtExit then RemovalFate(s.removeOk) else Kept)
  }

  /** `downloadSingleFile`'s destination: into the local path, or under it when it is a directory. */
  function DownloadDest(remotePath: string, localPath: string, localIsDir: bool): string {
    if localIsDir then GoPath.Join2(localPath, GoPath.Base(remotePath)) else localPath
  }

  /** The upload's destination: the remote path, or under it when it is a directory. */
  function UploadDest(localPath: string, remotePath: string, remoteIsDir: bool): string {
    if remoteIsDir then SftpPath.JoinPath(remotePath, GoPath.Base(localPath)) else remotePath
  }

  /** The destination file system: its files and its directories. */
  class Disk {
    var files: set<string>
    var dirs: set<string>

    constructor (files: set<string>, dirs: set<string>)
      ensures this.files == files && this.dirs == dirs
    {
      this.files := files;
      this.dirs := dirs;
    }
  }

  /** `os.Remove` / `client.Remove` of a path whose error is ignored: the path is gone only if it succeeds. */
  method Remove(disk: Disk, path: string, ok: bool)
    modifies disk`files
    ensures disk.files == if ok then old(disk.files) - {path} else old(disk.files)
  {
    if ok {
      disk.files := disk.files - {path};
    }
  }

  /** The deferred clean-up of a transfer: try to remove the destination if the context is cancelled. */
  method DeferredCleanup(disk: Disk, path: string, cancelled: bool, removeOk: bool)
    modifies disk`files
    ensures disk.files == if cancelled && removeOk then old(disk.files) - {path} else old(disk.files)
  {
    if cancelled {
      Remove(disk, path, removeOk);
    }
  }

  /** `downloadSingleFileWithPrefix`: the download steps into `localPath` as given. */
  method DownloadSingleFileWithPrefix(disk: Disk, remotePath: string, localPath: string, s: Steps)
    returns (err: Option<TransferError>)
    modifies disk`files
    ensures err == DownloadResult(s).err
    ensures disk.files == Applied(old(disk.files), localPath, DownloadResult(s).fate)
  {
    if s.cancelledAtStart {
      return Some(Canceled);
    }
    if !s.openOk {
      return Some(OpenFailed);
    }
    if !s.statOk {
      return Some(StatFailed);
    }
    if !s.createOk {
      return Some(CreateFailed);
    }
    disk.files := disk.files + {localPath};
    match s.copy {
      case CopyError(_) =>
        Remove(disk, localPath, s.removeOk);
        err := Some(CopyFailed);
      case Copied(written) =>
        if written != s.size {
          Remove(disk, localPath, s.removeOk);
          err := Some(Incomplete(written, s.size));
        } else if !s.syncOk {
          Remove(disk, localPath, s.removeOk);
          err := Some(SyncFailed);
        } else if !s.closeOk {
          Remove(disk, localPath, s.removeOk);
          err := Some(CloseFailed);
        } else {
          err := None;
        }
    }
    DeferredCleanup(disk, localPath, s.cancelledAtExit, s.removeOk);
  }

  /**
   * `downloadSingleFile`: when the local path is a directory the file goes under it with the
   * remote base name; the steps are those of `downloadSingleFileWithPrefix`.
   */
  method DownloadSingleFile(disk: Disk, remotePath: string, localPath: string, localIsDir: bool, s: Steps)
    returns (err: Option<TransferError>)
    modifies disk`files
    ensures err == DownloadResult(s).err
    ensures disk.files == Applied(old(disk.files), DownloadDest(remotePath, localPath, localIsDir), DownloadResult(s).fate)
  {
    var dest := localPath;
    if localIsDir {
      dest := GoPath.Join2(localPath, GoPath.Base(remotePath));
    }
    err := DownloadSingleFileWithPrefix(disk, remotePath, dest, s);
  }

  /**
   * `uploadSingleFile` and `uploadSingleFileWithPrefix` (the same steps): when the remote path
   * is a directory the file goes under it with the local base name.
   */
  method UploadSingleFile(disk: Disk, localPath: string, remotePath: string, remoteIsDir: bool, s: Steps)
    returns (err: Option<TransferError>)
    modifies disk`files
    ensures err == UploadResult(s).err
    ensures disk.files == Applied(old(disk.files), UploadDest(localPath, remotePath, remoteIsDir), UploadResult(s).fate)
  {
    var dest := remotePath;
    if remoteIsDir {
      dest := SftpPath.JoinPath(remotePath, GoPath.Base(localPath));
    }
    if s.cancelledAtStart {
      return Some(Canceled);
    }
    if !s.openOk {
      return Some(OpenFailed);
    }
    if !s.statOk {
      return Some(StatFailed);
    }
    if !s.createOk {
      return Some(CreateFailed);
    }
    disk.files := disk.files + {dest};
    match s.copy {
      case CopyError(canceled) =>
        if canceled {
          err := Some(Canceled);
        } else {
          Remove(disk, dest, s.removeOk);
          err := Some(CopyFailed);
        }
      case Copied(written) =>
        if written != s.size {
          Remove(disk, dest, s.removeOk);
          err := Some(Incomplete(written, s.size));
        } else if !s.closeOk {
          err := Some(CloseFailed);
        } else {
          err := None;
        }
    }
    DeferredCleanup(disk, dest, s.cancelledAtExit, s.removeOk);
  }

  /**
   * A downloaded file is kept when every step succeeded and the transfer was not cancelled
   * at the end; otherwise only when it was created and removing it failed.
   */
  lemma DownloadKeepsOnlyComplete(s: Steps)
    ensures DownloadResult(s).fate == Kept <==>
      (DownloadResult(s).err.None? && !s.cancelledAtExit) || (Created(s) && !s.removeOk)
    ensures DownloadResult(s).err.None? <==> Created(s) && s.copy == Copied(s.size) && s.syncOk && s.closeOk
  {
  }

  /**
   * A failed download that created the local file tries to remove it: afterwards there is no
   * file at the destination (even when one of that name was there before) exactly when the
   * removal succeeded, and the partial file otherwise. A failure before the create touches nothing.
   */
  lemma DownloadFailureCleansUp(s: Steps, before: set<string>, p: string)
    requires DownloadResult(s).err.Some?
    ensures !Created(s) ==> Applied(before, p, DownloadResult(s).fate) == before
    ensures Created(s) ==>
      Applied(before, p, DownloadResult(s).fate) == if s.removeOk then before - {p} else before + {p}
  {
  }

  /**
   * An upload that failed keeps a (partial) remote file exactly when it created one and either
   * removing it failed, or the copy reported cancellation or the final close failed and the
   * context was not cancelled at the end.
   */
  lemma UploadKeepsPartial(s: Steps)
    ensures UploadResult(s).err.Some? && UploadResult(s).fate == Kept <==>
      Created(s) && (s.copy != Copied(s.size) || !s.closeOk) &&
      (!s.removeOk || (!s.cancelledAtExit && (s.copy == CopyError(true) || (s.copy == Copied(s.size) && !s.closeOk))))
    ensures UploadResult(s).err.None? <==> Created(s) && s.copy == Copied(s.size) && s.closeOk
  {
  }

  /**
   * A cancellation stays visible: when the copy stops because the context was cancelled, the
   * deferred clean-up sees the context cancelled too.
   */
  predicate CancelPersists(s: Steps) {
    s.copy == CopyError(true) ==> s.cancelledAtExit
  }

  /**
   * With cancellation permanent, an upload that failed keeps a remote file exactly when it
   * created one and either removing it failed, or the copy completed but the close failed
   * with no cancellation at exit.
   */
  lemma UploadKeepsPartialWhenCancelPersists(s: Steps)
    requires CancelPersists(s)
    ensures UploadResult(s).err.Some? && UploadResult(s).fate == Kept <==>
      Created(s) && (s.copy != Copied(s.size) || !s.closeOk) &&
      (!s.removeOk || (!s.cancelledAtExit && s.copy == Copied(s.size) && !s.closeOk))
  {
    UploadKeepsPartial(s);
  }

  /** Cancellation before a single-file transfer starts returns `Canceled` and touches nothing. */
  lemma CancelledBeforeStart(s: Steps)
    requires s.cancelledAtStart
    ensures DownloadResult(s) == FileResult(Some(Canceled), Untouched)
    ensures UploadResult(s) == FileResult(Some(Canceled), Untouched)
  {
  }

  // ---------------------------------------------------------------- directory transfers

  datatype Direction = Down | Up

  /** The loop's counters: files transferred, their bytes, and the relative paths that failed. */
  datatype Tally = Tally(count: nat, bytes: int, failed: seq<string>)

  /** The per-file answers of a directory transfer, by the file's position in the list. */
  datatype PerFile = PerFile(
    cancelled: nat -> bool,   // `ctx.Done()` at the loop's select before file i
    mkdirOk: nat -> bool,     // `MkdirAll` of file i's parent directory
    destIsDir: nat -> bool,   // uploads: file i's remote path is a directory
    steps: nat -> Steps)      // the single-file transfer of file i

  /** The parent directory the loop creates for a file. */
  function ParentDir(d: Direction, localPath: string, remotePath: string, rel: string): string {
    match d
    case Down => GoPath.Dir(GoPath.Join2(localPath, rel))
    case Up => GoPath.Dir(SftpPath.JoinPath(remotePath, rel))
  }

  /** Where file i of the list ends up. */
  function FileDest(d: Direction, localPath: string, remotePath: string, rel: string, o: PerFile, i: nat): string {
    match d
    case Down => GoPath.Join2(localPath, rel)
    case Up => UploadDest(GoPath.Join2(localPath, rel), SftpPath.JoinPath(remotePath, rel), o.destIsDir(i))
  }

  function FileStep(d: Direction, s: Steps): FileResult {
    match d
    case Down => DownloadResult(s)
    case Up => UploadResult(s)
  }

  /** File i is recorded as failed: its parent directory could not be made, or its transfer failed. */
  predicate Fails(d: Direction, o: PerFile, i: nat) {
    !o.mkdirOk(i) || FileStep(d, o.steps(i)).err.Some?
  }

  /** The destination's files after file i. */
  function FilesAfter(d: Direction, localPath: string, remotePath: string, rel: string, o: PerFile, i: nat, fs: set<string>): set<string> {
    if !o.mkdirOk(i) then fs else Applied(fs, FileDest(d, localPath, remotePath, rel, o, i), FileStep(d, o.steps(i)).fate)
  }

  /** The destination's directories after file i. */
  function DirsAfter(d: Direction, localPath: string, remotePath: string, rel: string, o: PerFile, i: nat, ds: set<string>): set<string> {
    if !o.mkdirOk(i) then ds else ds + {ParentDir(d, localPath, remotePath, rel)}
  }

  /** The counters after a file: counted with its size, or its relative path recorded as failed. */
  function Counted(t: Tally, f: SftpScan.FileInfo, failed: bool): Tally {
    if failed then Tally(t.count, t.bytes, t.failed + [f.relPath]) else Tally(t.count + 1, t.bytes + f.size, t.failed)
  }

  /** Where the loop stopped: its counters, the destination's files and directories, and whether it was cancelled. */
  datatype LoopEnd = LoopEnd(tally: Tally, files: set<string>, dirs: set<string>, canceled: bool)

  /**
   * The shape of the per-file loop, for any per-file effect: `fails(i)` says whether file i
   * is recorded as failed, and `fx` and `dx` give the destination's files and directories
   * after the file with that relative path at position i.
   */
  function Loop(files: seq<SftpScan.FileInfo>, cancelled: nat -> bool, fails: nat -> bool,
                fx: (string, nat, set<string>) -> set<string>, dx: (string, nat, set<string>) -> set<string>,
                i: nat, t: Tally, fs: set<string>, ds: set<string>): LoopEnd
    requires i <= |files|
    decreases |files| - i
  {
    if i == |files| then LoopEnd(t, fs, ds, false)
    else if cancelled(i) then LoopEnd(t, fs, ds, true)
    else
      var rel := files[i].relPath;
      Loop(files, cancelled, fails, fx, dx, i + 1, Counted(t, files[i], fails(i)), fx(rel, i, fs), dx(rel, i, ds))
  }

  function StepFails(d: Direction, o: PerFile): nat -> bool {
    (i: nat) => Fails(d, o, i)
  }

  function StepFiles(d: Direction, localPath: string, remotePath: string, o: PerFile): (string, nat, set<string>) -> set<string> {
    (rel: string, i: nat, fs: set<string>) => FilesAfter(d, localPath, remotePath, rel, o, i, fs)
  }

  function StepDirs(d: Direction, localPath: string, remotePath: string, o: PerFile): (string, nat, set<string>) -> set<string> {
    (rel: string, i: nat, ds: set<string>) => DirsAfter(d, localPath, remotePath, rel, o, i, ds)
  }

  /** The per-file loop of `downloadDirectory` / `uploadDirectory` from file i on. */
  function FilesLoop(d: Direction, localPath: string, remotePath: string, files: seq<SftpScan.FileInfo>, o: PerFile,
                     i: nat, t: Tally, fs: set<string>, ds: set<string>): LoopEnd
    requires i <= |files|
  {
    Loop(files, o.cancelled, StepFails(d, o), StepFiles(d, localPath, remotePath, o), StepDirs(d, localPath, remotePath, o), i, t, fs, ds)
  }

  /** One turn of the loop that is not cancelled: count the file, then go on with the destination as the file left it. */
  lemma FilesLoopStep(d: Direction, localPath: string, remotePath: string, files: seq<SftpScan.FileInfo>, o: PerFile,
                      i: nat, t: Tally, fs: set<string>, ds: set<string>)
    requires i < |files| && !o.cancelled(i)
    ensures FilesLoop(d, localPath, remotePath, files, o, i, t, fs, ds) ==
      FilesLoop(d, localPath, remotePath, files, o, i + 1, Counted(t, files[i], Fails(d, o, i)),
                FilesAfter(d, localPath, remotePath, files[i].relPath, o, i, fs),
                DirsAfter(d, localPath, remotePath, files[i].relPath, o, i, ds))
  {
  }

  /** The per-file loop never removes a directory. */
  lemma {:induction false} FilesLoopKeepsDirs(d: Direction, localPath: string, remotePath: string, files: seq<SftpScan.FileInfo>,
                                              o: PerFile, i: nat, t: Tally, fs: set<string>, ds: set<string>)
    requires i <= |files|
    ensures ds <= FilesLoop(d, localPath, remotePath, files, o, i, t, fs, ds).dirs
    decreases |files| - i
  {
    if i < |files| && !o.cancelled(i) {
      FilesLoopStep(d, localPath, remotePath, files, o, i, t, fs, ds);
      FilesLoopKeepsDirs(d, localPath, remotePath, files, o, i + 1, Counted(t, files[i], Fails(d, o, i)),
                         FilesAfter(d, localPath, remotePath, files[i].relPath, o, i, fs),
                         DirsAfter(d, localPath, remotePath, files[i].relPath, o, i, ds));
    }
  }

  /** One file of the loop: make its parent directory, then transfer it. */
  method TransferOne(d: Direction, disk: Disk, localPath: string, remotePath: string, f: SftpScan.FileInfo, o: PerFile, i: nat)
    returns (failed: bool)
    modifies disk
    ensures failed == Fails(d, o, i)
    ensures disk.files == FilesAfter(d, localPath, remotePath, f.relPath, o, i, old(disk.files))
    ensures disk.dirs == DirsAfter(d, localPath, remotePath, f.relPath, o, i, old(disk.dirs))
  {
    if !o.mkdirOk(i) {
      return true;
    }
    match d {
      case Down => failed := DownloadOne(disk, localPath, remotePath, f, o.steps(i));
      case Up => failed := UploadOne(disk, localPath, remotePath, f, o.destIsDir(i), o.steps(i));
    }
  }

  /** A file of a directory download once its parent directory could be made. */
  method DownloadOne(disk: Disk, localPath: string, remotePath: string, f: SftpScan.FileInfo, s: Steps)
    returns (failed: bool)
    modifies disk
    ensures failed == DownloadResult(s).err.Some?
    ensures disk.files == Applied(old(disk.files), GoPath.Join2(localPath, f.relPath), DownloadResult(s).fate)
    ensures disk.dirs == old(disk.dirs) + {ParentDir(Down, localPath, remotePath, f.relPath)}
  {
    var fileLocalPath := GoPath.Join2(localPath, f.relPath);
    var fileRemotePath := SftpPath.JoinPath(remotePath, f.relPath);
    disk.dirs := disk.dirs + {GoPath.Dir(fileLocalPath)};
    var err := DownloadSingleFileWithPrefix(disk, fileRemotePath, fileLocalPath, s);
    return err.Some?;
  }

  /** A file of a directory upload once its parent directory could be made. */
  method UploadOne(disk: Disk, localPath: string, remotePath: string, f: SftpScan.FileInfo, destIsDir: bool, s: Steps)
    returns (failed: bool)
    modifies disk
    ensures failed == UploadResult(s).err.Some?
    ensures disk.files == Applied(old(disk.files),
      UploadDest(GoPath.Join2(localPath, f.relPath), SftpPath.JoinPath(remotePath, f.relPath), destIsDir), UploadResult(s).fate)
    ensures disk.dirs == old(disk.dirs) + {ParentDir(Up, localPath, remotePath, f.relPath)}
  {
    var fileLocalPath := GoPath.Join2(localPath, f.relPath);
    var fileRemotePath := SftpPath.JoinPath(remotePath, f.relPath);
    disk.dirs := disk.dirs + {GoPath.Dir(fileRemotePath)};
    var err := UploadSingleFile(disk, fileLocalPath, fileRemotePath, destIsDir, s);
    return err.Some?;
  }

  /** The loop itself. */
  method TransferFiles(d: Direction, disk: Disk, localPath: string, remotePath: string, files: seq<SftpScan.FileInfo>, o: PerFile)
    returns (t: Tally, canceled: bool)
    modifies disk
    ensures LoopEnd(t, disk.files, disk.dirs, canceled) ==
      FilesLoop(d, localPath, remotePath, files, o, 0, Tally(0, 0, []), old(disk.files), old(disk.dirs))
  {
    t := Tally(0, 0, []);
    var i := 0;
    while i < |files|
      invariant 0 <= i <= |files|
      invariant FilesLoop(d, localPath, remotePath, files, o, 0, Tally(0, 0, []), old(disk.files), old(disk.dirs)) ==
                FilesLoop(d, localPath, remotePath, files, o, i, t, disk.files, disk.dirs)
    {
      if o.cancelled(i) {
        return t, true;
      }
      FilesLoopStep(d, localPath, remotePath, files, o, i, t, disk.files, disk.dirs);
      var failed := TransferOne(d, disk, localPath, remotePath, files[i], o, i);
      if failed {
        t := Tally(t.count, t.bytes, t.failed + [files[i].relPath]);
      } else {
        t := Tally(t.count + 1, t.bytes + files[i].size, t.failed);
      }
      i := i + 1;
    }
    return t, false;
  }

  /** The first position from i on at which the loop finds the context cancelled, or n if none. */
  function FirstCancel(cancelled: nat -> bool, i: nat, n: nat): (k: nat)
    requires i <= n
    ensures i <= k <= n
    ensures k < n ==> cancelled(k)
    ensures forall j :: i <= j < k ==> !cancelled(j)
    decreases n - i
  {
    if i == n || cancelled(i) then i else FirstCancel(cancelled, i + 1, n)
  }

  /** Reference: the relative paths of the failing files among positions i to j, in order. */
  function FailedIn(files: seq<SftpScan.FileInfo>, fails: nat -> bool, i: nat, j: nat): seq<string>
    requires i <= j <= |files|
    decreases j - i
  {
    if i == j then [] else (if fails(i) then [files[i].relPath] else []) + FailedIn(files, fails, i + 1, j)
  }

  /** Reference: the summed sizes of the files among positions i to j that did not fail. */
  function BytesIn(files: seq<SftpScan.FileInfo>, fails: nat -> bool, i: nat, j: nat): int
    requires i <= j <= |files|
    decreases j - i
  {
    if i == j then 0 else (if fails(i) then 0 else files[i].size) + BytesIn(files, fails, i + 1, j)
  }

  /** The loop stops at the first position where it finds the context cancelled, or after the last file. */
  lemma {:induction false} LoopStops(files: seq<SftpScan.FileInfo>, cancelled: nat -> bool, fails: nat -> bool,
                                     fx: (string, nat, set<string>) -> set<string>, dx: (string, nat, set<string>) -> set<string>,
                                     i: nat, t: Tally, fs: set<string>, ds: set<string>)
    requires i <= |files|
    ensures Loop(files, cancelled, fails, fx, dx, i, t, fs, ds).canceled <==> FirstCancel(cancelled, i, |files|) < |files|
    decreases |files| - i
  {
    if i < |files| && !cancelled(i) {
      var rel := files[i].relPath;
      LoopStops(files, cancelled, fails, fx, dx, i + 1, Counted(t, files[i], fails(i)), fx(rel, i, fs), dx(rel, i, ds));
    }
  }

  /** Every file the loop reaches before it stops is either counted or recorded as failed. */
  lemma {:induction false} LoopCounts(files: seq<SftpScan.FileInfo>, cancelled: nat -> bool, fails: nat -> bool,
                                      fx: (string, nat, set<string>) -> set<string>, dx: (string, nat, set<string>) -> set<string>,
                                      i: nat, t: Tally, fs: set<string>, ds: set<string>)
    requires i <= |files|
    ensures var e := Loop(files, cancelled, fails, fx, dx, i, t, fs, ds);
      e.tally.count + |e.tally.failed| == t.count + |t.failed| + (FirstCancel(cancelled, i, |files|) - i)
    decreases |files| - i
  {
    if i < |files| && !cancelled(i) {
      var rel := files[i].relPath;
      LoopCounts(files, cancelled, fails, fx, dx, i + 1, Counted(t, files[i], fails(i)), fx(rel, i, fs), dx(rel, i, ds));
    }
  }

  /** Exactly the failing files among those reached are recorded, in list order. */
  lemma {:induction false} LoopFailed(files: seq<SftpScan.FileInfo>, cancelled: nat -> bool, fails: nat -> bool,
                                      fx: (string, nat, set<string>) -> set<string>, dx: (string, nat, set<string>) -> set<string>,
                                      i: nat, t: Tally, fs: set<string>, ds: set<string>)
    requires i <= |files|
    ensures Loop(files, cancelled, fails, fx, dx, i, t, fs, ds).tally.failed ==
      t.failed + FailedIn(files, fails, i, FirstCancel(cancelled, i, |files|))
    decreases |files| - i
  {
    if i < |files| && !cancelled(i) {
      var rel := files[i].relPath;
      var mine := if fails(i) then [rel] else [];
      var t' := Counted(t, files[i], fails(i));
      LoopFailed(files, cancelled, fails, fx, dx, i + 1, t', fx(rel, i, fs), dx(rel, i, ds));
      var k := FirstCancel(cancelled, i, |files|);
      assert t'.failed == t.failed + mine;
      ConcatAssoc(t.failed, mine, FailedIn(files, fails, i + 1, k));
    }
  }

  lemma ConcatAssoc(a: seq<string>, b: seq<string>, c: seq<string>)
    ensures a + b + c == a + (b + c)
  {
  }

  /** The bytes counted are the sizes of the files reached that did not fail. */
  lemma {:induction false} LoopBytes(files: seq<SftpScan.FileInfo>, cancelled: nat -> bool, fails: nat -> bool,
                                     fx: (string, nat, set<string>) -> set<string>, dx: (string, nat, set<string>) -> set<string>,
                                     i: nat, t: Tally, fs: set<string>, ds: set<string>)
    requires i <= |files|
    ensures Loop(files, cancelled, fails, fx, dx, i, t, fs, ds).tally.bytes ==
      t.bytes + BytesIn(files, fails, i, FirstCancel(cancelled, i, |files|))
    decreases |files| - i
  {
    if i < |files| && !cancelled(i) {
      var rel := files[i].relPath;
      LoopBytes(files, cancelled, fails, fx, dx, i + 1, Counted(t, files[i], fails(i)), fx(rel, i, fs), dx(rel, i, ds));
    }
  }

  /** The destinations `dest` gives for the listed relative paths from position i on. */
  function Dests(files: seq<SftpScan.FileInfo>, dest: string -> string, i: nat): set<string>
    requires i <= |files|
    decreases |files| - i
  {
    if i == |files| then {} else {dest(files[i].relPath)} + Dests(files, dest, i + 1)
  }

  /** When each file adds at most its own destination, the loop adds no file other than the listed ones' destinations. */
  lemma {:induction false} LoopWritesOnlyDests(files: seq<SftpScan.FileInfo>, cancelled: nat -> bool, fails: nat -> bool,
                                               fx: (string, nat, set<string>) -> set<string>, dx: (string, nat, set<string>) -> set<string>,
                                               dest: string -> string, i: nat, t: Tally, fs: set<string>, ds: set<string>)
    requires i <= |files|
    requires forall rel, j, s :: fx(rel, j, s) <= s + {dest(rel)}
    ensures Loop(files, cancelled, fails, fx, dx, i, t, fs, ds).files <= fs + Dests(files, dest, i)
    decreases |files| - i
  {
    if i < |files| && !cancelled(i) {
      var rel := files[i].relPath;
      LoopWritesOnlyDests(files, cancelled, fails, fx, dx, dest, i + 1, Counted(t, files[i], fails(i)), fx(rel, i, fs), dx(rel, i, ds));
      assert fx(rel, i, fs) <= fs + {dest(rel)};
    }
  }

  /** The error a directory transfer returns after its loop: cancelled, or some files failed. */
  function LoopError(e: LoopEnd): Option<TransferError> {
    if e.canceled then Some(Canceled)
    else if |e.tally.failed| > 0 then Some(FilesFailed(|e.tally.failed|))
    else None
  }

  /** What a directory transfer or a `get`/`put` returns, and the destination's files and directories after it. */
  datatype Outcome = Outcome(err: Option<TransferError>, files: set<string>, dirs: set<string>)

  /**
   * `downloadDirectory`: scan the remote tree; with no files, create the local directory;
   * otherwise run the per-file loop.
   */
  function DownloadDirectoryResult(remotePath: string, localPath: string, root: SftpScan.Node, mkdirOk: bool,
                                   o: PerFile, fs: set<string>, ds: set<string>): (r: Outcome)
    ensures ds <= r.dirs
    ensures r.err.None? ==> SftpScan.RemoteReadable(root)
  {
    SftpScan.RemoteDirMeetsReference(remotePath, "", root, [], 0);
    FilesLoopKeepsDirs(Down, localPath, remotePath, SftpScan.RemoteDir(remotePath, "", root, SftpScan.Walk([], 0, None)).files,
                       o, 0, Tally(0, 0, []), fs, ds);
    var w := SftpScan.RemoteDir(remotePath, "", root, SftpScan.Walk([], 0, None));
    if w.err.Some? then Outcome(Some(ScanFailed(w.err.value)), fs, ds)
    else if w.files == [] then
      (if mkdirOk then Outcome(None, fs, ds + {localPath}) else Outcome(Some(MkdirFailed(localPath)), fs, ds))
    else
      var e := FilesLoop(Down, localPath, remotePath, w.files, o, 0, Tally(0, 0, []), fs, ds);
      Outcome(LoopError(e), e.files, e.dirs)
  }

  /**
   * `uploadDirectory`: scan the local tree; the remote path must be a directory or not exist,
   * in which case it is created; then, unless there are no files, run the per-file loop.
   * `remoteStat` is the remote stat of the target: None when it fails, else whether it is a directory.
   */
  function UploadDirectoryResult(localPath: string, remotePath: string, root: SftpScan.Node, remoteStat: Option<bool>,
                                 mkdirOk: bool, o: PerFile, fs: set<string>, ds: set<string>): (r: Outcome)
    ensures ds <= r.dirs
    ensures r.err.None? ==> SftpScan.LocalReadable(root) && remoteStat != Some(false)
  {
    SftpScan.LocalDirMeetsReference(localPath, "", root, [], 0);
    var ds' := if remoteStat.None? then ds + {remotePath} else ds;
    FilesLoopKeepsDirs(Up, localPath, remotePath, SftpScan.LocalDir(localPath, "", root, SftpScan.Walk([], 0, None)).files,
                       o, 0, Tally(0, 0, []), fs, ds');
    var w := SftpScan.LocalDir(localPath, "", root, SftpScan.Walk([], 0, None));
    if w.err.Some? then Outcome(Some(ScanFailed(w.err.value)), fs, ds)
    else if remoteStat == Some(false) then Outcome(Some(NotADirectory(remotePath)), fs, ds)
    else if remoteStat.None? && !mkdirOk then Outcome(Some(MkdirFailed(remotePath)), fs, ds)
    else
      var ds' := if remoteStat.None? then ds + {remotePath} else ds;
      if w.files == [] then Outcome(None, fs, ds')
      else
        var e := FilesLoop(Up, localPath, remotePath, w.files, o, 0, Tally(0, 0, []), fs, ds');
        Outcome(LoopError(e), e.files, e.dirs)
  }

  method DownloadDirectory(disk: Disk, remotePath: string, localPath: string, root: SftpScan.Node, mkdirOk: bool, o: PerFile)
    returns (err: Option<TransferError>)
    modifies disk
    ensures Outcome(err, disk.files, disk.dirs) ==
      DownloadDirectoryResult(remotePath, localPath, root, mkdirOk, o, old(disk.files), old(disk.dirs))
  {
    var files, totalSize, scanErr := SftpScan.GetRemoteFileList(remotePath, root);
    if scanErr.Some? {
      return Some(ScanFailed(scanErr.value));
    }
    if |files| == 0 {
      if !mkdirOk {
        return Some(MkdirFailed(localPath));
      }
      disk.dirs := disk.dirs + {localPath};
      return None;
    }
    var t, canceled := TransferFiles(Down, disk, localPath, remotePath, files, o);
    if canceled {
      return Some(Canceled);
    }
    if |t.failed| > 0 {
      return Some(FilesFailed(|t.failed|));
    }
    return None;
  }

  method UploadDirectory(disk: Disk, localPath: string, remotePath: string, root: SftpScan.Node, remoteStat: Option<bool>,
                         mkdirOk: bool, o: PerFile)
    returns (err: Option<TransferError>)
    modifies disk
    ensures Outcome(err, disk.files, disk.dirs) ==
      UploadDirectoryResult(localPath, remotePath, root, remoteStat, mkdirOk, o, old(disk.files), old(disk.dirs))
  {
    var files, totalSize, scanErr := SftpScan.GetLocalFileList(localPath, root);
    if scanErr.Some? {
      return Some(ScanFailed(scanErr.value));
    }
    match remoteStat {
      case Some(isDir) =>
        if !isDir {
          return Some(NotADirectory(remotePath));
        }
      case None =>
        if !mkdirOk {
          return Some(MkdirFailed(remotePath));
        }
        disk.dirs := disk.dirs + {remotePath};
    }
    if |files| == 0 {
      return None;
    }
    var t, canceled := TransferFiles(Up, disk, localPath, remotePath, files, o);
    if canceled {
      return Some(Canceled);
    }
    if |t.failed| > 0 {
      return Some(FilesFailed(|t.failed|));
    }
    return None;
  }

  // ---------------------------------------------------------------- get and put

  /**
   * The answers a `get` or `put` receives after resolving its arguments: whether the context
   * is cancelled before it starts, the stat of the source (None when it fails, else whether
   * it is a directory), the stat of the destination (the same; a download only asks whether
   * it is a directory), the source tree, whether creating the target directory succeeds, and
   * the answers of the per-file loop and of a single-file transfer.
   */
  datatype Answers = Answers(cancelled: bool, srcStat: Option<bool>, dstStat: Option<bool>, tree: SftpScan.Node,
                             mkdirOk: bool, perFile: PerFile, steps: Steps)

  /** `cmdGetWithContext`. */
  function GetResult(ps: SftpPath.PathState, args: seq<string>, a: Answers, fs: set<string>, ds: set<string>): (r: Outcome)
    reads ps
    ensures ds <= r.dirs
    ensures r.err.None? ==> SftpDispatch.GetTargets(ps, args).Ok? && !a.cancelled && a.srcStat.Some?
  {
    match SftpDispatch.GetTargets(ps, args)
    case Err(e) => Outcome(Some(CmdFailed(e)), fs, ds)
    case Ok(ep) =>
      if a.cancelled then Outcome(Some(Canceled), fs, ds)
      else match a.srcStat
        case None => Outcome(Some(PathStatFailed), fs, ds)
        case Some(isDir) =>
          if isDir then DownloadDirectoryResult(ep.src, ep.dst, a.tree, a.mkdirOk, a.perFile, fs, ds)
          else
            var r := DownloadResult(a.steps);
            Outcome(r.err, Applied(fs, DownloadDest(ep.src, ep.dst, a.dstStat == Some(true)), r.fate), ds)
  }

  /** `cmdPutWithContext`. */
  function PutResult(ps: SftpPath.PathState, args: seq<string>, a: Answers, fs: set<string>, ds: set<string>): (r: Outcome)
    reads ps
    ensures ds <= r.dirs
    ensures r.err.None? ==> SftpDispatch.PutTargets(ps, args).Ok? && !a.cancelled && a.srcStat.Some?
  {
    match SftpDispatch.PutTargets(ps, args)
    case Err(e) => Outcome(Some(CmdFailed(e)), fs, ds)
    case Ok(ep) =>
      if a.cancelled then Outcome(Some(Canceled), fs, ds)
      else match a.srcStat
        case None => Outcome(Some(PathStatFailed), fs, ds)
        case Some(isDir) =>
          if isDir then UploadDirectoryResult(ep.src, ep.dst, a.tree, a.dstStat, a.mkdirOk, a.perFile, fs, ds)
          else
            var r := UploadResult(a.steps);
            Outcome(r.err, Applied(fs, UploadDest(ep.src, ep.dst, a.dstStat == Some(true)), r.fate), ds)
  }

  method CmdGet(disk: Disk, ps: SftpPath.PathState, args: seq<string>, a: Answers) returns (err: Option<TransferError>)
    modifies disk
    ensures Outcome(err, disk.files, disk.dirs) == GetResult(ps, args, a, old(disk.files), old(disk.dirs))
  {
    var targets := SftpDispatch.GetTargets(ps, args);
    if targets.Err? {
      return Some(CmdFailed(targets.error));
    }
    var remotePath, localPath := targets.value.src, targets.value.dst;
    if a.cancelled {
      return Some(Canceled);
    }
    if a.srcStat.None? {
      return Some(PathStatFailed);
    }
    if a.srcStat.value {
      err := DownloadDirectory(disk, remotePath, localPath, a.tree, a.mkdirOk, a.perFile);
    } else {
      err := DownloadSingleFile(disk, remotePath, localPath, a.dstStat == Some(true), a.steps);
    }
  }

  method CmdPut(disk: Disk, ps: SftpPath.PathState, args: seq<string>, a: Answers) returns (err: Option<TransferError>)
    modifies disk
    ensures Outcome(err, disk.files, disk.dirs) == PutResult(ps, args, a, old(disk.files), old(disk.dirs))
  {
    var targets := SftpDispatch.PutTargets(ps, args);
    if targets.Err? {
      return Some(CmdFailed(targets.error));
    }
    var localPath, remotePath := targets.value.src, targets.value.dst;
    if a.cancelled {
      return Some(Canceled);
    }
    if a.srcStat.None? {
      return Some(PathStatFailed);
    }
    if a.srcStat.value {
      err := UploadDirectory(disk, localPath, remotePath, a.tree, a.dstStat, a.mkdirOk, a.perFile);
    } else {
      err := UploadSingleFile(disk, localPath, remotePath, a.dstStat == Some(true), a.steps);
    }
  }

  // ---------------------------------------------------------------- properties of directory transfers

  /** No file among positions i to j is recorded as failed exactly when none of them fails. */
  lemma {:induction false} FailedInEmptyIff(files: seq<SftpScan.FileInfo>, fails: nat -> bool, i: nat, j: nat)
    requires i <= j <= |files|
    ensures FailedIn(files, fails, i, j) == [] <==> forall k :: i <= k < j ==> !fails(k)
    decreases j - i
  {
    if i < j {
      FailedInEmptyIff(files, fails, i + 1, j);
    }
  }

  /**
   * The loop of a directory transfer, run from the first file: it stops at the first
   * cancellation; every file before that is counted or recorded as failed, in order; and it
   * reports no error exactly when it was not cancelled and no file failed.
   */
  lemma DirectoryLoopSummary(d: Direction, localPath: string, remotePath: string, files: seq<SftpScan.FileInfo>,
                             o: PerFile, fs: set<string>, ds: set<string>)
    ensures var e := FilesLoop(d, localPath, remotePath, files, o, 0, Tally(0, 0, []), fs, ds);
      var k := FirstCancel(o.cancelled, 0, |files|);
      && (e.canceled <==> k < |files|)
      && e.tally.failed == FailedIn(files, StepFails(d, o), 0, k)
      && e.tally.count + |e.tally.failed| == k
      && e.tally.bytes == BytesIn(files, StepFails(d, o), 0, k)
      && (LoopError(e) == Some(Canceled) <==> k < |files|)
      && (LoopError(e).None? <==> k == |files| && forall j :: 0 <= j < |files| ==> !Fails(d, o, j))
  {
    var t := Tally(0, 0, []);
    var fails, fx, dx := StepFails(d, o), StepFiles(d, localPath, remotePath, o), StepDirs(d, localPath, remotePath, o);
    LoopStops(files, o.cancelled, fails, fx, dx, 0, t, fs, ds);
    LoopCounts(files, o.cancelled, fails, fx, dx, 0, t, fs, ds);
    LoopFailed(files, o.cancelled, fails, fx, dx, 0, t, fs, ds);
    LoopBytes(files, o.cancelled, fails, fx, dx, 0, t, fs, ds);
    FailedInEmptyIff(files, fails, 0, FirstCancel(o.cancelled, 0, |files|));
    assert forall j :: fails(j) == Fails(d, o, j);
  }

  /** A download fails on its scan exactly when some directory of the remote tree cannot be read; it then touches nothing. */
  lemma DownloadScanFails(remotePath: string, localPath: string, root: SftpScan.Node, mkdirOk: bool,
                          o: PerFile, fs: set<string>, ds: set<string>)
    ensures var r := DownloadDirectoryResult(remotePath, localPath, root, mkdirOk, o, fs, ds);
      (r.err.Some? && r.err.value.ScanFailed?) <==> !SftpScan.RemoteReadable(root)
    ensures var r := DownloadDirectoryResult(remotePath, localPath, root, mkdirOk, o, fs, ds);
      !SftpScan.RemoteReadable(root) ==> r.err.value.scan.ReadDirFailed? && r.files == fs && r.dirs == ds
  {
    SftpScan.RemoteDirMeetsReference(remotePath, "", root, [], 0);
    if SftpScan.RemoteReadable(root) {
      var w := SftpScan.RemoteDir(remotePath, "", root, SftpScan.Walk([], 0, None));
      if w.files != [] {
        DirectoryLoopSummary(Down, localPath, remotePath, w.files, o, fs, ds);
      }
    }
  }

  /** An upload fails on its scan exactly when the local tree has an unreadable directory or an entry whose stat fails. */
  lemma UploadScanFails(localPath: string, remotePath: string, root: SftpScan.Node, remoteStat: Option<bool>,
                        mkdirOk: bool, o: PerFile, fs: set<string>, ds: set<string>)
    ensures var r := UploadDirectoryResult(localPath, remotePath, root, remoteStat, mkdirOk, o, fs, ds);
      (r.err.Some? && r.err.value.ScanFailed?) <==> !SftpScan.LocalReadable(root)
    ensures var r := UploadDirectoryResult(localPath, remotePath, root, remoteStat, mkdirOk, o, fs, ds);
      !SftpScan.LocalReadable(root) ==> r.files == fs && r.dirs == ds
  {
    SftpScan.LocalDirMeetsReference(localPath, "", root, [], 0);
    if SftpScan.LocalReadable(root) && (remoteStat != Some(false)) && (remoteStat.Some? || mkdirOk) {
      var w := SftpScan.LocalDir(localPath, "", root, SftpScan.Walk([], 0, None));
      var ds' := if remoteStat.None? then ds + {remotePath} else ds;
      if w.files != [] {
        DirectoryLoopSummary(Up, localPath, remotePath, w.files, o, fs, ds');
      }
    }
  }

  /** A remote directory with no regular file anywhere below it downloads as one new local directory. */
  lemma EmptyDownloadCreatesDir(remotePath: string, localPath: string, root: SftpScan.Node, mkdirOk: bool,
                                o: PerFile, fs: set<string>, ds: set<string>)
    requires SftpScan.RemoteReadable(root) && SftpScan.RemoteFiles("", root) == []
    ensures DownloadDirectoryResult(remotePath, localPath, root, mkdirOk, o, fs, ds) ==
      if mkdirOk then Outcome(None, fs, ds + {localPath}) else Outcome(Some(MkdirFailed(localPath)), fs, ds)
  {
    SftpScan.RemoteDirMeetsReference(remotePath, "", root, [], 0);
  }

  /** An upload onto an existing remote file is refused before any file is sent, and nothing changes. */
  lemma UploadRefusesNonDirectory(localPath: string, remotePath: string, root: SftpScan.Node, mkdirOk: bool,
                                  o: PerFile, fs: set<string>, ds: set<string>)
    requires SftpScan.LocalReadable(root)
    ensures UploadDirectoryResult(localPath, remotePath, root, Some(false), mkdirOk, o, fs, ds) ==
      Outcome(Some(NotADirectory(remotePath)), fs, ds)
  {
    SftpScan.LocalDirMeetsReference(localPath, "", root, [], 0);
  }

  /** Where a download puts the file with a given relative path. */
  function LocalDest(localPath: string): string -> string {
    rel => GoPath.Join2(localPath, rel)
  }

  /** Each file of a download adds at most the listed path under the local directory. */
  lemma DownloadStepAddsOwnPath(localPath: string, remotePath: string, o: PerFile)
    ensures forall rel, j, s :: StepFiles(Down, localPath, remotePath, o)(rel, j, s) <= s + {LocalDest(localPath)(rel)}
  {
  }

  /** Under a rooted clean directory, the destination of every plain relative path lies strictly below it. */
  lemma {:induction false} DownDestsUnder(hs: seq<string>, files: seq<SftpScan.FileInfo>, i: nat)
    requires i <= |files|
    requires GoPath.AllNormal(hs)
    requires forall f :: f in files ==> SftpScan.PlainRelative(f.relPath)
    ensures forall p :: p in Dests(files, LocalDest("/" + GoPath.JoinSlash(hs)), i) ==>
      exists es :: es != [] && GoPath.AllNormal(es) && p == "/" + GoPath.JoinSlash(hs + es)
    decreases |files| - i
  {
    if i < |files| {
      DownDestsUnder(hs, files, i + 1);
      var rel := files[i].relPath;
      assert SftpScan.PlainRelative(rel) by {
        assert files[i] in files;
      }
      var es := GoPath.Split(rel);
      GoPath.JoinSplit(rel);
      GoPath.JoinUnderRoot(hs, es);
      assert GoPath.Join2("/" + GoPath.JoinSlash(hs), rel) == "/" + GoPath.JoinSlash(hs + es);
    }
  }

  /**
   * Downloading a tree whose entry names are all plain into a rooted clean local directory
   * writes files only strictly below that directory: nothing outside is created.
   */
  lemma DownloadStaysUnder(hs: seq<string>, remotePath: string, root: SftpScan.Node, mkdirOk: bool,
                           o: PerFile, fs: set<string>, ds: set<string>)
    requires GoPath.AllNormal(hs) && SftpScan.NamesNormal(root)
    ensures var r := DownloadDirectoryResult(remotePath, "/" + GoPath.JoinSlash(hs), root, mkdirOk, o, fs, ds);
      forall p :: p in r.files && p !in fs ==>
        exists es :: es != [] && GoPath.AllNormal(es) && p == "/" + GoPath.JoinSlash(hs + es)
  {
    var localPath := "/" + GoPath.JoinSlash(hs);
    SftpScan.RemoteDirMeetsReference(remotePath, "", root, [], 0);
    var w := SftpScan.RemoteDir(remotePath, "", root, SftpScan.Walk([], 0, None));
    if w.err.None? && w.files != [] {
      SftpScan.RemotePathsPlain("", root);
      assert w.files == SftpScan.RemoteFiles("", root);
      DownloadStepAddsOwnPath(localPath, remotePath, o);
      LoopWritesOnlyDests(w.files, o.cancelled, StepFails(Down, o), StepFiles(Down, localPath, remotePath, o),
                          StepDirs(Down, localPath, remotePath, o), LocalDest(localPath), 0, Tally(0, 0, []), fs, ds);
      DownDestsUnder(hs, w.files, 0);
    }
  }

  // ---------------------------------------------------------------- properties of get and put

  /** `get name` of a plain remote file that is not cancelled and transfers completely adds exactly that name to the local working directory. */
  lemma GetOneFile(ps: SftpPath.PathState, name: string, a: Answers, fs: set<string>, ds: set<string>)
    requires GoPath.Normal(name) && name[0] != '~'
    requires !a.cancelled && a.srcStat == Some(false) && a.dstStat != Some(true)
    requires DownloadResult(a.steps).err.None? && !a.steps.cancelledAtExit
    ensures GetResult(ps, [name], a, fs, ds) == Outcome(None, fs + {GoPath.Clean(GoPath.Join2(ps.localCwd, name))}, ds)
  {
    SftpDispatch.OneNameStaysInWorkingDirectories(ps, name);
    DownloadKeepsOnlyComplete(a.steps);
  }

  /** `put name` of a plain local file likewise adds that name to the remote working directory. */
  lemma PutOneFile(ps: SftpPath.PathState, name: string, a: Answers, fs: set<string>, ds: set<string>)
    requires GoPath.Normal(name) && name[0] != '~'
    requires !a.cancelled && a.srcStat == Some(false) && a.dstStat != Some(true)
    requires UploadResult(a.steps).err.None? && !a.steps.cancelledAtExit
    ensures PutResult(ps, [name], a, fs, ds) == Outcome(None, fs + {SftpPath.JoinPath(ps.remoteCwd, name)}, ds)
  {
    SftpDispatch.OneNameStaysInWorkingDirectories(ps, name);
  }

  /** A `get` whose arguments do not resolve, which is cancelled first, or whose source stat fails changes nothing. */
  lemma FailingBeforeTransferChangesNothing(ps: SftpPath.PathState, args: seq<string>, a: Answers, fs: set<string>, ds: set<string>)
    requires SftpDispatch.GetTargets(ps, args).Err? || a.cancelled || a.srcStat.None?
    ensures GetResult(ps, args, a, fs, ds).files == fs && GetResult(ps, args, a, fs, ds).dirs == ds
    ensures GetResult(ps, args, a, fs, ds).err.Some?
  {
  }

  /** The same for a `put`. */
  lemma PutFailingBeforeTransferChangesNothing(ps: SftpPath.PathState, args: seq<string>, a: Answers, fs: set<string>, ds: set<string>)
    requires SftpDispatch.PutTargets(ps, args).Err? || a.cancelled || a.srcStat.None?
    ensures PutResult(ps, args, a, fs, ds).files == fs && PutResult(ps, args, a, fs, ds).dirs == ds
    ensures PutResult(ps, args, a, fs, ds).err.Some?
  {
  }
}
