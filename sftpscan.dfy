/**
 * The recursive directory scans of pkg/sftp/commands.go: `walkRemoteDir` over the server's
 * tree and `walkLocalDir` over the local one, both appending to the `files` list and the
 * `totalSize` counter they share through pointers, and `getRemoteFileList` and
 * `getLocalFileList` around them. The tree each `ReadDir` sees is given in advance.
 */
module SftpScan {
  import opened Wrappers
  import GoStrings
  import GoPath
  import SftpPath

  /** The type bits of an entry's mode. */
  datatype FileKind = Regular | Directory | Symlink | Device | NamedPipe | Socket | Irregular

  /**
   * A directory entry as `ReadDir` returns it. For a directory, `readable` says whether
   * listing it succeeds and `entries` is that listing in the order returned. For any other
   * entry, `infoOk` says whether `entry.Info()` succeeds on the local side.
   */
  datatype Node = Node(name: string, kind: FileKind, size: int, infoOk: bool, readable: bool, entries: seq<Node>)

  /** `remoteFileInfo` and `localFileInfo`. */
  datatype FileInfo = FileInfo(relPath: string, size: int)

  datatype ScanError =
    | ReadDirFailed(path: string)      // "read dir <path>: ..."
    | InfoFailed(relPath: string)      // "get file info <relPath>: ..."

  /** The list, the counter and the error a walk leaves behind. */
  datatype Walk = Walk(files: seq<FileInfo>, total: int, err: Option<ScanError>)

  /** The mode bits the remote walk skips: symlinks, devices, named pipes and sockets. */
  predicate IsSpecial(k: FileKind) {
    k == Symlink || k == Device || k == NamedPipe || k == Socket
  }

  /** The sum of the sizes of a file list. */
  function SizeSum(fs: seq<FileInfo>): int {
    if |fs| == 0 then 0 else SizeSum(fs[..|fs| - 1]) + fs[|fs| - 1].size
  }

  // ---------------------------------------------------------------- remote walk

  /** The directory `walkRemoteDir` reads: the base, or the base joined with the relative path. */
  function RemotePath(base: string, rel: string): string {
    if rel == "" then base else SftpPath.JoinPath(base, rel)
  }

  /** An entry's relative path on the remote side. */
  function RemoteRel(rel: string, name: string): string {
    if rel == "" then name else SftpPath.JoinPath(rel, name)
  }

  /**
   * `walkRemoteDir(base, rel, ...)` on the directory `dir`, from the walk so far `w`. Like the
   * shared slice it appends to, the walk only ever extends the list; an unlistable directory
   * adds nothing and fails.
   */
  function RemoteDir(base: string, rel: string, dir: Node, w: Walk): (r: Walk)
    ensures w.files <= r.files
    ensures !dir.readable ==> r.files == w.files && r.err.Some?
    decreases dir, 1
  {
    if !dir.readable then Walk(w.files, w.total, Some(ReadDirFailed(RemotePath(base, rel))))
    else RemoteEntries(base, rel, dir, 0, w)
  }

  /** The loop of `walkRemoteDir` from entry `i` on; it stops at the first error. */
  function RemoteEntries(base: string, rel: string, dir: Node, i: nat, w: Walk): (r: Walk)
    requires i <= |dir.entries|
    ensures w.files <= r.files
    ensures w.err.Some? ==> r == w
    decreases dir, 0, |dir.entries| - i
  {
    if i == |dir.entries| || w.err.Some? then w
    else RemoteEntries(base, rel, dir, i + 1, RemoteEntry(base, rel, dir.entries[i], w))
  }

  /** One entry of the remote loop: special files are skipped, directories entered, regular files listed. */
  function RemoteEntry(base: string, rel: string, e: Node, w: Walk): (r: Walk)
    ensures w.files <= r.files
    decreases e, 2
  {
    var r := RemoteRel(rel, e.name);
    if IsSpecial(e.kind) then w
    else if e.kind == Directory then RemoteDir(base, r, e, w)
    else if e.kind == Regular then Walk(w.files + [FileInfo(r, e.size)], w.total + e.size, None)
    else w
  }

  /** Reference: the regular files under `dir`, in walk order, with their relative paths. */
  function RemoteFiles(rel: string, dir: Node): seq<FileInfo>
    decreases dir, 1
  {
    RemoteFilesFrom(rel, dir, 0)
  }

  function RemoteFilesFrom(rel: string, dir: Node, i: nat): seq<FileInfo>
    requires i <= |dir.entries|
    decreases dir, 0, |dir.entries| - i
  {
    if i == |dir.entries| then [] else RemoteFilesOf(rel, dir.entries[i]) + RemoteFilesFrom(rel, dir, i + 1)
  }

  /** The regular files one entry contributes. */
  function RemoteFilesOf(rel: string, e: Node): seq<FileInfo>
    decreases e, 2
  {
    var r := RemoteRel(rel, e.name);
    if e.kind == Directory then RemoteFiles(r, e)
    else if e.kind == Regular then [FileInfo(r, e.size)]
    else []
  }

  /** Every directory the remote walk enters can be listed. */
  predicate RemoteReadable(dir: Node)
    decreases dir, 1
  {
    dir.readable && RemoteReadableFrom(dir, 0)
  }

  predicate RemoteReadableFrom(dir: Node, i: nat)
    requires i <= |dir.entries|
    decreases dir, 0, |dir.entries| - i
  {
    i == |dir.entries| ||
    ((dir.entries[i].kind == Directory ==> RemoteReadable(dir.entries[i])) && RemoteReadableFrom(dir, i + 1))
  }

  // ---------------------------------------------------------------- local walk

  /** The directory `walkLocalDir` reads: the base, or `filepath.Join(base, rel)`. */
  function LocalPath(base: string, rel: string): string {
    if rel == "" then base else GoPath.Join2(base, rel)
  }

  /** An entry's relative path on the local side. */
  function LocalRel(rel: string, name: string): string {
    if rel == "" then name else GoPath.Join2(rel, name)
  }

  /**
   * `walkLocalDir(base, rel, ...)` on the directory `dir`, from the walk so far `w`; it only
   * ever extends the list, and an unlistable directory adds nothing and fails.
   */
  function LocalDir(base: string, rel: string, dir: Node, w: Walk): (r: Walk)
    ensures w.files <= r.files
    ensures !dir.readable ==> r.files == w.files && r.err.Some?
    decreases dir, 1
  {
    if !dir.readable then Walk(w.files, w.total, Some(ReadDirFailed(LocalPath(base, rel))))
    else LocalEntries(base, rel, dir, 0, w)
  }

  /** The loop of `walkLocalDir` from entry `i` on; it stops at the first error. */
  function LocalEntries(base: string, rel: string, dir: Node, i: nat, w: Walk): (r: Walk)
    requires i <= |dir.entries|
    ensures w.files <= r.files
    ensures w.err.Some? ==> r == w
    decreases dir, 0, |dir.entries| - i
  {
    if i == |dir.entries| || w.err.Some? then w
    else LocalEntries(base, rel, dir, i + 1, LocalEntry(base, rel, dir.entries[i], w))
  }

  /** One entry of the local loop: directories are entered, every other entry is listed. */
  function LocalEntry(base: string, rel: string, e: Node, w: Walk): (r: Walk)
    ensures w.files <= r.files
    decreases e, 2
  {
    var r := LocalRel(rel, e.name);
    if e.kind == Directory then LocalDir(base, r, e, w)
    else if !e.infoOk then Walk(w.files, w.total, Some(InfoFailed(r)))
    else Walk(w.files + [FileInfo(r, e.size)], w.total + e.size, None)
  }

  /** Reference: every non-directory entry under `dir`, in walk order. */
  function LocalFiles(rel: string, dir: Node): seq<FileInfo>
    decreases dir, 1
  {
    LocalFilesFrom(rel, dir, 0)
  }

  function LocalFilesFrom(rel: string, dir: Node, i: nat): seq<FileInfo>
    requires i <= |dir.entries|
    decreases dir, 0, |dir.entries| - i
  {
    if i == |dir.entries| then [] else LocalFilesOf(rel, dir.entries[i]) + LocalFilesFrom(rel, dir, i + 1)
  }

  /** The files one entry contributes: a directory's contents, or the entry itself. */
  function LocalFilesOf(rel: string, e: Node): seq<FileInfo>
    decreases e, 2
  {
    var r := LocalRel(rel, e.name);
    if e.kind == Directory then LocalFiles(r, e) else [FileInfo(r, e.size)]
  }

  /** Every directory under `dir` can be listed and every other entry's info can be read. */
  predicate LocalReadable(dir: Node)
    decreases dir, 1
  {
    dir.readable && LocalReadableFrom(dir, 0)
  }

  predicate LocalReadableFrom(dir: Node, i: nat)
    requires i <= |dir.entries|
    decreases dir, 0, |dir.entries| - i
  {
    i == |dir.entries| ||
    ((if dir.entries[i].kind == Directory then LocalReadable(dir.entries[i]) else dir.entries[i].infoOk)
     && LocalReadableFrom(dir, i + 1))
  }

  // ---------------------------------------------------------------- the walks

  /** The `files` slice and `totalSize` counter the walks append to through their pointers. */
  class Scanner {
    var files: seq<FileInfo>
    var totalSize: int

    constructor ()
      ensures files == [] && totalSize == 0
    {
      files := [];
      totalSize := 0;
    }

    /** `walkRemoteDir`. */
    method WalkRemoteDir(base: string, rel: string, dir: Node) returns (err: Option<ScanError>)
      modifies this
      ensures Walk(files, totalSize, err) == RemoteDir(base, rel, dir, Walk(old(files), old(totalSize), None))
      decreases dir, 1
    {
      var currentPath := base;
      if rel != "" {
        currentPath := SftpPath.JoinPath(base, rel);
      }
      if !dir.readable {
        return Some(ReadDirFailed(currentPath));
      }
      var entries := dir.entries;
      var i := 0;
      while i < |entries|
        invariant 0 <= i <= |entries|
        invariant RemoteDir(base, rel, dir, Walk(old(files), old(totalSize), None)) ==
                  RemoteEntries(base, rel, dir, i, Walk(files, totalSize, None))
      {
        var entry := entries[i];
        var entryRelPath := entry.name;
        if rel != "" {
          entryRelPath := SftpPath.JoinPath(rel, entry.name);
        }
        if IsSpecial(entry.kind) {
          // skipped
        } else if entry.kind == Directory {
          var e := WalkRemoteDir(base, entryRelPath, entry);
          if e.Some? {
            return e;
          }
        } else if entry.kind == Regular {
          files := files + [FileInfo(entryRelPath, entry.size)];
          totalSize := totalSize + entry.size;
        }
        i := i + 1;
      }
      return None;
    }

    /** `walkLocalDir`. */
    method WalkLocalDir(base: string, rel: string, dir: Node) returns (err: Option<ScanError>)
      modifies this
      ensures Walk(files, totalSize, err) == LocalDir(base, rel, dir, Walk(old(files), old(totalSize), None))
      decreases dir, 1
    {
      var currentPath := base;
      if rel != "" {
        currentPath := GoPath.Join2(base, rel);
      }
      if !dir.readable {
        return Some(ReadDirFailed(currentPath));
      }
      var entries := dir.entries;
      var i := 0;
      while i < |entries|
        invariant 0 <= i <= |entries|
        invariant LocalDir(base, rel, dir, Walk(old(files), old(totalSize), None)) ==
                  LocalEntries(base, rel, dir, i, Walk(files, totalSize, None))
      {
        var entry := entries[i];
        var entryRelPath := entry.name;
        if rel != "" {
          entryRelPath := GoPath.Join2(rel, entry.name);
        }
        if entry.kind == Directory {
          var e := WalkLocalDir(base, entryRelPath, entry);
          if e.Some? {
            return e;
          }
        } else {
          if !entry.infoOk {
            return Some(InfoFailed(entryRelPath));
          }
          files := files + [FileInfo(entryRelPath, entry.size)];
          totalSize := totalSize + entry.size;
        }
        i := i + 1;
      }
      return None;
    }
  }

  /**
   * `getRemoteFileList`: the regular files under the root and the sum of their sizes, or
   * (nil, 0, error) when some directory the walk enters cannot be listed.
   */
  method GetRemoteFileList(base: string, root: Node) returns (files: seq<FileInfo>, total: int, err: Option<ScanError>)
    ensures var w := RemoteDir(base, "", root, Walk([], 0, None));
      err == w.err && (err.None? ==> files == w.files && total == w.total)
    ensures err.None? <==> RemoteReadable(root)
    ensures err.None? ==> files == RemoteFiles("", root) && total == SizeSum(files)
    ensures err.Some? ==> files == [] && total == 0 && err.value.ReadDirFailed?
  {
    var sc := new Scanner();
    err := sc.WalkRemoteDir(base, "", root);
    RemoteDirMeetsReference(base, "", root, [], 0);
    if err.Some? {
      return [], 0, err;
    }
    files, total := sc.files, sc.totalSize;
  }

  /**
   * `getLocalFileList`: every non-directory entry under the root and the sum of their sizes,
   * or (nil, 0, error) when a directory cannot be listed or an entry's info cannot be read.
   */
  method GetLocalFileList(base: string, root: Node) returns (files: seq<FileInfo>, total: int, err: Option<ScanError>)
    ensures var w := LocalDir(base, "", root, Walk([], 0, None));
      err == w.err && (err.None? ==> files == w.files && total == w.total)
    ensures err.None? <==> LocalReadable(root)
    ensures err.None? ==> files == LocalFiles("", root) && total == SizeSum(files)
    ensures err.Some? ==> files == [] && total == 0
  {
    var sc := new Scanner();
    err := sc.WalkLocalDir(base, "", root);
    LocalDirMeetsReference(base, "", root, [], 0);
    if err.Some? {
      return [], 0, err;
    }
    files, total := sc.files, sc.totalSize;
  }

  // ---------------------------------------------------------------- the walks against the reference

  lemma {:induction false} SizeSumConcat(a: seq<FileInfo>, b: seq<FileInfo>)
    ensures SizeSum(a + b) == SizeSum(a) + SizeSum(b)
    decreases |b|
  {
    if |b| > 0 {
      var b' := b[..|b| - 1];
      assert (a + b)[..|a + b| - 1] == a + b';
      SizeSumConcat(a, b');
    } else {
      assert a + b == a;
    }
  }

  /**
   * The remote walk fails exactly when a directory it enters cannot be listed, and otherwise
   * appends the regular files under `dir` and adds their sizes to the total.
   */
  lemma {:induction false} RemoteDirMeetsReference(base: string, rel: string, dir: Node, fs: seq<FileInfo>, t: int)
    ensures var w := RemoteDir(base, rel, dir, Walk(fs, t, None));
      && (w.err.None? <==> RemoteReadable(dir))
      && (w.err.Some? ==> w.err.value.ReadDirFailed?)
      && (w.err.None? ==> w.files == fs + RemoteFiles(rel, dir) && w.total == t + SizeSum(RemoteFiles(rel, dir)))
    decreases dir, 1
  {
    if dir.readable {
      RemoteEntriesMeetReference(base, rel, dir, 0, fs, t);
    }
  }

  lemma {:induction false} RemoteEntriesMeetReference(base: string, rel: string, dir: Node, i: nat, fs: seq<FileInfo>, t: int)
    requires i <= |dir.entries|
    ensures var w := RemoteEntries(base, rel, dir, i, Walk(fs, t, None));
      && (w.err.None? <==> RemoteReadableFrom(dir, i))
      && (w.err.Some? ==> w.err.value.ReadDirFailed?)
      && (w.err.None? ==> w.files == fs + RemoteFilesFrom(rel, dir, i) && w.total == t + SizeSum(RemoteFilesFrom(rel, dir, i)))
    decreases dir, 0, |dir.entries| - i
  {
    if i < |dir.entries| {
      var e := dir.entries[i];
      var rest := RemoteFilesFrom(rel, dir, i + 1);
      RemoteEntryMeetsReference(base, rel, e, fs, t);
      var w1 := RemoteEntry(base, rel, e, Walk(fs, t, None));
      if w1.err.None? {
        var mine := RemoteFilesOf(rel, e);
        RemoteEntriesMeetReference(base, rel, dir, i + 1, w1.files, w1.total);
        SizeSumConcat(mine, rest);
        assert fs + mine + rest == fs + (mine + rest);
      } else {
        assert RemoteEntries(base, rel, dir, i + 1, w1) == w1;
      }
    }
  }

  lemma {:induction false} RemoteEntryMeetsReference(base: string, rel: string, e: Node, fs: seq<FileInfo>, t: int)
    ensures var w := RemoteEntry(base, rel, e, Walk(fs, t, None));
      && (w.err.None? <==> (e.kind == Directory ==> RemoteReadable(e)))
      && (w.err.Some? ==> w.err.value.ReadDirFailed?)
      && (w.err.None? ==> w.files == fs + RemoteFilesOf(rel, e) && w.total == t + SizeSum(RemoteFilesOf(rel, e)))
    decreases e, 2
  {
    if e.kind == Directory {
      RemoteDirMeetsReference(base, RemoteRel(rel, e.name), e, fs, t);
    } else if e.kind == Regular {
      var x := FileInfo(RemoteRel(rel, e.name), e.size);
      assert SizeSum([x]) == e.size by {
        assert [x][..0] == [];
      }
    } else {
      assert fs + [] == fs;
    }
  }

  /**
   * The local walk fails exactly when a directory cannot be listed or an entry's info
   * cannot be read, and otherwise appends every non-directory entry under `dir`.
   */
  lemma {:induction false} LocalDirMeetsReference(base: string, rel: string, dir: Node, fs: seq<FileInfo>, t: int)
    ensures var w := LocalDir(base, rel, dir, Walk(fs, t, None));
      && (w.err.None? <==> LocalReadable(dir))
      && (w.err.None? ==> w.files == fs + LocalFiles(rel, dir) && w.total == t + SizeSum(LocalFiles(rel, dir)))
    decreases dir, 1
  {
    if dir.readable {
      LocalEntriesMeetReference(base, rel, dir, 0, fs, t);
    }
  }

  lemma {:induction false} LocalEntriesMeetReference(base: string, rel: string, dir: Node, i: nat, fs: seq<FileInfo>, t: int)
    requires i <= |dir.entries|
    ensures var w := LocalEntries(base, rel, dir, i, Walk(fs, t, None));
      && (w.err.None? <==> LocalReadableFrom(dir, i))
      && (w.err.None? ==> w.files == fs + LocalFilesFrom(rel, dir, i) && w.total == t + SizeSum(LocalFilesFrom(rel, dir, i)))
    decreases dir, 0, |dir.entries| - i
  {
    if i < |dir.entries| {
      var e := dir.entries[i];
      var rest := LocalFilesFrom(rel, dir, i + 1);
      LocalEntryMeetsReference(base, rel, e, fs, t);
      var w1 := LocalEntry(base, rel, e, Walk(fs, t, None));
      if w1.err.None? {
        var mine := LocalFilesOf(rel, e);
        LocalEntriesMeetReference(base, rel, dir, i + 1, w1.files, w1.total);
        SizeSumConcat(mine, rest);
        assert fs + mine + rest == fs + (mine + rest);
      } else {
        assert LocalEntries(base, rel, dir, i + 1, w1) == w1;
      }
    }
  }

  lemma {:induction false} LocalEntryMeetsReference(base: string, rel: string, e: Node, fs: seq<FileInfo>, t: int)
    ensures var w := LocalEntry(base, rel, e, Walk(fs, t, None));
      && (w.err.None? <==> (if e.kind == Directory then LocalReadable(e) else e.infoOk))
      && (w.err.None? ==> w.files == fs + LocalFilesOf(rel, e) && w.total == t + SizeSum(LocalFilesOf(rel, e)))
    decreases e, 2
  {
    if e.kind == Directory {
      LocalDirMeetsReference(base, LocalRel(rel, e.name), e, fs, t);
    } else if e.infoOk {
      var x := FileInfo(LocalRel(rel, e.name), e.size);
      assert SizeSum([x]) == e.size by {
        assert [x][..0] == [];
      }
    }
  }

  // ---------------------------------------------------------------- shape of the listings

  /** Every entry name under `dir` is a plain name: not empty, not "." or "..", no slash. */
  predicate NamesNormal(dir: Node)
    decreases dir, 1
  {
    forall k :: 0 <= k < |dir.entries| ==> GoPath.Normal(dir.entries[k].name) && NamesNormal(dir.entries[k])
  }

  /** A relative path made of plain names only: it neither starts at the root nor climbs out. */
  predicate PlainRelative(p: string) {
    GoPath.AllNormal(GoPath.Split(p))
  }

  /** A path that is empty or ends with a slash has an empty last piece, so it is not plain. */
  lemma TrailingSlashNotPlain(p: string)
    requires p == "" || p[|p| - 1] == '/'
    ensures !PlainRelative(p)
  {
    if p == "" {
      assert GoPath.Split(p) == [""];
    } else {
      var q := p[..|p| - 1];
      assert p == q + "/" + "";
      GoPath.SplitAppend(q, "");
    }
    var parts := GoPath.Split(p);
    assert parts[|parts| - 1] == "";
  }

  /** Extending a plain relative path (or the empty one) by a plain name, on either side. */
  lemma ExtendPlain(rel: string, name: string)
    requires rel == "" || PlainRelative(rel)
    requires GoPath.Normal(name)
    ensures PlainRelative(RemoteRel(rel, name))
    ensures PlainRelative(LocalRel(rel, name))
  {
    GoPath.SplitNoSlash(name);
    if rel != "" {
      if rel[|rel| - 1] == '/' {
        TrailingSlashNotPlain(rel);
      }
      assert !GoStrings.HasSuffix(rel, "/") by {
        assert rel[|rel| - 1..] == [rel[|rel| - 1]];
      }
      var parts := GoPath.Split(rel);
      GoPath.SplitAppend(rel, name);
      assert GoPath.Split(rel + "/" + name) == parts + [name];
      assert GoPath.AllNormal(parts + [name]);
      GoPath.JoinSplit(rel);
      GoPath.JoinNormalElement(parts, name);
      GoPath.JoinSlashSnoc(parts, name);
    }
  }

  /**
   * When every name in the tree is a plain name, every relative path the remote walk lists
   * is a plain relative path.
   */
  lemma {:induction false} RemotePathsPlain(rel: string, dir: Node)
    requires rel == "" || PlainRelative(rel)
    requires NamesNormal(dir)
    ensures forall f :: f in RemoteFiles(rel, dir) ==> PlainRelative(f.relPath)
    decreases dir, 1
  {
    RemotePathsPlainFrom(rel, dir, 0);
  }

  lemma {:induction false} RemotePathsPlainFrom(rel: string, dir: Node, i: nat)
    requires i <= |dir.entries|
    requires rel == "" || PlainRelative(rel)
    requires NamesNormal(dir)
    ensures forall f :: f in RemoteFilesFrom(rel, dir, i) ==> PlainRelative(f.relPath)
    decreases dir, 0, |dir.entries| - i
  {
    if i < |dir.entries| {
      var e := dir.entries[i];
      ExtendPlain(rel, e.name);
      if e.kind == Directory {
        RemotePathsPlain(RemoteRel(rel, e.name), e);
      }
      RemotePathsPlainFrom(rel, dir, i + 1);
    }
  }

  /** The same for the local walk. */
  lemma {:induction false} LocalPathsPlain(rel: string, dir: Node)
    requires rel == "" || PlainRelative(rel)
    requires NamesNormal(dir)
    ensures forall f :: f in LocalFiles(rel, dir) ==> PlainRelative(f.relPath)
    decreases dir, 1
  {
    LocalPathsPlainFrom(rel, dir, 0);
  }

  lemma {:induction false} LocalPathsPlainFrom(rel: string, dir: Node, i: nat)
    requires i <= |dir.entries|
    requires rel == "" || PlainRelative(rel)
    requires NamesNormal(dir)
    ensures forall f :: f in LocalFilesFrom(rel, dir, i) ==> PlainRelative(f.relPath)
    decreases dir, 0, |dir.entries| - i
  {
    if i < |dir.entries| {
      var e := dir.entries[i];
      ExtendPlain(rel, e.name);
      if e.kind == Directory {
        LocalPathsPlain(LocalRel(rel, e.name), e);
      }
      LocalPathsPlainFrom(rel, dir, i + 1);
    }
  }

  /**
   * The remote walk lists no more files than the local walk would over the same tree: it
   * keeps only regular files where the local one keeps every non-directory.
   */
  lemma {:induction false} RemoteListsNoMoreThanLocal(rrel: string, lrel: string, dir: Node)
    ensures |RemoteFiles(rrel, dir)| <= |LocalFiles(lrel, dir)|
    decreases dir, 1
  {
    RemoteListsNoMoreThanLocalFrom(rrel, lrel, dir, 0);
  }

  lemma {:induction false} RemoteListsNoMoreThanLocalFrom(rrel: string, lrel: string, dir: Node, i: nat)
    requires i <= |dir.entries|
    ensures |RemoteFilesFrom(rrel, dir, i)| <= |LocalFilesFrom(lrel, dir, i)|
    decreases dir, 0, |dir.entries| - i
  {
    if i < |dir.entries| {
      var e := dir.entries[i];
      if e.kind == Directory {
        RemoteListsNoMoreThanLocal(RemoteRel(rrel, e.name), LocalRel(lrel, e.name), e);
      }
      RemoteListsNoMoreThanLocalFrom(rrel, lrel, dir, i + 1);
    }
  }

  /**
   * A directory with no subdirectories: locally every entry is listed, in order; remotely only
   * the regular ones, so a special file found there is listed locally and not remotely.
   */
  lemma {:induction false} FlatDirectoryListings(rrel: string, lrel: string, dir: Node, i: nat)
    requires i <= |dir.entries|
    requires forall k :: i <= k < |dir.entries| ==> dir.entries[k].kind != Directory
    ensures |LocalFilesFrom(lrel, dir, i)| == |dir.entries| - i
    ensures forall k :: i <= k < |dir.entries| ==>
      LocalFilesFrom(lrel, dir, i)[k - i] == FileInfo(LocalRel(lrel, dir.entries[k].name), dir.entries[k].size)
    ensures (forall k :: i <= k < |dir.entries| ==> dir.entries[k].kind != Regular) ==> RemoteFilesFrom(rrel, dir, i) == []
    decreases |dir.entries| - i
  {
    if i < |dir.entries| {
      FlatDirectoryListings(rrel, lrel, dir, i + 1);
      var e := dir.entries[i];
      var rest := LocalFilesFrom(lrel, dir, i + 1);
      assert LocalFilesFrom(lrel, dir, i) == [FileInfo(LocalRel(lrel, e.name), e.size)] + rest;
      forall k | i < k < |dir.entries|
        ensures LocalFilesFrom(lrel, dir, i)[k - i] == FileInfo(LocalRel(lrel, dir.entries[k].name), dir.entries[k].size)
      {
        assert LocalFilesFrom(lrel, dir, i)[k - i] == rest[k - (i + 1)];
      }
    }
  }
}
