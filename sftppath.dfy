/**
 * The SFTP shell's two working directories (pkg/sftp/path.go). SFTP itself has no current
 * directory, so the shell keeps a local and a remote one and resolves every user path
 * against them. Remote paths are built with their own '/'-only `cleanPath` and `joinPath`.
 */
module SftpPath {
  import opened Wrappers
  import GoStrings
  import GoPath

  datatype PathError =
    | UserHomeUnsupported              // "~user not supported"
    | RealPathFailed(path: string)     // "realpath <path>: ..."
    | AbsoluteFailed                   // "absolute path: ..."

  /** One element of `cleanPath`'s loop: ".." drops the last kept element when there is one. */
  function RemoteStep(cleaned: seq<string>, part: string): seq<string> {
    if part == "" || part == "." then cleaned
    else if part == ".." then (if |cleaned| > 0 then cleaned[..|cleaned| - 1] else cleaned)
    else cleaned + [part]
  }

  /** The elements `cleanPath` keeps after scanning `parts` left to right. */
  function RemoteFold(parts: seq<string>): seq<string>
    decreases |parts|
  {
    if |parts| == 0 then []
    else RemoteStep(RemoteFold(parts[..|parts| - 1]), parts[|parts| - 1])
  }

  /** What `cleanPath(path)` returns. */
  function Cleaned(path: string): (r: string)
    ensures |r| > 0 && r[0] == '/'
  {
    var result := "/" + GoPath.JoinSlash(RemoteFold(GoPath.Split(path)));
    if result == "/" then result else GoStrings.TrimSuffixChar(result, '/')
  }

  /** `cleanPath`: the loop that builds the kept elements with append and truncate. */
  method CleanPath(path: string) returns (r: string)
    ensures r == Cleaned(path)
  {
    var parts := GoPath.Split(path);
    var cleaned: seq<string> := [];
    var i := 0;
    while i < |parts|
      invariant 0 <= i <= |parts|
      invariant cleaned == RemoteFold(parts[..i])
    {
      var part := parts[i];
      if part == "" || part == "." {
      } else if part == ".." {
        if |cleaned| > 0 {
          cleaned := cleaned[..|cleaned| - 1];
        }
      } else {
        cleaned := cleaned + [part];
      }
      assert parts[..i + 1][..i] == parts[..i];
      i := i + 1;
    }
    assert parts[..|parts|] == parts;
    var result := "/" + GoPath.JoinSlash(cleaned);
    if result == "/" {
      r := result;
    } else {
      r := GoStrings.TrimSuffixChar(result, '/');
    }
  }

  /** `joinPath`: plain concatenation with exactly one added slash unless `base` already ends in one. */
  function JoinPath(base: string, rel: string): (r: string)
    ensures |r| == |base| + |rel| + (if GoStrings.HasSuffix(base, "/") then 0 else 1)
    ensures r[..|base|] == base && r[|r| - |rel|..] == rel
    ensures !GoStrings.HasSuffix(base, "/") ==> r[|base|] == '/'
  {
    if GoStrings.HasSuffix(base, "/") then base + rel else base + "/" + rel
  }

  class PathState {
    var localCwd: string
    var remoteCwd: string
    var homeLocal: string
    var homeRemote: string

    /** The remote working directory starts at the remote home. */
    constructor (homeLocal: string, localCwd: string, homeRemote: string)
      ensures this.localCwd == localCwd && this.remoteCwd == homeRemote
      ensures this.homeLocal == homeLocal && this.homeRemote == homeRemote
    {
      this.localCwd := localCwd;
      this.remoteCwd := homeRemote;
      this.homeLocal := homeLocal;
      this.homeRemote := homeRemote;
    }

    /** `ResolveLocal`: a user path as a local path, with `filepath` semantics. */
    function ResolveLocal(path: string): (r: Result<string, PathError>)
      reads this
      ensures path == "" || path == "." ==> r == Ok(localCwd)
      ensures r.Err? <==> |path| > 1 && path[0] == '~' && path[1] != '/'
      ensures path == "~" ==> r == Ok(homeLocal)
      ensures GoPath.IsAbs(path) ==> r == Ok(GoPath.Clean(path))
      ensures |path| > 1 && path[0] == '~' && path[1] == '/' ==> r == Ok(GoPath.Join2(homeLocal, path[1..]))
      ensures path != "" && path != "." && !GoPath.IsAbs(path) && path[0] != '~' ==>
        r == Ok(GoPath.Clean(GoPath.Join2(localCwd, path)))
    {
      if path == "" || path == "." then Ok(localCwd)
      else if GoPath.IsAbs(path) then Ok(GoPath.Clean(path))
      else if GoStrings.HasPrefix(path, "~") then
        if |path| > 1 && path[1] != '/' then Err(UserHomeUnsupported)
        else
          var rest := path[1..];
          if rest == "" then Ok(homeLocal) else Ok(GoPath.Join2(homeLocal, rest))
      else Ok(GoPath.Clean(GoPath.Join2(localCwd, path)))
    }

    /** `ResolveRemote`: a user path as a remote path, with the '/'-only helpers. */
    function ResolveRemote(path: string): (r: Result<string, PathError>)
      reads this
      ensures path == "" || path == "." ==> r == Ok(remoteCwd)
      ensures r.Err? <==> |path| > 1 && path[0] == '~' && path[1] != '/'
      ensures path == "~" ==> r == Ok(homeRemote)
      ensures GoPath.IsAbs(path) ==> r == Ok(Cleaned(path))
    {
      if path == "" || path == "." then Ok(remoteCwd)
      else if GoStrings.HasPrefix(path, "/") then Ok(Cleaned(path))
      else if GoStrings.HasPrefix(path, "~") then
        if |path| > 1 && path[1] != '/' then Err(UserHomeUnsupported)
        else
          var rest := path[1..];
          if rest == "" then Ok(homeRemote) else Ok(JoinPath(homeRemote, rest))
      else Ok(JoinPath(remoteCwd, path))
    }

    /**
     * `UpdateRemoteCWD`: the new remote directory is whatever the server's realpath makes of
     * `path`; on failure nothing changes.
     */
    method UpdateRemoteCwd(path: string, realPath: string -> Option<string>) returns (err: Option<PathError>)
      modifies this`remoteCwd
      ensures realPath(path).Some? ==> err.None? && remoteCwd == realPath(path).value
      ensures realPath(path).None? ==> err == Some(RealPathFailed(path)) && remoteCwd == old(remoteCwd)
    {
      var resolved := realPath(path);
      if resolved.None? {
        return Some(RealPathFailed(path));
      }
      remoteCwd := resolved.value;
      return None;
    }

    /**
     * `UpdateLocalCWD`: the new local directory is `filepath.Abs(path)`, which cleans an
     * absolute path and otherwise joins it to the process's working directory `processCwd`
     * (None when that lookup fails).
     */
    method UpdateLocalCwd(path: string, processCwd: Option<string>) returns (err: Option<PathError>)
      modifies this`localCwd
      ensures GoPath.IsAbs(path) ==> err.None? && localCwd == GoPath.Clean(path)
      ensures !GoPath.IsAbs(path) && processCwd.Some? ==>
        err.None? && localCwd == GoPath.Join2(processCwd.value, path)
      ensures !GoPath.IsAbs(path) && processCwd.None? ==>
        err == Some(AbsoluteFailed) && localCwd == old(localCwd)
    {
      var abs: string;
      if GoPath.IsAbs(path) {
        abs := GoPath.Clean(path);
      } else if processCwd.None? {
        return Some(AbsoluteFailed);
      } else {
        abs := GoPath.Join2(processCwd.value, path);
      }
      localCwd := abs;
      return None;
    }
  }

  /** `cleanPath` and the root-anchored `filepath.Clean` agree, and both keep only normal elements. */
  lemma {:induction false} RemoteFoldIsRootedClean(parts: seq<string>)
    requires forall k :: 0 <= k < |parts| ==> '/' !in parts[k]
    ensures RemoteFold(parts) == GoPath.CleanFold([], parts, true)
    ensures GoPath.AllNormal(RemoteFold(parts))
    decreases |parts|
  {
    if |parts| > 0 {
      RemoteFoldIsRootedClean(parts[..|parts| - 1]);
      var s := RemoteFold(parts[..|parts| - 1]);
      if |s| > 0 {
        assert GoPath.Normal(s[|s| - 1]);
      }
    }
  }

  lemma RemoteFoldNormal(path: string)
    ensures GoPath.AllNormal(RemoteFold(GoPath.Split(path)))
    ensures RemoteFold(GoPath.Split(path)) == GoPath.CleanFold([], GoPath.Split(path), true)
  {
    GoPath.SplitPiecesHaveNoSlash(path);
    RemoteFoldIsRootedClean(GoPath.Split(path));
  }

  /** The path `cleanPath` returns is "/" followed by its normal elements joined with slashes. */
  lemma CleanedIsRootPlusElements(path: string)
    ensures Cleaned(path) == "/" + GoPath.JoinSlash(RemoteFold(GoPath.Split(path)))
  {
    var st := RemoteFold(GoPath.Split(path));
    RemoteFoldNormal(path);
    if |st| > 0 {
      GoPath.JoinNormalEnds(st);
    }
  }

  /**
   * `cleanPath` always returns a rooted path with no trailing slash (unless it is "/") whose
   * elements are all non-empty and none of them "." or "..".
   */
  lemma CleanedShape(path: string)
    ensures |Cleaned(path)| > 0 && Cleaned(path)[0] == '/'
    ensures Cleaned(path) != "/" ==>
      Cleaned(path)[|Cleaned(path)| - 1] != '/' &&
      GoPath.Split(Cleaned(path))[0] == "" &&
      GoPath.AllNormal(GoPath.Split(Cleaned(path))[1..])
  {
    var st := RemoteFold(GoPath.Split(path));
    RemoteFoldNormal(path);
    CleanedIsRootPlusElements(path);
    if st != [] {
      GoPath.JoinNormalEnds(st);
      GoPath.SplitAppend("", GoPath.JoinSlash(st));
      GoPath.SplitJoin(st);
      assert "" + "/" + GoPath.JoinSlash(st) == Cleaned(path);
    }
  }

  /** For rooted paths `cleanPath` is exactly `filepath.Clean`. */
  lemma CleanedIsClean(path: string)
    requires GoPath.IsAbs(path)
    ensures Cleaned(path) == GoPath.Clean(path)
  {
    RemoteFoldNormal(path);
    CleanedIsRootPlusElements(path);
  }

  /** `cleanPath` is idempotent. */
  lemma CleanedIdempotent(path: string)
    ensures Cleaned(Cleaned(path)) == Cleaned(path)
  {
    var st := RemoteFold(GoPath.Split(path));
    var c := Cleaned(path);
    RemoteFoldNormal(path);
    CleanedIsRootPlusElements(path);
    assert c == "/" + GoPath.JoinSlash(st);
    RemoteFoldNormal(c);
    GoPath.CleanFoldRootParts(st);
    assert RemoteFold(GoPath.Split(c)) == st;
    CleanedIsRootPlusElements(c);
  }

  /** ".." at the root is dropped. */
  lemma CleanedRootParent()
    ensures Cleaned("/..") == "/"
  {
    var p := "/..";
    assert p[1..] == "..";
    GoPath.SplitNoSlash("..");
    assert GoPath.Split(p) == ["", ".."];
    var parts := ["", ".."];
    assert parts[..1] == [""];
    assert [""][..0] == [];
    assert RemoteFold(parts) == [];
  }

  /** ".." below the root cancels the element before it. */
  lemma CleanedParentCancels()
    ensures Cleaned("/x/../y") == "/y"
  {
    SplitParentExample();
    FoldParentExample();
    assert GoPath.JoinSlash(["y"]) == "y";
  }

  lemma SplitParentExample()
    ensures GoPath.Split("/x/../y") == ["", "x", "..", "y"]
  {
    var p := "/x/../y";
    assert p == "" + "/" + "x/../y";
    GoPath.SplitAppend("", "x/../y");
    assert "x/../y" == "x" + "/" + "../y";
    GoPath.SplitAppend("x", "../y");
    assert "../y" == ".." + "/" + "y";
    GoPath.SplitAppend("..", "y");
    GoPath.SplitNoSlash("x");
    GoPath.SplitNoSlash("..");
    GoPath.SplitNoSlash("y");
  }

  lemma FoldParentExample()
    ensures RemoteFold(["", "x", "..", "y"]) == ["y"]
  {
    var parts := ["", "x", "..", "y"];
    assert parts[..3] == ["", "x", ".."];
    assert parts[..3][..2] == ["", "x"];
    assert parts[..3][..2][..1] == [""];
    assert [""][..0] == [];
    assert RemoteFold([""]) == [];
    assert RemoteFold(["", "x"]) == ["x"];
    assert RemoteFold(["", "x", ".."]) == [];
  }

  /**
   * `joinPath` only concatenates: every element of `rel`, ".." included, survives in the
   * result, after the elements of `base` (whose trailing empty element is absorbed).
   */
  lemma JoinPathKeepsElements(base: string, rel: string)
    ensures !GoStrings.HasSuffix(base, "/") ==>
      GoPath.Split(JoinPath(base, rel)) == GoPath.Split(base) + GoPath.Split(rel)
    ensures GoStrings.HasSuffix(base, "/") ==>
      GoPath.Split(JoinPath(base, rel)) ==
        GoPath.Split(base)[..|GoPath.Split(base)| - 1] + GoPath.Split(rel)
  {
    if GoStrings.HasSuffix(base, "/") {
      var b := base[..|base| - 1];
      assert base == b + "/" + "";
      assert JoinPath(base, rel) == b + "/" + rel;
      GoPath.SplitAppend(b, "");
      GoPath.SplitAppend(b, rel);
      assert GoPath.Split(base) == GoPath.Split(b) + [""];
      assert GoPath.Split(base)[..|GoPath.Split(base)| - 1] == GoPath.Split(b);
    } else {
      GoPath.SplitAppend(base, rel);
    }
  }

  /** A relative remote path is appended to the remote directory without any cleaning. */
  lemma ResolveRemoteRelative(ps: PathState, path: string)
    requires path != "" && path != "." && path[0] != '/' && path[0] != '~'
    ensures ps.ResolveRemote(path) == Ok(JoinPath(ps.remoteCwd, path))
    ensures !GoStrings.HasSuffix(ps.remoteCwd, "/") ==>
      GoPath.Split(ps.ResolveRemote(path).value) == GoPath.Split(ps.remoteCwd) + GoPath.Split(path)
  {
    JoinPathKeepsElements(ps.remoteCwd, path);
  }

  /** So ".." from "/a/b" gives "/a/b/..", not "/a". */
  lemma ResolveRemoteParentIsNotCollapsed(ps: PathState)
    requires ps.remoteCwd == "/a/b"
    ensures ps.ResolveRemote("..") == Ok("/a/b/..")
  {
    assert !GoStrings.HasSuffix("/a/b", "/");
    assert !GoStrings.HasPrefix("..", "/") && !GoStrings.HasPrefix("..", "~");
    assert "/a/b" + "/" + ".." == "/a/b/..";
  }

  /** "~/rest" joins the home with "/rest", so a home without a trailing slash gets a double slash. */
  lemma ResolveRemoteHomeDoubleSlash(ps: PathState, rest: string)
    ensures ps.ResolveRemote("~/" + rest) == Ok(JoinPath(ps.homeRemote, "/" + rest))
    ensures !GoStrings.HasSuffix(ps.homeRemote, "/") ==>
      ps.ResolveRemote("~/" + rest) == Ok(ps.homeRemote + "//" + rest)
  {
    var p := "~/" + rest;
    assert p[1..] == "/" + rest;
    assert GoStrings.HasPrefix(p, "~");
    assert ps.homeRemote + "/" + ("/" + rest) == ps.homeRemote + "//" + rest;
  }

  /** Unlike the remote side, ".." from the local directory "/a/b" is cleaned to "/a". */
  lemma ResolveLocalParentCollapses(ps: PathState)
    requires ps.localCwd == "/a/b"
    ensures ps.ResolveLocal("..") == Ok("/a")
  {
    assert "/a/b" + "/" + ".." == "/a/b/..";
    CleanParentOfAB();
    CleanA();
  }

  lemma CleanParentOfAB()
    ensures GoPath.Clean("/a/b/..") == "/a"
  {
    var p1: seq<string> := [""];
    var p2 := p1 + ["a"];
    var p3 := p2 + ["b"];
    var p4 := p3 + [".."];
    assert p4 == ["", "a", "b", ".."];
    assert GoPath.Split("/a/b/..") == p4 by {
      assert p4[1..] == ["a", "b", ".."] && p4[1..][1..] == ["b", ".."] && p4[1..][1..][1..] == [".."];
      assert GoPath.JoinSlash(["b", ".."]) == "b/..";
      assert GoPath.JoinSlash(["a", "b", ".."]) == "a/b/..";
      assert GoPath.JoinSlash(p4) == "/a/b/..";
      GoPath.SplitJoin(p4);
    }
    assert p4[..3] == p3 && p3[..2] == p2 && p2[..1] == p1;
    assert GoPath.CleanFold([], p1, true) == [];
    assert GoPath.CleanFold([], p2, true) == ["a"];
    assert GoPath.CleanFold([], p3, true) == ["a", "b"];
    assert GoPath.CleanFold([], p4, true) == ["a"];
  }

  lemma CleanA()
    ensures GoPath.Clean("/a") == "/a"
  {
    var parts := ["", "a"];
    assert GoPath.JoinSlash(parts) == "/a";
    GoPath.SplitJoin(parts);
    assert parts[..1] == [""];
    assert GoPath.CleanFold([], parts, true) == ["a"];
  }

  /** With absolute working and home directories, every resolved local path is absolute. */
  lemma ResolveLocalIsAbsolute(ps: PathState, path: string)
    requires GoPath.IsAbs(ps.localCwd) && GoPath.IsAbs(ps.homeLocal)
    requires ps.ResolveLocal(path).Ok?
    ensures GoPath.IsAbs(ps.ResolveLocal(path).value)
  {
  }

  /** With absolute working and home directories, every resolved remote path is absolute. */
  lemma ResolveRemoteIsAbsolute(ps: PathState, path: string)
    requires GoPath.IsAbs(ps.remoteCwd) && GoPath.IsAbs(ps.homeRemote)
    requires ps.ResolveRemote(path).Ok?
    ensures GoPath.IsAbs(ps.ResolveRemote(path).value)
  {
    CleanedShape(path);
  }
}
