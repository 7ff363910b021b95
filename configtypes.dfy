/**
 * Host descriptors and the host tree (pkg/config/types.go): validation with defaults, `~`
 * expansion of key paths, and lookup of a host by its '/'-separated path through the groups.
 * The home directory is a parameter (None when it cannot be determined).
 */
module ConfigTypes {
  import opened Wrappers
  import GoStrings
  import GoPath

  /** One entry of the tree: a leaf host, or a group with children. */
  datatype Host = Host(
    name: string,
    hostname: string,
    user: string,
    port: int,
    password: string,
    keyPath: string,
    jump: seq<Host>,
    children: seq<Host>,
    callbackShells: seq<string>)

  datatype Config = Config(hosts: seq<Host>)

  datatype ValidationError =
    | KeyPathExpansion                 // "keypath expansion: ..."
    | Invalid(problems: seq<string>)   // "host validation errors: ..."

  const NameRequired := "name is required"
  const HostRequired := "host is required"
  const UserRequired := "user is required"
  const DefaultPort := 22

  /** `strings.Join(parts, ", ")`. */
  function JoinComma(parts: seq<string>): string {
    if |parts| == 0 then ""
    else if |parts| == 1 then parts[0]
    else parts[0] + ", " + JoinComma(parts[1..])
  }

  /** The text of a validation error. */
  function Message(e: ValidationError): string {
    match e
    case KeyPathExpansion => "keypath expansion"
    case Invalid(problems) => "host validation errors: " + JoinComma(problems)
  }

  /** The missing fields `Validate` reports, in the order it checks them. */
  function Problems(h: Host): (r: seq<string>)
    ensures NameRequired in r <==> h.name == ""
    ensures HostRequired in r <==> |h.children| == 0 && h.hostname == ""
    ensures UserRequired in r <==> |h.children| == 0 && h.user == ""
    ensures forall p :: p in r ==> p == NameRequired || p == HostRequired || p == UserRequired
  {
    (if h.name == "" then [NameRequired] else [])
    + (if |h.children| == 0 && h.hostname == "" then [HostRequired] else [])
    + (if |h.children| == 0 && h.user == "" then [UserRequired] else [])
  }

  /**
   * `expandPath`: "~/x" is home joined with x, any other path starting with "~" is home itself,
   * and everything else is returned as it is; Err when home is needed but unknown.
   */
  function ExpandPath(path: string, home: Option<string>): (r: Result<string, ()>)
    ensures !GoStrings.HasPrefix(path, "~") ==> r == Ok(path)
    ensures GoStrings.HasPrefix(path, "~") ==> (r.Err? <==> home.None?)
    ensures GoStrings.HasPrefix(path, "~") && !GoStrings.HasPrefix(path, "~/") && home.Some? ==>
      r == Ok(home.value)
    ensures GoStrings.HasPrefix(path, "~/") && home.Some? ==> r == Ok(GoPath.Join2(home.value, path[2..]))
  {
    if GoStrings.HasPrefix(path, "~/") then
      if home.None? then Err(()) else Ok(GoPath.Join2(home.value, path[2..]))
    else if GoStrings.HasPrefix(path, "~") then
      if home.None? then Err(()) else Ok(home.value)
    else Ok(path)
  }

  /**
   * `Host.Validate`. The source updates the host in place; here the updated host is returned
   * beside the error. The port default and the key path expansion happen before the
   * problems are reported, so they are applied to a host that then fails validation.
   */
  method Validate(h: Host, home: Option<string>) returns (updated: Host, err: Option<ValidationError>)
    ensures updated == h.(port := updated.port, keyPath := updated.keyPath)
    ensures updated.port == if h.port == 0 then DefaultPort else h.port
    ensures h.keyPath != "" && ExpandPath(h.keyPath, home).Err? ==>
      err == Some(KeyPathExpansion) && updated.keyPath == h.keyPath
    ensures h.keyPath == "" ==> updated.keyPath == ""
    ensures h.keyPath != "" && ExpandPath(h.keyPath, home).Ok? ==>
      updated.keyPath == ExpandPath(h.keyPath, home).value
    ensures !(h.keyPath != "" && ExpandPath(h.keyPath, home).Err?) ==>
      err == if Problems(h) == [] then None else Some(Invalid(Problems(h)))
  {
    var errs: seq<string> := [];
    if h.name == "" {
      errs := errs + [NameRequired];
    }
    if |h.children| == 0 {
      if h.hostname == "" {
        errs := errs + [HostRequired];
      }
      if h.user == "" {
        errs := errs + [UserRequired];
      }
    }
    assert errs == Problems(h);
    updated := h;
    if h.port == 0 {
      updated := updated.(port := DefaultPort);
    }
    if h.keyPath != "" {
      var expanded := ExpandPath(h.keyPath, home);
      if expanded.Err? {
        return updated, Some(KeyPathExpansion);
      }
      updated := updated.(keyPath := expanded.value);
    }
    if |errs| > 0 {
      return updated, Some(Invalid(errs));
    }
    return updated, None;
  }

  /** A host passes exactly when it has a name and, being a leaf, a host and a user; groups need only a name. */
  lemma ProblemsEmptyIff(h: Host)
    ensures Problems(h) == [] <==>
      h.name != "" && (|h.children| > 0 || (h.hostname != "" && h.user != ""))
  {
  }

  /** A leaf missing everything reports the three messages in the order name, host, user. */
  lemma ProblemsOrder(h: Host)
    requires h.name == "" && h.hostname == "" && h.user == "" && |h.children| == 0
    ensures Message(Invalid(Problems(h))) ==
      "host validation errors: " + NameRequired + ", " + HostRequired + ", " + UserRequired
  {
    var ps := Problems(h);
    assert ps == [NameRequired, HostRequired, UserRequired];
    assert ps[1..] == [HostRequired, UserRequired];
    assert ps[1..][1..] == [UserRequired];
    assert JoinComma(ps[1..][1..]) == UserRequired;
    assert JoinComma(ps[1..]) == HostRequired + ", " + UserRequired;
    assert JoinComma(ps) == NameRequired + ", " + (HostRequired + ", " + UserRequired);
  }

  /** With a rooted clean home the expansion of "~/x" for normal elements x is home + "/" + x. */
  lemma ExpandUnderHome(homeParts: seq<string>, rel: seq<string>)
    requires GoPath.AllNormal(homeParts) && |rel| >= 1 && GoPath.AllNormal(rel)
    ensures ExpandPath("~/" + GoPath.JoinSlash(rel), Some("/" + GoPath.JoinSlash(homeParts))) ==
      Ok("/" + GoPath.JoinSlash(homeParts + rel))
  {
    var p := "~/" + GoPath.JoinSlash(rel);
    assert p[2..] == GoPath.JoinSlash(rel);
    assert GoStrings.HasPrefix(p, "~/");
    GoPath.JoinUnderRoot(homeParts, rel);
  }

  /** With an absolute home, an expanded path is absolute or unchanged, so expanding twice changes nothing. */
  lemma ExpandPathIdempotent(path: string, home: string)
    requires GoPath.IsAbs(home)
    requires ExpandPath(path, Some(home)).Ok?
    ensures ExpandPath(ExpandPath(path, Some(home)).value, Some(home)) == ExpandPath(path, Some(home))
  {
    var r := ExpandPath(path, Some(home)).value;
    if GoStrings.HasPrefix(path, "~/") {
      assert GoPath.IsAbs(home + "/" + path[2..]);
      assert GoPath.IsAbs(r);
    }
    assert !GoStrings.HasPrefix(r, "~");
  }

  /**
   * The index of the first host called `name`: `findHostByPath` and `FindHost` both stop at
   * the first match at each level.
   */
  function FirstNamed(hosts: seq<Host>, name: string): (r: Option<nat>)
    ensures r.Some? ==> r.value < |hosts| && hosts[r.value].name == name
    ensures r.Some? ==> forall j :: 0 <= j < r.value ==> hosts[j].name != name
    ensures r.None? ==> forall j :: 0 <= j < |hosts| ==> hosts[j].name != name
  {
    if |hosts| == 0 then None
    else if hosts[0].name == name then Some(0)
    else match FirstNamed(hosts[1..], name)
      case None => None
      case Some(k) => Some(k + 1)
  }

  /** `findHostByPath`: follow the first host with each segment's name down through the children. */
  function FindHostByPath(hosts: seq<Host>, path: seq<string>): (r: Option<Host>)
    ensures |path| == 0 ==> r.None?
    ensures r.Some? ==> |path| > 0 && r.value.name == path[|path| - 1]
    decreases |path|
  {
    if |path| == 0 then None
    else match FirstNamed(hosts, path[0])
      case None => None
      case Some(k) =>
        if |path| == 1 then Some(hosts[k]) else FindHostByPath(hosts[k].children, path[1..])
  }

  /** `GetHostsAtPath`: the top level for the empty path, else the children of the host found there. */
  function GetHostsAtPath(c: Config, path: seq<string>): (r: seq<Host>)
    ensures |path| == 0 ==> r == c.hosts
    ensures |path| == 1 ==> forall h :: h in r ==>
      exists k :: 0 <= k < |c.hosts| && c.hosts[k].name == path[0] && h in c.hosts[k].children
  {
    if |path| == 0 then c.hosts
    else match FindHostByPath(c.hosts, path)
      case None => []
      case Some(h) => h.children
  }

  /** Lookup never backtracks: a later sibling with the same name is never searched. */
  lemma FirstSiblingShadows(b: Host, a1: Host, a2: Host)
    requires a1.name == "a" && a2.name == "a" && b.name == "b"
    requires a1.children == [] && a2.children == [b]
    ensures FindHostByPath([a2], ["a", "b"]) == Some(b)
    ensures FindHostByPath([a1, a2], ["a", "b"]) == None
  {
    assert ["a", "b"][1..] == ["b"];
  }

  /** `FindHost`: split the name on "/" and descend one level per segment. */
  method FindHost(c: Config, name: string) returns (r: Option<Host>)
    ensures r == FindHostByPath(c.hosts, GoPath.Split(name))
    ensures r.Some? ==> r.value.name == GoPath.Split(name)[|GoPath.Split(name)| - 1]
  {
    var path := GoPath.Split(name);
    var currentLevel := c.hosts;
    var i := 0;
    while i < |path|
      invariant 0 <= i < |path|
      invariant FindHostByPath(c.hosts, path) == FindHostByPath(currentLevel, path[i..])
      decreases |path| - i
    {
      var level := currentLevel;
      assert path[i..][0] == path[i] && path[i..][1..] == path[i + 1..];
      var found := false;
      var j := 0;
      while j < |level|
        invariant 0 <= j <= |level|
        invariant forall k :: 0 <= k < j ==> level[k].name != path[i]
      {
        if level[j].name == path[i] {
          assert FirstNamed(level, path[i]) == Some(j);
          if i == |path| - 1 {
            r := Some(level[j]);
            return;
          }
          currentLevel := level[j].children;
          found := true;
          break;
        }
        j := j + 1;
      }
      if !found {
        assert FirstNamed(level, path[i]) == None;
        return None;
      }
      i := i + 1;
    }
    assert false;
  }
}
