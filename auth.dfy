/**
 * Authentication method ordering (pkg/ssh/auth.go): a key first (the configured one, or else
 * the first default key that loads), then the password when one is set, then the SSH agent
 * when it offers keys. Whether a key file loads, whether the agent is available and the home
 * directory are parameters.
 */
module SshAuth {
  import opened Wrappers
  import GoPath

  datatype AuthMethod =
    | PublicKey(keyPath: string)
    | Password(secret: string)
    | Agent

  /** The subset of `HostConfig` that authentication reads. */
  datatype HostConfig = HostConfig(hostname: string, user: string, port: int, password: string, keyPath: string)

  /** `defaultKeyPaths`, in the order they are tried. */
  const DefaultKeyPaths: seq<string> := ["~/.ssh/id_ed25519", "~/.ssh/id_rsa", "~/.ssh/id_ecdsa", "~/.ssh/id_dsa"]

  /**
   * `expandPath`: a path starting with "~" becomes home joined with the rest; anything else,
   * or any path when the home lookup fails, is returned unchanged.
   */
  function ExpandPath(path: string, home: Option<string>): (r: string)
    ensures path == "" || path[0] != '~' || home.None? ==> r == path
    ensures path != "" && path[0] == '~' && home.Some? ==> r == GoPath.Join2(home.value, path[1..])
  {
    if path == "" || path[0] != '~' then path
    else match home
      case None => path
      case Some(h) => GoPath.Join2(h, path[1..])
  }

  /** The key method from the defaults: the first of `paths[i..]` (expanded) that loads, if any. */
  function FirstLoadable(paths: seq<string>, i: nat, loadKey: string -> bool, home: Option<string>): seq<AuthMethod>
    requires i <= |paths|
    decreases |paths| - i
  {
    if i == |paths| then []
    else if loadKey(ExpandPath(paths[i], home)) then [PublicKey(ExpandPath(paths[i], home))]
    else FirstLoadable(paths, i + 1, loadKey, home)
  }

  /** The key part of the list: only the configured key when there is one, else the defaults. */
  function KeyMethods(keyPath: string, loadKey: string -> bool, home: Option<string>): seq<AuthMethod> {
    if keyPath != "" then (if loadKey(keyPath) then [PublicKey(keyPath)] else [])
    else FirstLoadable(DefaultKeyPaths, 0, loadKey, home)
  }

  /**
   * `AuthMethodsFromConfig`: key, then password, then agent. The error result is always
   * None. A configured key path is used as it is, without `~` expansion.
   */
  method AuthMethodsFromConfig(keyPath: string, password: string, loadKey: string -> bool,
                               home: Option<string>, agentAvailable: bool)
    returns (methods: seq<AuthMethod>, err: Option<string>)
    ensures err.None?
    ensures methods == KeyMethods(keyPath, loadKey, home)
                       + (if password != "" then [Password(password)] else [])
                       + (if agentAvailable then [Agent] else [])
  {
    methods := [];
    if keyPath != "" {
      if loadKey(keyPath) {
        methods := methods + [PublicKey(keyPath)];
      }
    } else {
      methods := FirstDefaultKey(DefaultKeyPaths, loadKey, home);
    }
    if password != "" {
      methods := methods + [Password(password)];
    }
    if agentAvailable {
      methods := methods + [Agent];
    }
    err := None;
  }

  /** The loop over the default key paths: the first one that loads after `~` expansion. */
  method FirstDefaultKey(paths: seq<string>, loadKey: string -> bool, home: Option<string>)
    returns (methods: seq<AuthMethod>)
    ensures methods == FirstLoadable(paths, 0, loadKey, home)
  {
    methods := [];
    var i := 0;
    while i < |paths|
      invariant 0 <= i <= |paths|
      invariant FirstLoadable(paths, 0, loadKey, home) == FirstLoadable(paths, i, loadKey, home)
    {
      var expandedPath := ExpandPath(paths[i], home);
      if loadKey(expandedPath) {
        methods := [PublicKey(expandedPath)];
        return;
      }
      i := i + 1;
    }
  }

  /** `AuthMethods`: the same list for a host's configuration (it also prints a warning when the configured key fails). */
  method AuthMethods(host: HostConfig, loadKey: string -> bool, home: Option<string>, agentAvailable: bool)
    returns (methods: seq<AuthMethod>, err: Option<string>)
    ensures err.None?
    ensures methods == KeyMethods(host.keyPath, loadKey, home)
                       + (if host.password != "" then [Password(host.password)] else [])
                       + (if agentAvailable then [Agent] else [])
  {
    methods, err := AuthMethodsFromConfig(host.keyPath, host.password, loadKey, home, agentAvailable);
  }

  /** The default key part is at most one public key. */
  lemma {:induction false} FirstLoadableKeys(paths: seq<string>, i: nat, loadKey: string -> bool, home: Option<string>)
    requires i <= |paths|
    ensures |FirstLoadable(paths, i, loadKey, home)| <= 1
    ensures forall m :: m in FirstLoadable(paths, i, loadKey, home) ==> m.PublicKey?
    decreases |paths| - i
  {
    if i < |paths| && !loadKey(ExpandPath(paths[i], home)) {
      FirstLoadableKeys(paths, i + 1, loadKey, home);
    }
  }

  /** No default key is used exactly when none of them loads. */
  lemma {:induction false} FirstLoadableEmptyIff(paths: seq<string>, i: nat, loadKey: string -> bool, home: Option<string>)
    requires i <= |paths|
    ensures FirstLoadable(paths, i, loadKey, home) == [] <==>
      forall k :: i <= k < |paths| ==> !loadKey(ExpandPath(paths[k], home))
    decreases |paths| - i
  {
    if i < |paths| && !loadKey(ExpandPath(paths[i], home)) {
      FirstLoadableEmptyIff(paths, i + 1, loadKey, home);
    }
  }

  /**
   * The default key actually used is the first loadable one: it loads, and none of the
   * defaults before it does.
   */
  lemma {:induction false} FirstLoadableIsFirst(paths: seq<string>, i: nat, loadKey: string -> bool, home: Option<string>)
    requires i <= |paths|
    ensures FirstLoadable(paths, i, loadKey, home) != [] ==>
      exists k :: i <= k < |paths| &&
        FirstLoadable(paths, i, loadKey, home) == [PublicKey(ExpandPath(paths[k], home))] &&
        loadKey(ExpandPath(paths[k], home)) &&
        (forall j :: i <= j < k ==> !loadKey(ExpandPath(paths[j], home)))
    decreases |paths| - i
  {
    if i < |paths| {
      if loadKey(ExpandPath(paths[i], home)) {
        assert FirstLoadable(paths, i, loadKey, home) == [PublicKey(ExpandPath(paths[i], home))];
      } else {
        FirstLoadableIsFirst(paths, i + 1, loadKey, home);
      }
    }
  }

  /** The result is always ordered key, password, agent, with each kind at most once. */
  lemma MethodOrder(keyPath: string, password: string, loadKey: string -> bool, home: Option<string>, agentAvailable: bool)
    ensures var ms := KeyMethods(keyPath, loadKey, home)
                      + (if password != "" then [Password(password)] else [])
                      + (if agentAvailable then [Agent] else []);
      && |ms| <= 3
      && (forall i, j :: 0 <= i < j < |ms| ==> Rank(ms[i]) < Rank(ms[j]))
      && (Password(password) in ms <==> password != "")
      && (Agent in ms <==> agentAvailable)
  {
    var ks := KeyMethods(keyPath, loadKey, home);
    if keyPath == "" {
      FirstLoadableKeys(DefaultKeyPaths, 0, loadKey, home);
    }
    OrderOfParts(ks, password, agentAvailable);
  }

  lemma OrderOfParts(ks: seq<AuthMethod>, password: string, agentAvailable: bool)
    requires |ks| <= 1 && forall m :: m in ks ==> m.PublicKey?
    ensures var ms := ks + (if password != "" then [Password(password)] else [])
                         + (if agentAvailable then [Agent] else []);
      && |ms| <= 3
      && (forall i, j :: 0 <= i < j < |ms| ==> Rank(ms[i]) < Rank(ms[j]))
      && (Password(password) in ms <==> password != "")
      && (Agent in ms <==> agentAvailable)
  {
  }

  /** Position of a method kind in the priority order. */
  function Rank(m: AuthMethod): nat {
    match m
    case PublicKey(_) => 0
    case Password(_) => 1
    case Agent => 2
  }

  /** With a configured key, no default key is ever tried. */
  lemma ExplicitKeyOnly(keyPath: string, loadKey: string -> bool, home: Option<string>)
    requires keyPath != ""
    ensures KeyMethods(keyPath, loadKey, home) == if loadKey(keyPath) then [PublicKey(keyPath)] else []
  {
  }

  /** With a rooted clean home, the defaults expand to home + "/.ssh/<name>". */
  lemma DefaultKeyUnderHome(homeParts: seq<string>, name: string)
    requires GoPath.AllNormal(homeParts) && GoPath.Normal(name)
    ensures ExpandPath("~/.ssh/" + name, Some("/" + GoPath.JoinSlash(homeParts))) ==
      "/" + GoPath.JoinSlash(homeParts + [".ssh", name])
  {
    var p := "~/.ssh/" + name;
    assert p[1..] == "/" + GoPath.JoinSlash([".ssh", name]) by {
      assert [".ssh", name][1..] == [name];
    }
    assert GoPath.Normal(".ssh") by {
      assert ".ssh"[0] == '.' && ".ssh"[1] == 's';
    }
    GoPath.JoinUnderRoot(homeParts, [".ssh", name]);
  }
}
