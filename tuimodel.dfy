/**
 * The host picker's key handling (pkg/tui/model.go): the host list with its cursor and its
 * descent into groups, the incremental search, and the choice between ssh and sftp. The
 * Bubbletea model is passed by value, so each `update*` is a function from the model to the
 * new model; `filterHosts`, which appends to the model's filtered list in a loop, is a method
 * proved against the function `Filtered`. Styling and rendering are not modelled.
 */
module TuiModel {
  import opened Wrappers
  import GoStrings
  import ConfigTypes

  type Host = ConfigTypes.Host

  datatype ViewMode = HostList | Searching | SelectAction

  /** A key press: what `msg.String()` gives, and the typed runes when it is a rune key (`tea.KeyRunes`). */
  datatype Key = Key(str: string, runes: Option<string>)

  datatype Msg = KeyMsg(key: Key) | WindowSizeMsg(width: int, height: int) | OtherMsg

  /** The command returned with the new model: none, `tea.Quit`, or `tea.WindowSize()`. */
  datatype Cmd = NoCmd | Quit | WindowSize

  /** The fields of `Model` that key handling reads or writes, and the terminal size. */
  datatype Model = Model(
    config: ConfigTypes.Config,
    hosts: seq<Host>,          // the hosts at the current level
    filtered: seq<Host>,       // what the list shows
    cursor: int,
    actionCursor: int,         // 0 = ssh, 1 = sftp
    selected: Option<Host>,
    searching: bool,
    query: string,
    quitted: bool,
    mode: ViewMode,
    action: string,
    currentPath: seq<string>,  // the names of the groups entered, from the top
    width: int,
    height: int)

  /** The cursor indexes the shown list whenever it is non-empty; `Enter` relies on it. */
  predicate CursorInRange(m: Model) {
    0 <= m.cursor && (m.filtered != [] ==> m.cursor < |m.filtered|)
  }

  /**
   * What every reachable model satisfies: the cursor is in range (0 on an empty list), the
   * action cursor is 0 or 1, a host is selected exactly in action mode and it is one of the
   * shown hosts, and the shown hosts are among the hosts of the level.
   */
  predicate Valid(m: Model) {
    && CursorInRange(m)
    && (m.filtered == [] ==> m.cursor == 0)
    && (m.actionCursor == 0 || m.actionCursor == 1)
    && (m.mode == SelectAction <==> m.selected.Some?)
    && (m.selected.Some? ==> m.selected.value in m.filtered)
    && (forall h :: h in m.filtered ==> h in m.hosts)
  }

  /** The hosts shown belong to the level the path names. */
  predicate PathConsistent(m: Model) {
    m.hosts == ConfigTypes.GetHostsAtPath(m.config, m.currentPath)
  }

  /** Sibling names differ at every level of the tree. */
  predicate TreeUnique(hosts: seq<Host>)
    decreases hosts
  {
    && (forall i, j :: 0 <= i < j < |hosts| ==> hosts[i].name != hosts[j].name)
    && (forall k :: 0 <= k < |hosts| ==> TreeUnique(hosts[k].children))
  }

  /** `NewModel`: the top level of the tree, 80 by 24, in the host list. */
  function NewModel(cfg: ConfigTypes.Config): (m: Model)
    ensures Valid(m) && PathConsistent(m) && m.mode == HostList && m.currentPath == []
  {
    var hosts := ConfigTypes.GetHostsAtPath(cfg, []);
    Model(cfg, hosts, hosts, 0, 0, None, false, "", false, HostList, "", [], 80, 24)
  }

  /** `Init` asks for the window size. */
  function Init(m: Model): (c: Cmd)
    ensures c == WindowSize
  {
    WindowSize
  }

  // ---------------------------------------------------------------- search filter

  /** A host matches a lower-cased query when its lower-cased name, host or user contains it. */
  predicate Matches(h: Host, q: string) {
    || GoStrings.Contains(GoStrings.ToLower(h.name), q)
    || GoStrings.Contains(GoStrings.ToLower(h.hostname), q)
    || GoStrings.Contains(GoStrings.ToLower(h.user), q)
  }

  /** The hosts that match `q`, in their original order. */
  function Matching(hosts: seq<Host>, q: string): seq<Host>
    decreases |hosts|
  {
    if hosts == [] then []
    else
      var last := hosts[|hosts| - 1];
      Matching(hosts[..|hosts| - 1], q) + (if Matches(last, q) then [last] else [])
  }

  /** What `filterHosts` leaves in `filtered`: every host for the empty query, else the matching ones. */
  function Filtered(hosts: seq<Host>, query: string): seq<Host> {
    if query == "" then hosts else Matching(hosts, GoStrings.ToLower(query))
  }

  /** `filterHosts` as seen from the model: the filtered list recomputed, the cursor back at the top. */
  function FilterOf(m: Model): Model {
    m.(filtered := Filtered(m.hosts, m.query), cursor := 0)
  }

  /** `filterHosts`: the loop over the level's hosts. */
  method FilterHosts(m: Model) returns (r: Model)
    ensures r == FilterOf(m)
  {
    if m.query == "" {
      return m.(filtered := m.hosts, cursor := 0);
    }
    var query := GoStrings.ToLower(m.query);
    var filtered: seq<Host> := [];
    var i := 0;
    while i < |m.hosts|
      invariant 0 <= i <= |m.hosts|
      invariant filtered == Matching(m.hosts[..i], query)
    {
      var host := m.hosts[i];
      assert m.hosts[..i + 1][..i] == m.hosts[..i];
      if Matches(host, query) {
        filtered := filtered + [host];
      }
      i := i + 1;
    }
    assert m.hosts[..|m.hosts|] == m.hosts;
    return m.(filtered := filtered, cursor := 0);
  }

  // ---------------------------------------------------------------- key handling

  /**
   * `updateHostList`. It never quits or changes the configuration, keeps the cursor in range,
   * and leaves the mode only for the search ("/", with an empty query) or, on Enter, for the
   * action menu with a leaf selected.
   */
  function UpdateHostList(m: Model, k: Key): (r: Model)
    requires CursorInRange(m)
    ensures r.config == m.config && r.quitted == m.quitted && r.action == m.action
    ensures CursorInRange(r)
    ensures r.mode != m.mode ==>
      (k.str == "/" && r.mode == Searching && r.query == "") ||
      (k.str == "enter" && r.mode == SelectAction && r.selected.Some? && r.selected.value in m.filtered &&
       |r.selected.value.children| == 0)
  {
    if k.str == "up" || k.str == "k" then
      (if m.cursor > 0 then m.(cursor := m.cursor - 1) else m)
    else if k.str == "down" || k.str == "j" then
      (if m.cursor < |m.filtered| - 1 then m.(cursor := m.cursor + 1) else m)
    else if k.str == "enter" then
      if |m.filtered| > 0 then
        var sel := m.filtered[m.cursor];
        if |sel.children| > 0 then
          m.(currentPath := m.currentPath + [sel.name], hosts := sel.children, filtered := sel.children, cursor := 0)
        else
          m.(selected := Some(sel), mode := SelectAction)
      else m
    else if k.str == "esc" then
      if |m.currentPath| > 0 then
        var path := m.currentPath[..|m.currentPath| - 1];
        var hosts := ConfigTypes.GetHostsAtPath(m.config, path);
        m.(currentPath := path, hosts := hosts, filtered := hosts, cursor := 0)
      else m
    else if k.str == "/" then
      m.(mode := Searching, searching := true, query := "")
    else m
  }

  /**
   * `updateSearching`. It never quits and never changes the level; it leaves the search only
   * on Esc, back to the host list with the query cleared, or on Enter with the first shown
   * host selected.
   */
  function UpdateSearching(m: Model, k: Key): (r: Model)
    ensures r.config == m.config && r.quitted == m.quitted && r.hosts == m.hosts && r.currentPath == m.currentPath
    ensures r.mode != m.mode ==>
      (k.str == "esc" && r.mode == HostList && r.query == "" && r.filtered == m.hosts) ||
      (k.str == "enter" && |m.filtered| > 0 && r.mode == SelectAction && r.selected == Some(m.filtered[0]))
  {
    if k.str == "esc" then
      m.(mode := HostList, searching := false, query := "", filtered := m.hosts, cursor := 0)
    else if k.str == "enter" then
      if |m.filtered| > 0 then m.(selected := Some(m.filtered[0]), mode := SelectAction) else m
    else if k.str == "backspace" then
      if |m.query| > 0 then FilterOf(m.(query := m.query[..|m.query| - 1])) else m
    else match k.runes
      case Some(r) => FilterOf(m.(query := m.query + r))
      case None => m
  }

  /** `updateSelectAction`: the only key here that returns a command is Enter, which quits. */
  function UpdateSelectAction(m: Model, k: Key): (r: (Model, Cmd))
    ensures r.1 == Quit <==> k.str == "enter"
    ensures r.1 != WindowSize
    ensures (m.actionCursor == 0 || m.actionCursor == 1) ==> (r.0.actionCursor == 0 || r.0.actionCursor == 1)
    ensures r.0.hosts == m.hosts && r.0.filtered == m.filtered && r.0.currentPath == m.currentPath && r.0.quitted == m.quitted
  {
    if k.str == "up" || k.str == "k" then
      (if m.actionCursor > 0 then m.(actionCursor := m.actionCursor - 1) else m, NoCmd)
    else if k.str == "down" || k.str == "j" then
      (if m.actionCursor < 1 then m.(actionCursor := m.actionCursor + 1) else m, NoCmd)
    else if k.str == "enter" then
      (m.(action := if m.actionCursor == 0 then "ssh" else "sftp"), Quit)
    else if k.str == "esc" then
      (m.(mode := HostList, selected := None, actionCursor := 0), NoCmd)
    else (m, NoCmd)
  }

  /** `handleKeyMsg`: "q" and "ctrl+c" quit in every mode; otherwise the mode's handler. */
  function HandleKey(m: Model, k: Key): (r: (Model, Cmd))
    requires CursorInRange(m)
    ensures r.1 == Quit <==> k.str == "q" || k.str == "ctrl+c" || (m.mode == SelectAction && k.str == "enter")
    ensures r.1 != WindowSize
    ensures r.0.quitted <==> m.quitted || k.str == "q" || k.str == "ctrl+c"
  {
    if k.str == "q" || k.str == "ctrl+c" then (m.(quitted := true), Quit)
    else match m.mode
      case HostList => (UpdateHostList(m, k), NoCmd)
      case Searching => (UpdateSearching(m, k), NoCmd)
      case SelectAction => UpdateSelectAction(m, k)
  }

  /** `Update`: keys, window resizes, and nothing for any other message. */
  function Update(m: Model, msg: Msg): (r: (Model, Cmd))
    requires CursorInRange(m)
    ensures r.1 == Quit ==> msg.KeyMsg?
    ensures !msg.KeyMsg? ==> r.1 == NoCmd && r.0.(width := m.width, height := m.height) == m
  {
    match msg
    case KeyMsg(k) => HandleKey(m, k)
    case WindowSizeMsg(w, h) => (m.(width := w, height := h), NoCmd)
    case OtherMsg => (m, NoCmd)
  }

  // ---------------------------------------------------------------- properties of the filter

  /** Every host `Matching` keeps is one of the hosts, and it keeps exactly those that match. */
  lemma {:induction false} MatchingMembers(hosts: seq<Host>, q: string)
    ensures forall h :: h in Matching(hosts, q) <==> h in hosts && Matches(h, q)
    ensures |Matching(hosts, q)| <= |hosts|
    decreases |hosts|
  {
    if hosts != [] {
      var init := hosts[..|hosts| - 1];
      MatchingMembers(init, q);
      assert hosts == init + [hosts[|hosts| - 1]];
    }
  }

  /** Filtering an already filtered list by the same query changes nothing. */
  lemma {:induction false} MatchingIdempotent(hosts: seq<Host>, q: string)
    ensures Matching(Matching(hosts, q), q) == Matching(hosts, q)
    decreases |hosts|
  {
    if hosts != [] {
      var init := hosts[..|hosts| - 1];
      var last := hosts[|hosts| - 1];
      MatchingIdempotent(init, q);
      if Matches(last, q) {
        var ms := Matching(init, q) + [last];
        assert ms[..|ms| - 1] == Matching(init, q) && ms[|ms| - 1] == last;
        assert Matching(ms, q) == Matching(Matching(init, q), q) + [last];
      } else {
        assert Matching(hosts, q) == Matching(init, q);
      }
    }
  }

  /**
   * The filter: the empty query shows every host; any other query shows, in their order,
   * the hosts that match its lower-cased form, and applying it twice is applying it once.
   */
  lemma FilteredMeaning(hosts: seq<Host>, query: string)
    ensures query == "" ==> Filtered(hosts, query) == hosts
    ensures query != "" ==> forall h :: h in Filtered(hosts, query) <==> h in hosts && Matches(h, GoStrings.ToLower(query))
    ensures Filtered(Filtered(hosts, query), query) == Filtered(hosts, query)
  {
    if query != "" {
      MatchingMembers(hosts, GoStrings.ToLower(query));
      MatchingIdempotent(hosts, GoStrings.ToLower(query));
    }
  }

  /** A string that contains `a + b` contains `a`. */
  lemma ContainsPrefix(s: string, a: string, b: string)
    requires GoStrings.Contains(s, a + b)
    ensures GoStrings.Contains(s, a)
  {
    var i :| 0 <= i <= |s| - |a + b| && GoStrings.OccursAt(s, a + b, i);
    assert s[i..i + |a|] == (a + b)[..|a|];
    assert GoStrings.OccursAt(s, a, i);
  }

  /** Lower-casing works character by character, so it distributes over concatenation. */
  lemma ToLowerConcat(a: string, b: string)
    ensures GoStrings.ToLower(a + b) == GoStrings.ToLower(a) + GoStrings.ToLower(b)
  {
  }

  /** Typing more characters of a query never brings back a host the shorter query hid. */
  lemma TypingNarrows(hosts: seq<Host>, query: string, more: string)
    requires query != ""
    ensures forall h :: h in Filtered(hosts, query + more) ==> h in Filtered(hosts, query)
  {
    var q := GoStrings.ToLower(query);
    var qm := GoStrings.ToLower(query + more);
    ToLowerConcat(query, more);
    MatchingMembers(hosts, q);
    MatchingMembers(hosts, qm);
    forall h | h in Filtered(hosts, query + more)
      ensures h in Filtered(hosts, query)
    {
      var r := GoStrings.ToLower(more);
      if GoStrings.Contains(GoStrings.ToLower(h.name), q + r) {
        ContainsPrefix(GoStrings.ToLower(h.name), q, r);
      } else if GoStrings.Contains(GoStrings.ToLower(h.hostname), q + r) {
        ContainsPrefix(GoStrings.ToLower(h.hostname), q, r);
      } else {
        ContainsPrefix(GoStrings.ToLower(h.user), q, r);
      }
    }
  }

  // ---------------------------------------------------------------- properties of key handling

  /** "q" and "ctrl+c" quit from every mode, even while a search query is being typed. */
  lemma QuitInEveryMode(m: Model, k: Key)
    requires CursorInRange(m)
    requires k.str == "q" || k.str == "ctrl+c"
    ensures HandleKey(m, k) == (m.(quitted := true), Quit)
  {
  }

  /** Every message keeps a valid model valid. */
  lemma UpdateKeepsValid(m: Model, msg: Msg)
    requires Valid(m)
    ensures Valid(Update(m, msg).0)
  {
    if msg.KeyMsg? && msg.key.str != "q" && msg.key.str != "ctrl+c" {
      match m.mode
      case HostList => HostListKeepsValid(m, msg.key);
      case Searching => SearchingKeepsValid(m, msg.key);
      case SelectAction => SelectActionKeepsValid(m, msg.key);
    }
  }

  lemma HostListKeepsValid(m: Model, k: Key)
    requires Valid(m) && m.mode == HostList
    ensures Valid(UpdateHostList(m, k))
  {
    if k.str == "up" || k.str == "k" || k.str == "down" || k.str == "j" {
      var r := UpdateHostList(m, k);
      assert r == m.(cursor := r.cursor);
    } else if k.str == "enter" {
      EnterKeepsValid(m, k);
    } else if k.str == "esc" {
      EscKeepsValid(m, k);
    }
  }

  lemma EnterKeepsValid(m: Model, k: Key)
    requires Valid(m) && m.mode == HostList && k.str == "enter"
    ensures Valid(UpdateHostList(m, k))
  {
    if m.filtered != [] {
      var r := UpdateHostList(m, k);
      var sel := m.filtered[m.cursor];
      if |sel.children| > 0 {
        assert r == m.(currentPath := m.currentPath + [sel.name], hosts := sel.children, filtered := sel.children, cursor := 0);
      } else {
        assert r == m.(selected := Some(sel), mode := SelectAction);
      }
    }
  }

  lemma EscKeepsValid(m: Model, k: Key)
    requires Valid(m) && m.mode == HostList && k.str == "esc"
    ensures Valid(UpdateHostList(m, k))
  {
    if |m.currentPath| > 0 {
      var r := UpdateHostList(m, k);
      var path := m.currentPath[..|m.currentPath| - 1];
      var hosts := ConfigTypes.GetHostsAtPath(m.config, path);
      assert r == m.(currentPath := path, hosts := hosts, filtered := hosts, cursor := 0);
    }
  }

  lemma SearchingKeepsValid(m: Model, k: Key)
    requires Valid(m) && m.mode == Searching
    ensures Valid(UpdateSearching(m, k))
  {
    if k.str == "esc" || k.str == "enter" {
    } else if k.str == "backspace" {
      if |m.query| > 0 {
        MatchingMembers(m.hosts, GoStrings.ToLower(m.query[..|m.query| - 1]));
      }
    } else if k.runes.Some? {
      MatchingMembers(m.hosts, GoStrings.ToLower(m.query + k.runes.value));
    }
  }

  lemma SelectActionKeepsValid(m: Model, k: Key)
    requires Valid(m) && m.mode == SelectAction
    ensures Valid(UpdateSelectAction(m, k).0)
  {
  }

  /** Up and down in the host list move the cursor by one at most and never past either end. */
  lemma HostListCursor(m: Model, k: Key)
    requires Valid(m) && m.mode == HostList
    requires k.str in {"up", "k", "down", "j"}
    ensures var r := HandleKey(m, k).0;
      && r == m.(cursor := r.cursor)
      && (m.filtered != [] ==> 0 <= r.cursor < |m.filtered|)
      && (k.str in {"up", "k"} ==> r.cursor == if m.cursor == 0 then 0 else m.cursor - 1)
      && (k.str in {"down", "j"} ==> r.cursor == if m.cursor == |m.filtered| - 1 || m.filtered == [] then m.cursor else m.cursor + 1)
  {
  }

  /** The host found one level down is the uniquely named child the path was extended by. */
  lemma {:induction false} FindExtend(hosts: seq<Host>, path: seq<string>, name: string)
    requires |path| > 0
    ensures ConfigTypes.FindHostByPath(hosts, path + [name]) ==
      match ConfigTypes.FindHostByPath(hosts, path)
      case None => None
      case Some(h) => ConfigTypes.FindHostByPath(h.children, [name])
    decreases |path|
  {
    var k := ConfigTypes.FirstNamed(hosts, path[0]);
    assert (path + [name])[0] == path[0];
    if k.Some? && |path| > 1 {
      assert (path + [name])[1..] == path[1..] + [name];
      FindExtend(hosts[k.value].children, path[1..], name);
    }
  }

  /** With unique sibling names, the first host named like a member of the list is that member. */
  lemma FirstNamedUnique(hosts: seq<Host>, sel: Host)
    requires TreeUnique(hosts) && sel in hosts
    ensures ConfigTypes.FirstNamed(hosts, sel.name).Some?
    ensures hosts[ConfigTypes.FirstNamed(hosts, sel.name).value] == sel
  {
    var j :| 0 <= j < |hosts| && hosts[j] == sel;
    assert hosts[j].name == sel.name;
    var k := ConfigTypes.FirstNamed(hosts, sel.name).value;
    assert hosts[k].name == hosts[j].name;
  }

  /** Every level of a tree with unique sibling names has unique sibling names. */
  lemma {:induction false} LevelsUnique(hosts: seq<Host>, path: seq<string>)
    requires TreeUnique(hosts)
    ensures ConfigTypes.FindHostByPath(hosts, path).Some? ==> TreeUnique(ConfigTypes.FindHostByPath(hosts, path).value.children)
    decreases |path|
  {
    if |path| > 0 {
      var k := ConfigTypes.FirstNamed(hosts, path[0]);
      if k.Some? {
        assert TreeUnique(hosts[k.value].children);
        if |path| > 1 {
          LevelsUnique(hosts[k.value].children, path[1..]);
        }
      }
    }
  }

  /** With unique sibling names, the level below a member of a level is that member's children. */
  lemma DescendLevel(cfg: ConfigTypes.Config, path: seq<string>, sel: Host)
    requires TreeUnique(cfg.hosts)
    requires sel in ConfigTypes.GetHostsAtPath(cfg, path)
    ensures ConfigTypes.GetHostsAtPath(cfg, path + [sel.name]) == sel.children
  {
    if |path| == 0 {
      assert path + [sel.name] == [sel.name];
      FirstNamedUnique(cfg.hosts, sel);
    } else {
      FindExtend(cfg.hosts, path, sel.name);
      var h := ConfigTypes.FindHostByPath(cfg.hosts, path).value;
      LevelsUnique(cfg.hosts, path);
      FirstNamedUnique(h.children, sel);
    }
  }

  /** With unique sibling names, the shown level always matches the path, whatever the key. */
  lemma HandleKeyKeepsPath(m: Model, k: Key)
    requires Valid(m) && PathConsistent(m) && TreeUnique(m.config.hosts)
    ensures PathConsistent(HandleKey(m, k).0) && HandleKey(m, k).0.config == m.config
  {
    if m.mode != HostList || k.str == "q" || k.str == "ctrl+c" {
      OtherKeysKeepLevel(m, k);
    } else {
      assert HandleKey(m, k).0 == UpdateHostList(m, k);
      HostListKeepsPath(m, k);
    }
  }

  /** Outside the host list, and on quitting, the level, the path and the configuration stay as they are. */
  lemma OtherKeysKeepLevel(m: Model, k: Key)
    requires CursorInRange(m)
    requires m.mode != HostList || k.str == "q" || k.str == "ctrl+c"
    ensures var r := HandleKey(m, k).0;
      r.hosts == m.hosts && r.config == m.config && r.currentPath == m.currentPath
  {
  }

  lemma HostListKeepsPath(m: Model, k: Key)
    requires Valid(m) && PathConsistent(m) && TreeUnique(m.config.hosts) && m.mode == HostList
    ensures PathConsistent(UpdateHostList(m, k)) && UpdateHostList(m, k).config == m.config
  {
    var r := UpdateHostList(m, k);
    if k.str == "enter" && m.filtered != [] && |m.filtered[m.cursor].children| > 0 {
      var sel := m.filtered[m.cursor];
      assert r == m.(currentPath := m.currentPath + [sel.name], hosts := sel.children, filtered := sel.children, cursor := 0);
      DescendLevel(m.config, m.currentPath, sel);
    } else if k.str == "esc" && |m.currentPath| > 0 {
      var path := m.currentPath[..|m.currentPath| - 1];
      assert r == m.(currentPath := path, hosts := ConfigTypes.GetHostsAtPath(m.config, path),
                     filtered := ConfigTypes.GetHostsAtPath(m.config, path), cursor := 0);
    } else {
      LevelUnchanged(m, k);
    }
  }

  /** Every other host-list key leaves the level, the path and the configuration alone. */
  lemma LevelUnchanged(m: Model, k: Key)
    requires CursorInRange(m)
    requires !(k.str == "enter" && m.filtered != [] && |m.filtered[m.cursor].children| > 0)
    requires !(k.str == "esc" && |m.currentPath| > 0)
    ensures var r := UpdateHostList(m, k);
      r.hosts == m.hosts && r.config == m.config && r.currentPath == m.currentPath
  {
  }

  /** Enter on a group in the host list descends into it: its name is pushed and its children are shown, cursor at the top. */
  lemma EnterOnGroup(m: Model)
    requires CursorInRange(m) && m.mode == HostList && m.filtered != [] && |m.filtered[m.cursor].children| > 0
    ensures var sel := m.filtered[m.cursor];
      HandleKey(m, Key("enter", None)) ==
        (m.(currentPath := m.currentPath + [sel.name], hosts := sel.children, filtered := sel.children, cursor := 0), NoCmd)
  {
  }

  /** Enter on a host without children selects it and moves to the choice of action. */
  lemma EnterOnLeaf(m: Model)
    requires CursorInRange(m) && m.mode == HostList && m.filtered != [] && |m.filtered[m.cursor].children| == 0
    ensures HandleKey(m, Key("enter", None)) == (m.(selected := Some(m.filtered[m.cursor]), mode := SelectAction), NoCmd)
  {
  }

  /** Esc in the host list pops one group off the path and shows that level afresh; at the top it does nothing. */
  lemma EscPops(m: Model)
    requires CursorInRange(m) && m.mode == HostList
    ensures |m.currentPath| == 0 ==> HandleKey(m, Key("esc", None)) == (m, NoCmd)
    ensures |m.currentPath| > 0 ==>
      var path := m.currentPath[..|m.currentPath| - 1];
      var hosts := ConfigTypes.GetHostsAtPath(m.config, path);
      HandleKey(m, Key("esc", None)) == (m.(currentPath := path, hosts := hosts, filtered := hosts, cursor := 0), NoCmd)
  {
  }

  /** Entering a group and pressing Esc returns to the same level, showing all of it, cursor at the top. */
  lemma EnterThenEscReturns(m: Model)
    requires Valid(m) && PathConsistent(m)
    requires m.mode == HostList && m.filtered != [] && |m.filtered[m.cursor].children| > 0
    ensures var m1 := HandleKey(m, Key("enter", None)).0;
      var m2 := HandleKey(m1, Key("esc", None)).0;
      && m1.hosts == m.filtered[m.cursor].children
      && m2.currentPath == m.currentPath && m2.hosts == m.hosts && m2.filtered == m.hosts && m2.cursor == 0
  {
    var sel := m.filtered[m.cursor];
    EnterOnGroup(m);
    var m1 := HandleKey(m, Key("enter", None)).0;
    EscPops(m1);
    assert m1.currentPath[..|m1.currentPath| - 1] == m.currentPath;
  }

  /** A host with only a name and children, for the example below. */
  function Named(name: string, children: seq<Host>): Host {
    ConfigTypes.Host(name, "", "", 22, "", "", [], children, [])
  }

  /**
   * Without unique names the shown level and the path can disagree: with two top-level groups
   * both called "x", entering the second and then one of its groups, Esc shows the first
   * group's children, not the level that was left.
   */
  lemma DuplicateNamesMisleadEsc()
    ensures var second := Named("x", [Named("b", [Named("c", [])])]);
      var cfg := ConfigTypes.Config([Named("x", [Named("a", [])]), second]);
      var m0 := NewModel(cfg);
      var m1 := HandleKey(m0, Key("down", None)).0;
      var m2 := HandleKey(m1, Key("enter", None)).0;
      var m3 := HandleKey(m2, Key("enter", None)).0;
      var m4 := HandleKey(m3, Key("esc", None)).0;
      && m2.hosts == second.children && m2.currentPath == ["x"]
      && m4.currentPath == m2.currentPath && m4.hosts != m2.hosts
  {
    var second := Named("x", [Named("b", [Named("c", [])])]);
    var first := Named("x", [Named("a", [])]);
    var cfg := ConfigTypes.Config([first, second]);
    var m0 := NewModel(cfg);
    var m1 := HandleKey(m0, Key("down", None)).0;
    assert m1 == m0.(cursor := 1);
    var m2 := HandleKey(m1, Key("enter", None)).0;
    EnterOnGroup(m1);
    var m3 := HandleKey(m2, Key("enter", None)).0;
    EnterOnGroup(m2);
    assert m3.currentPath == ["x", "b"];
    var m4 := HandleKey(m3, Key("esc", None)).0;
    EscPops(m3);
    assert m3.currentPath[..1] == ["x"];
    assert ConfigTypes.FirstNamed(cfg.hosts, "x") == Some(0);
    assert ConfigTypes.GetHostsAtPath(cfg, ["x"]) == first.children;
    assert first.children != second.children by {
      assert first.children[0].name == "a";
    }
  }

  /** Enter while searching picks the first shown host, wherever the cursor is and even if it is a group. */
  lemma SearchEnterTakesFirst(m: Model)
    requires Valid(m) && m.mode == Searching && m.filtered != []
    ensures var r := HandleKey(m, Key("enter", None)).0;
      r.selected == Some(m.filtered[0]) && r.mode == SelectAction && r.filtered == m.filtered && r.query == m.query
  {
  }

  /** Typing one character during a search and deleting it again brings back the list as it was filtered. */
  lemma TypeThenBackspace(m: Model, c: char)
    requires Valid(m) && m.mode == Searching
    requires [c] !in {"q", "esc", "enter", "backspace"}
    ensures var m1 := HandleKey(m, Key([c], Some([c]))).0;
      var m2 := HandleKey(m1, Key("backspace", None)).0;
      m2 == FilterOf(m) && m1.query == m.query + [c]
  {
    var m1 := HandleKey(m, Key([c], Some([c]))).0;
    assert m1.query[..|m1.query| - 1] == m.query;
  }

  /** In action mode Enter quits with "ssh" exactly when the action cursor is 0, and "sftp" otherwise. */
  lemma ActionChoice(m: Model)
    requires Valid(m) && m.mode == SelectAction
    ensures HandleKey(m, Key("enter", None)).1 == Quit
    ensures HandleKey(m, Key("enter", None)).0.action == "ssh" <==> m.actionCursor == 0
    ensures HandleKey(m, Key("enter", None)).0.action == "sftp" <==> m.actionCursor == 1
  {
  }

  /** Esc in action mode forgets the selection and goes back to the list as it was shown. */
  lemma ActionEscReturns(m: Model)
    requires Valid(m) && m.mode == SelectAction
    ensures var r := HandleKey(m, Key("esc", None)).0;
      r == m.(mode := HostList, selected := None, actionCursor := 0) && Valid(r)
  {
  }
}
