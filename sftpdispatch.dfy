/**
 * The SFTP shell's command line (pkg/sftp/commands.go): how `Run` classifies an input line,
 * how `executeCommand` and `executeTransferCommand` pick a command from the lowercased first
 * field, the argument defaults of cd/lcd/ls/lls/mkdir/lmkdir, the source and destination of
 * get/put, and the unit `formatBytes` chooses.
 */
module SftpDispatch {
  import opened Wrappers
  import GoStrings
  import GoPath
  import SftpPath

  /** The non-transfer commands `executeCommand` runs. */
  datatype Command = Cd | Lcd | Pwd | Lpwd | Ls | Lls | Mkdir | Lmkdir | Help

  /** What `executeCommand` does with a line. */
  datatype Dispatch =
    | NoCommand                                  // blank input: nil
    | Execute(cmd: Command, args: seq<string>)
    | ExitRequested                              // the "exit" sentinel error
    | UnknownCommand(name: string)               // "unknown command: <name>"

  /** What `executeTransferCommand` does with a line. */
  datatype TransferCommand =
    | EmptyTransfer                              // "empty command"
    | GetFiles(args: seq<string>)
    | PutFiles(args: seq<string>)
    | NotTransfer(name: string)                  // "not a transfer command: <name>"

  /** The command words the shell knows, after lowercasing. */
  datatype Keyword = KwCd | KwLcd | KwPwd | KwLpwd | KwLs | KwLls | KwMkdir | KwLmkdir | KwHelp
                   | KwExit | KwGet | KwPut | KwOther

  /** Which known word a lowercased name is ("quit" and "bye" are "exit", "?" is "help"). */
  function KeywordOf(name: string): Keyword {
    if name == "cd" then KwCd
    else if name == "lcd" then KwLcd
    else if name == "pwd" then KwPwd
    else if name == "lpwd" then KwLpwd
    else if name == "ls" then KwLs
    else if name == "lls" then KwLls
    else if name == "mkdir" then KwMkdir
    else if name == "lmkdir" then KwLmkdir
    else if name == "help" || name == "?" then KwHelp
    else if name == "exit" || name == "quit" || name == "bye" then KwExit
    else if name == "get" then KwGet
    else if name == "put" then KwPut
    else KwOther
  }

  /** The command `executeCommand`'s switch runs for a word (exit, get and put are not among them). */
  function CommandOf(kw: Keyword): Option<Command> {
    match kw
    case KwCd => Some(Cd)
    case KwLcd => Some(Lcd)
    case KwPwd => Some(Pwd)
    case KwLpwd => Some(Lpwd)
    case KwLs => Some(Ls)
    case KwLls => Some(Lls)
    case KwMkdir => Some(Mkdir)
    case KwLmkdir => Some(Lmkdir)
    case KwHelp => Some(Help)
    case _ => None
  }

  /** The fields of a line after trimming, as both dispatchers split it. */
  function Words(input: string): seq<string> {
    GoStrings.Fields(GoStrings.TrimSpace(input))
  }

  /**
   * `executeCommand`'s switch on the lowercased command word: the exit words give the exit
   * sentinel, each command word runs its command with the remaining fields, and any other word
   * (get and put among them) is an unknown command.
   */
  function CommandSwitch(cmd: string, args: seq<string>): (r: Dispatch)
    ensures r != NoCommand
    ensures r == ExitRequested <==> cmd == "exit" || cmd == "quit" || cmd == "bye"
    ensures r.Execute? ==> r.args == args
    ensures r == Execute(Cd, args) <==> cmd == "cd"
    ensures r == Execute(Help, args) <==> cmd == "help" || cmd == "?"
    ensures (cmd == "get" || cmd == "put") ==> r == UnknownCommand(cmd)
    ensures r.UnknownCommand? ==> r.name == cmd
  {
    var kw := KeywordOf(cmd);
    if kw == KwExit then ExitRequested
    else match CommandOf(kw)
      case None => UnknownCommand(cmd)
      case Some(c) => Execute(c, args)
  }

  /** `executeCommand`: nil for a line without fields, else the switch on its first field. */
  function ExecuteCommand(input: string): (r: Dispatch)
    ensures r == NoCommand <==> Words(input) == []
    ensures r.Execute? ==> r.args == Words(input)[1..]
  {
    var parts := Words(input);
    if |parts| == 0 then NoCommand else CommandSwitch(GoStrings.ToLower(parts[0]), parts[1..])
  }

  /** `executeTransferCommand`'s switch on the lowercased command word. */
  function TransferSwitch(cmd: string, args: seq<string>): (r: TransferCommand)
    ensures r == GetFiles(args) <==> cmd == "get"
    ensures r == PutFiles(args) <==> cmd == "put"
    ensures r != EmptyTransfer
    ensures r.NotTransfer? ==> r.name == cmd
  {
    var kw := KeywordOf(cmd);
    if kw == KwGet then GetFiles(args)
    else if kw == KwPut then PutFiles(args)
    else NotTransfer(cmd)
  }

  /** `executeTransferCommand`: "empty command" for a line without fields, else the switch on its first field. */
  function ExecuteTransferCommand(input: string): (r: TransferCommand)
    ensures r == EmptyTransfer <==> Words(input) == []
    ensures r.GetFiles? || r.PutFiles? ==> r.args == Words(input)[1..]
  {
    var parts := Words(input);
    if |parts| == 0 then EmptyTransfer else TransferSwitch(GoStrings.ToLower(parts[0]), parts[1..])
  }

  /** How `Run` treats one input line. */
  datatype LineKind = Skip | TransferLine | CommandLine

  /** `Run`'s classification: blank lines are skipped; get and put take the transfer path. */
  function Classify(line: string): LineKind {
    var input := GoStrings.TrimSpace(line);
    if input == "" then Skip
    else
      var parts := GoStrings.Fields(input);
      if |parts| == 0 then Skip
      else
        var kw := KeywordOf(GoStrings.ToLower(parts[0]));
        if kw == KwGet || kw == KwPut then TransferLine else CommandLine
  }

  /** The transfer words are exactly "get" and "put". */
  lemma TransferWords(cmd: string)
    ensures KeywordOf(cmd) == KwGet <==> cmd == "get"
    ensures KeywordOf(cmd) == KwPut <==> cmd == "put"
  {
  }

  /** The exit words are exactly "exit", "quit" and "bye". */
  lemma ExitWords(cmd: string)
    ensures KeywordOf(cmd) == KwExit <==> cmd == "exit" || cmd == "quit" || cmd == "bye"
  {
  }

  /** A line handed to one of the two dispatchers. */
  datatype Action =
    | Transferred(t: TransferCommand)
    | Executed(d: Dispatch)

  /** The lines `Run` dispatched, and whether it stopped at an exit command (else input ended). */
  datatype Session = Session(actions: seq<Action>, exited: bool)

  /** What one line makes `Run` do. */
  datatype LineOutcome =
    | Nothing                 // a blank line
    | Dispatched(a: Action)
    | Exits                   // an exit command: `Run` returns nil

  function OutcomeOf(line: string): LineOutcome {
    var input := GoStrings.TrimSpace(line);
    match Classify(line)
    case Skip => Nothing
    case TransferLine => Dispatched(Transferred(ExecuteTransferCommand(input)))
    case CommandLine =>
      var d := ExecuteCommand(input);
      if d == ExitRequested then Exits else Dispatched(Executed(d))
  }

  /** One line of `Run`: the actions so far with the line's own appended, or None when it exits. */
  function StepOn(acc: seq<Action>, o: LineOutcome): Option<seq<Action>> {
    match o
    case Nothing => Some(acc)
    case Dispatched(a) => Some(acc + [a])
    case Exits => None
  }

  /** What each of the lines makes `Run` do. */
  function Outcomes(lines: seq<string>): (r: seq<LineOutcome>)
    ensures |r| == |lines|
  {
    MapLines(OutcomeOf, lines)
  }

  function MapLines(f: string -> LineOutcome, lines: seq<string>): (r: seq<LineOutcome>)
    ensures |r| == |lines|
  {
    seq(|lines|, i requires 0 <= i < |lines| => f(lines[i]))
  }

  /** `Run` over the outcomes of the remaining lines, after dispatching `acc`. */
  function RunOver(acc: seq<Action>, outs: seq<LineOutcome>): Session
    decreases |outs|
  {
    if |outs| == 0 then Session(acc, false)
    else match StepOn(acc, outs[0])
      case None => Session(acc, true)
      case Some(next) => RunOver(next, outs[1..])
  }

  /** What `Run` does with the whole input. */
  function RunLines(lines: seq<string>): Session {
    RunOver([], Outcomes(lines))
  }

  /**
   * `Run`'s read loop, with the lines the reader goroutine delivers given in advance. The
   * effect of each command on the shell is not threaded through here.
   */
  method Run(lines: seq<string>) returns (s: Session)
    ensures s == RunLines(lines)
  {
    ghost var outs := Outcomes(lines);
    var actions: seq<Action> := [];
    var i := 0;
    while i < |lines|
      invariant 0 <= i <= |lines|
      invariant RunLines(lines) == RunOver(actions, outs[i..])
    {
      assert outs[i..][0] == OutcomeOf(lines[i]) && outs[i..][1..] == outs[i + 1..];
      var next := HandleLine(actions, lines[i]);
      if next.None? {
        return Session(actions, true);
      }
      actions := next.value;
      i := i + 1;
    }
    return Session(actions, false);
  }

  /** The body of `Run`'s loop for one line: None when the line is an exit command. */
  method HandleLine(actions: seq<Action>, line: string) returns (next: Option<seq<Action>>)
    ensures next == StepOn(actions, OutcomeOf(line))
  {
    var input := GoStrings.TrimSpace(line);
    var parts := GoStrings.Fields(input);
    if input == "" || |parts| == 0 {
      NoWordsOutcome(line);
      return Some(actions);
    }
    next := HandleWords(actions, line, input, parts);
  }

  /** `Run`'s loop body once the line has words: get and put go to the transfer path. */
  method HandleWords(actions: seq<Action>, line: string, input: string, parts: seq<string>)
    returns (next: Option<seq<Action>>)
    requires input == GoStrings.TrimSpace(line) && parts == Words(line) && parts != []
    ensures next == StepOn(actions, OutcomeOf(line))
  {
    var cmd := GoStrings.ToLower(parts[0]);
    if cmd == "get" || cmd == "put" {
      TransferOutcome(line);
      return Some(actions + [Transferred(ExecuteTransferCommand(input))]);
    }
    next := DispatchCommand(actions, line, input);
  }

  /** The rest of `Run`'s loop body for a line that is not a transfer: `executeCommand`, and stop on exit. */
  method DispatchCommand(actions: seq<Action>, line: string, input: string) returns (next: Option<seq<Action>>)
    requires input == GoStrings.TrimSpace(line)
    requires Words(line) != [] && GoStrings.ToLower(Words(line)[0]) !in {"get", "put"}
    ensures next == StepOn(actions, OutcomeOf(line))
  {
    CommandOutcome(line);
    var d := ExecuteCommand(input);
    if d == ExitRequested {
      return None;
    }
    return Some(actions + [Executed(d)]);
  }

  lemma NoWordsOutcome(line: string)
    requires GoStrings.TrimSpace(line) == "" || Words(line) == []
    ensures OutcomeOf(line) == Nothing
  {
    ClassifyByWords(line);
  }

  lemma TransferOutcome(line: string)
    requires Words(line) != [] && GoStrings.ToLower(Words(line)[0]) in {"get", "put"}
    ensures OutcomeOf(line) == Dispatched(Transferred(ExecuteTransferCommand(GoStrings.TrimSpace(line))))
  {
    TransferWords(GoStrings.ToLower(Words(line)[0]));
    ClassifyByWords(line);
  }

  lemma CommandOutcome(line: string)
    requires Words(line) != [] && GoStrings.ToLower(Words(line)[0]) !in {"get", "put"}
    ensures var d := ExecuteCommand(GoStrings.TrimSpace(line));
      OutcomeOf(line) == if d == ExitRequested then Exits else Dispatched(Executed(d))
  {
    TransferWords(GoStrings.ToLower(Words(line)[0]));
    ClassifyByWords(line);
  }

  /** `TrimSpace` of a trimmed string changes nothing. */
  lemma TrimSpaceIdempotent(s: string)
    ensures GoStrings.TrimSpace(GoStrings.TrimSpace(s)) == GoStrings.TrimSpace(s)
  {
    var l := GoStrings.TrimLeftSpace(s);
    var t := GoStrings.TrimRightSpace(l);
    if |t| > 0 {
      assert t[0] == l[0];
      TrimLeftKeeps(t);
      TrimRightKeeps(t);
    }
  }

  lemma TrimLeftKeeps(t: string)
    requires |t| > 0 && !GoStrings.IsSpace(t[0])
    ensures GoStrings.TrimLeftSpace(t) == t
  {
  }

  lemma TrimRightKeeps(t: string)
    requires |t| > 0 && !GoStrings.IsSpace(t[|t| - 1])
    ensures GoStrings.TrimRightSpace(t) == t
  {
  }

  /** A line splits into no words exactly when it is all white space. */
  lemma BlankIffNoWords(s: string)
    ensures Words(s) == [] <==> GoStrings.AllSpace(s)
  {
    var t := GoStrings.TrimSpace(s);
    GoStrings.FieldsEmptyIffBlank(t);
    GoStrings.TrimSpaceEmptyIffBlank(s);
    if |t| > 0 {
      var l := GoStrings.TrimLeftSpace(s);
      assert t[0] == l[0];
      assert !GoStrings.IsSpace(t[0]);
    }
  }

  /** Blank input is a no-op for `executeCommand` and "empty command" for `executeTransferCommand`. */
  lemma BlankIsNoCommand(input: string)
    ensures ExecuteCommand(input) == NoCommand <==> GoStrings.AllSpace(input)
    ensures ExecuteTransferCommand(input) == EmptyTransfer <==> GoStrings.AllSpace(input)
  {
    BlankIffNoWords(input);
  }

  /** `Run`'s classification read off the words of the line. */
  lemma ClassifyByWords(line: string)
    ensures Classify(line) ==
      if Words(line) == [] then Skip
      else if KeywordOf(GoStrings.ToLower(Words(line)[0])) in {KwGet, KwPut} then TransferLine
      else CommandLine
  {
    if GoStrings.TrimSpace(line) == "" {
      assert GoStrings.Fields("") == [];
    }
  }

  /** The dispatchers trim again the line `Run` already trimmed; that finds the same words. */
  lemma TrimmedWords(line: string)
    ensures Words(GoStrings.TrimSpace(line)) == Words(line)
  {
    TrimSpaceIdempotent(line);
  }

  /**
   * The two dispatchers split every non-blank line between them: `Run` sends a line to the
   * transfer path exactly when `executeTransferCommand` recognises it, and such a line would be
   * an unknown command to `executeCommand`; every other line is `executeCommand`'s.
   */
  lemma DispatchPartition(line: string)
    ensures var input := GoStrings.TrimSpace(line);
      && (Classify(line) == Skip <==> GoStrings.AllSpace(line))
      && (Classify(line) == TransferLine <==>
            (ExecuteTransferCommand(input).GetFiles? || ExecuteTransferCommand(input).PutFiles?))
      && (Classify(line) == TransferLine ==> ExecuteCommand(input).UnknownCommand?)
      && (Classify(line) == CommandLine ==> ExecuteTransferCommand(input).NotTransfer?)
  {
    var input := GoStrings.TrimSpace(line);
    TrimmedWords(line);
    ClassifyByWords(line);
    BlankIffNoWords(line);
    var ws := Words(line);
    if ws != [] {
      var cmd := GoStrings.ToLower(ws[0]);
      SwitchPartition(cmd, ws[1..]);
      assert ExecuteCommand(input) == CommandSwitch(cmd, ws[1..]);
      assert ExecuteTransferCommand(input) == TransferSwitch(cmd, ws[1..]);
    }
  }

  /** Exactly the words get and put are transfers, and `executeCommand` knows neither. */
  lemma SwitchPartition(cmd: string, args: seq<string>)
    ensures KeywordOf(cmd) in {KwGet, KwPut} <==> TransferSwitch(cmd, args).GetFiles? || TransferSwitch(cmd, args).PutFiles?
    ensures KeywordOf(cmd) in {KwGet, KwPut} ==> CommandSwitch(cmd, args) == UnknownCommand(cmd)
    ensures KeywordOf(cmd) !in {KwGet, KwPut} ==> TransferSwitch(cmd, args) == NotTransfer(cmd)
  {
  }

  /** Letter case does not matter: the command is chosen from the lowercased first field. */
  lemma CaseInsensitive(input: string, other: string)
    requires |Words(input)| > 0 && |Words(other)| > 0
    requires GoStrings.ToLower(Words(input)[0]) == GoStrings.ToLower(Words(other)[0])
    requires Words(input)[1..] == Words(other)[1..]
    ensures ExecuteCommand(input) == ExecuteCommand(other)
    ensures ExecuteTransferCommand(input) == ExecuteTransferCommand(other)
  {
  }

  /** The outcomes of joined inputs are the joined outcomes. */
  lemma MapLinesConcat(f: string -> LineOutcome, a: seq<string>, b: seq<string>)
    ensures MapLines(f, a + b) == MapLines(f, a) + MapLines(f, b)
  {
    var l := a + b;
    forall i | 0 <= i < |l|
      ensures MapLines(f, l)[i] == (MapLines(f, a) + MapLines(f, b))[i]
    {
      if i < |a| {
        assert l[i] == a[i];
      } else {
        assert l[i] == b[i - |a|];
      }
    }
  }

  /** A blank line anywhere in the input changes nothing `Run` does. */
  lemma RunIgnoresBlankLine(xs: seq<string>, blank: string, ys: seq<string>)
    requires GoStrings.AllSpace(blank)
    ensures RunLines(xs + [blank] + ys) == RunLines(xs + ys)
  {
    BlankLineIsNothing(blank);
    RunSkipsNothingLine(xs, blank, ys);
  }

  lemma BlankLineIsNothing(blank: string)
    requires GoStrings.AllSpace(blank)
    ensures OutcomeOf(blank) == Nothing
  {
    BlankIffNoWords(blank);
    ClassifyByWords(blank);
  }

  lemma RunSkipsNothingLine(xs: seq<string>, blank: string, ys: seq<string>)
    requires OutcomeOf(blank) == Nothing
    ensures RunLines(xs + [blank] + ys) == RunLines(xs + ys)
  {
    assert Outcomes([blank]) == [Nothing];
    MapLinesConcat(OutcomeOf, xs, [blank]);
    MapLinesConcat(OutcomeOf, xs + [blank], ys);
    MapLinesConcat(OutcomeOf, xs, ys);
    RunSkipsNothing([], Outcomes(xs), Outcomes(ys));
  }

  lemma {:induction false} RunSkipsNothing(acc: seq<Action>, xs: seq<LineOutcome>, ys: seq<LineOutcome>)
    ensures RunOver(acc, xs + [Nothing] + ys) == RunOver(acc, xs + ys)
    decreases |xs|
  {
    var l := xs + [Nothing] + ys;
    var m := xs + ys;
    if |xs| == 0 {
      assert l[0] == Nothing && l[1..] == ys && m == ys;
    } else {
      assert l[0] == xs[0] == m[0];
      assert l[1..] == xs[1..] + [Nothing] + ys;
      assert m[1..] == xs[1..] + ys;
      var st := StepOn(acc, xs[0]);
      if st.Some? {
        RunSkipsNothing(st.value, xs[1..], ys);
      }
    }
  }

  /** Nothing after an exit command is read: the lines that follow it are never dispatched. */
  lemma RunStopsAtExit(xs: seq<string>, exit: string, ys: seq<string>)
    requires Words(exit) != []
    requires GoStrings.ToLower(Words(exit)[0]) in {"exit", "quit", "bye"}
    ensures RunLines(xs + [exit] + ys) == RunLines(xs + [exit])
    ensures RunLines(xs + [exit]).exited
  {
    ExitLineExits(exit);
    RunStopsAtExitLine(xs, exit, ys);
  }

  /** A line whose first word is exit, quit or bye is an exit command. */
  lemma ExitLineExits(exit: string)
    requires Words(exit) != []
    requires GoStrings.ToLower(Words(exit)[0]) in {"exit", "quit", "bye"}
    ensures OutcomeOf(exit) == Exits
  {
    var ws := Words(exit);
    ExitWords(GoStrings.ToLower(ws[0]));
    CommandOutcome(exit);
    CommandOfTrimmed(exit);
  }

  /** `executeCommand` on the trimmed line switches on the line's own first word. */
  lemma CommandOfTrimmed(line: string)
    requires Words(line) != []
    ensures ExecuteCommand(GoStrings.TrimSpace(line)) ==
      CommandSwitch(GoStrings.ToLower(Words(line)[0]), Words(line)[1..])
  {
    TrimmedWords(line);
  }

  lemma RunStopsAtExitLine(xs: seq<string>, exit: string, ys: seq<string>)
    requires OutcomeOf(exit) == Exits
    ensures RunLines(xs + [exit] + ys) == RunLines(xs + [exit])
    ensures RunLines(xs + [exit]).exited
  {
    assert Outcomes([exit]) == [Exits];
    MapLinesConcat(OutcomeOf, xs, [exit]);
    MapLinesConcat(OutcomeOf, xs + [exit], ys);
    RunStopsAtExits([], Outcomes(xs), Outcomes(ys));
  }

  lemma {:induction false} RunStopsAtExits(acc: seq<Action>, xs: seq<LineOutcome>, ys: seq<LineOutcome>)
    ensures RunOver(acc, xs + [Exits] + ys) == RunOver(acc, xs + [Exits])
    ensures RunOver(acc, xs + [Exits]).exited
    decreases |xs|
  {
    var l := xs + [Exits] + ys;
    var m := xs + [Exits];
    if |xs| == 0 {
      assert l[0] == Exits && m[0] == Exits;
    } else {
      assert l[0] == xs[0] == m[0];
      assert l[1..] == xs[1..] + [Exits] + ys;
      assert m[1..] == xs[1..] + [Exits];
      var st := StepOn(acc, xs[0]);
      if st.Some? {
        RunStopsAtExits(st.value, xs[1..], ys);
      }
    }
  }

  /** The argument a command uses: the first one given, else its default. */
  function ArgOr(args: seq<string>, default: string): string {
    if |args| > 0 then args[0] else default
  }

  datatype CmdError =
    | ResolveFailed(e: SftpPath.PathError)       // "resolve path: ..."
    | ResolveRemoteFailed(e: SftpPath.PathError) // "resolve remote: ..."
    | ResolveLocalFailed(e: SftpPath.PathError)  // "resolve local: ..."
    | StatFailed(path: string)                   // "stat: ..."
    | NotADirectory(path: string)                // "<path> is not a directory"
    | CwdUpdateFailed(e: SftpPath.PathError)
    | Usage(text: string)

  /** The remote directory `cd` goes to: its argument, or "~". */
  function CdTarget(ps: SftpPath.PathState, args: seq<string>): (r: Result<string, CmdError>)
    reads ps
    ensures args == [] ==> r == Ok(ps.homeRemote)
  {
    match ps.ResolveRemote(ArgOr(args, "~"))
    case Err(e) => Err(ResolveFailed(e))
    case Ok(p) => Ok(p)
  }

  /** The local directory `lcd` goes to: its argument, or "~". */
  function LcdTarget(ps: SftpPath.PathState, args: seq<string>): (r: Result<string, CmdError>)
    reads ps
    ensures args == [] ==> r == Ok(ps.homeLocal)
  {
    match ps.ResolveLocal(ArgOr(args, "~"))
    case Err(e) => Err(ResolveFailed(e))
    case Ok(p) => Ok(p)
  }

  /** The remote directory `ls` lists: its argument, or ".". */
  function LsTarget(ps: SftpPath.PathState, args: seq<string>): (r: Result<string, CmdError>)
    reads ps
    ensures args == [] ==> r == Ok(ps.remoteCwd)
  {
    match ps.ResolveRemote(ArgOr(args, "."))
    case Err(e) => Err(ResolveFailed(e))
    case Ok(p) => Ok(p)
  }

  /** The local directory `lls` lists: its argument, or ".". */
  function LlsTarget(ps: SftpPath.PathState, args: seq<string>): (r: Result<string, CmdError>)
    reads ps
    ensures args == [] ==> r == Ok(ps.localCwd)
  {
    match ps.ResolveLocal(ArgOr(args, "."))
    case Err(e) => Err(ResolveFailed(e))
    case Ok(p) => Ok(p)
  }

  /** The remote directory `mkdir` creates; it has no default. */
  function MkdirTarget(ps: SftpPath.PathState, args: seq<string>): (r: Result<string, CmdError>)
    reads ps
    ensures args == [] ==> r == Err(Usage("usage: mkdir <path>"))
  {
    if |args| < 1 then Err(Usage("usage: mkdir <path>"))
    else match ps.ResolveRemote(args[0])
      case Err(e) => Err(ResolveFailed(e))
      case Ok(p) => Ok(p)
  }

  /** The local directory `lmkdir` creates; it has no default. */
  function LmkdirTarget(ps: SftpPath.PathState, args: seq<string>): (r: Result<string, CmdError>)
    reads ps
    ensures args == [] ==> r == Err(Usage("usage: lmkdir <path>"))
  {
    if |args| < 1 then Err(Usage("usage: lmkdir <path>"))
    else match ps.ResolveLocal(args[0])
      case Err(e) => Err(ResolveFailed(e))
      case Ok(p) => Ok(p)
  }

  /**
   * `cmdCD`: resolve the target, require it to be a directory, then let the server's realpath
   * name the new remote directory. `remoteStat` is the server's stat (Some(isDir), or None
   * when it fails).
   */
  method CmdCd(ps: SftpPath.PathState, args: seq<string>, remoteStat: string -> Option<bool>,
               realPath: string -> Option<string>) returns (err: Option<CmdError>)
    modifies ps`remoteCwd
    ensures old(CdTarget(ps, args)).Err? ==>
      err == Some(old(CdTarget(ps, args)).error) && ps.remoteCwd == old(ps.remoteCwd)
    ensures old(CdTarget(ps, args)).Ok? ==>
      var p := old(CdTarget(ps, args)).value;
      && (remoteStat(p).None? ==> err == Some(StatFailed(p)) && ps.remoteCwd == old(ps.remoteCwd))
      && (remoteStat(p) == Some(false) ==> err == Some(NotADirectory(p)) && ps.remoteCwd == old(ps.remoteCwd))
      && (remoteStat(p) == Some(true) && realPath(p).Some? ==> err.None? && ps.remoteCwd == realPath(p).value)
      && (remoteStat(p) == Some(true) && realPath(p).None? ==>
            err == Some(CwdUpdateFailed(SftpPath.RealPathFailed(p))) && ps.remoteCwd == old(ps.remoteCwd))
  {
    var target := CdTarget(ps, args);
    if target.Err? {
      return Some(target.error);
    }
    var resolved := target.value;
    var fi := remoteStat(resolved);
    if fi.None? {
      return Some(StatFailed(resolved));
    }
    if !fi.value {
      return Some(NotADirectory(resolved));
    }
    var e := ps.UpdateRemoteCwd(resolved, realPath);
    if e.Some? {
      return Some(CwdUpdateFailed(e.value));
    }
    return None;
  }

  /**
   * `cmdLCD`: the same for the local directory, which becomes `filepath.Abs` of the resolved
   * path; `processCwd` is the process's working directory (None when that lookup fails).
   */
  method CmdLcd(ps: SftpPath.PathState, args: seq<string>, localStat: string -> Option<bool>,
                processCwd: Option<string>) returns (err: Option<CmdError>)
    modifies ps`localCwd
    ensures old(LcdTarget(ps, args)).Err? ==>
      err == Some(old(LcdTarget(ps, args)).error) && ps.localCwd == old(ps.localCwd)
    ensures old(LcdTarget(ps, args)).Ok? ==>
      var p := old(LcdTarget(ps, args)).value;
      && (localStat(p).None? ==> err == Some(StatFailed(p)) && ps.localCwd == old(ps.localCwd))
      && (localStat(p) == Some(false) ==> err == Some(NotADirectory(p)) && ps.localCwd == old(ps.localCwd))
      && (localStat(p) == Some(true) && GoPath.IsAbs(p) ==> err.None? && ps.localCwd == GoPath.Clean(p))
      && (localStat(p) == Some(true) && !GoPath.IsAbs(p) && processCwd.Some? ==>
            err.None? && ps.localCwd == GoPath.Join2(processCwd.value, p))
      && (localStat(p) == Some(true) && !GoPath.IsAbs(p) && processCwd.None? ==>
            err == Some(CwdUpdateFailed(SftpPath.AbsoluteFailed)) && ps.localCwd == old(ps.localCwd))
  {
    var target := LcdTarget(ps, args);
    if target.Err? {
      return Some(target.error);
    }
    var resolved := target.value;
    var fi := localStat(resolved);
    if fi.None? {
      return Some(StatFailed(resolved));
    }
    if !fi.value {
      return Some(NotADirectory(resolved));
    }
    var e := ps.UpdateLocalCwd(resolved, processCwd);
    if e.Some? {
      return Some(CwdUpdateFailed(e.value));
    }
    return None;
  }

  /** The source and destination of a transfer. */
  datatype Endpoints = Endpoints(src: string, dst: string)

  /**
   * `cmdGetWithContext`'s arguments: the remote source, and the local destination, which is
   * the second argument or else the base name of the first as typed.
   */
  function GetTargets(ps: SftpPath.PathState, args: seq<string>): (r: Result<Endpoints, CmdError>)
    reads ps
    ensures args == [] ==> r == Err(Usage("usage: get remote-path [local-path]"))
  {
    if |args| < 1 then Err(Usage("usage: get remote-path [local-path]"))
    else match ps.ResolveRemote(args[0])
      case Err(e) => Err(ResolveRemoteFailed(e))
      case Ok(remotePath) =>
        match ps.ResolveLocal(if |args| > 1 then args[1] else GoPath.Base(args[0]))
        case Err(e) => Err(ResolveLocalFailed(e))
        case Ok(localPath) => Ok(Endpoints(remotePath, localPath))
  }

  /** `cmdPutWithContext`'s arguments: the local source and the remote destination. */
  function PutTargets(ps: SftpPath.PathState, args: seq<string>): (r: Result<Endpoints, CmdError>)
    reads ps
    ensures args == [] ==> r == Err(Usage("usage: put local-path [remote-path]"))
  {
    if |args| < 1 then Err(Usage("usage: put local-path [remote-path]"))
    else match ps.ResolveLocal(args[0])
      case Err(e) => Err(ResolveLocalFailed(e))
      case Ok(localPath) =>
        match ps.ResolveRemote(if |args| > 1 then args[1] else GoPath.Base(args[0]))
        case Err(e) => Err(ResolveRemoteFailed(e))
        case Ok(remotePath) => Ok(Endpoints(localPath, remotePath))
  }

  /**
   * With one plain name, `get` downloads from the remote working directory into the local one
   * under the same name, and `put` does the reverse.
   */
  lemma OneNameStaysInWorkingDirectories(ps: SftpPath.PathState, name: string)
    requires GoPath.Normal(name) && name[0] != '~'
    ensures GetTargets(ps, [name]) ==
      Ok(Endpoints(SftpPath.JoinPath(ps.remoteCwd, name), GoPath.Clean(GoPath.Join2(ps.localCwd, name))))
    ensures PutTargets(ps, [name]) ==
      Ok(Endpoints(GoPath.Clean(GoPath.Join2(ps.localCwd, name)), SftpPath.JoinPath(ps.remoteCwd, name)))
  {
    GoPath.BaseOfElement(name);
    assert name[0] != '/';
    assert !GoStrings.HasPrefix(name, "/") && !GoStrings.HasPrefix(name, "~") by {
      assert name[..1] == [name[0]];
    }
    var remote := SftpPath.JoinPath(ps.remoteCwd, name);
    var local := GoPath.Clean(GoPath.Join2(ps.localCwd, name));
    assert ps.ResolveRemote(name) == Ok(remote);
    assert ps.ResolveLocal(name) == Ok(local);
    var args := [name];
    assert |args| == 1 && args[0] == name;
  }

  /** `get .` and `put .` copy between the two working directories themselves. */
  lemma DotTransfersWorkingDirectories(ps: SftpPath.PathState)
    ensures GetTargets(ps, ["."]) == Ok(Endpoints(ps.remoteCwd, ps.localCwd))
    ensures PutTargets(ps, ["."]) == Ok(Endpoints(ps.localCwd, ps.remoteCwd))
  {
    assert GoPath.Base(".") == ".";
  }

  /** The two-argument forms resolve each argument on its own side. */
  lemma TwoArgumentsResolveSeparately(ps: SftpPath.PathState, a: string, b: string)
    ensures ps.ResolveRemote(a).Ok? && ps.ResolveLocal(b).Ok? ==>
      GetTargets(ps, [a, b]) == Ok(Endpoints(ps.ResolveRemote(a).value, ps.ResolveLocal(b).value))
    ensures ps.ResolveLocal(a).Ok? && ps.ResolveRemote(b).Ok? ==>
      PutTargets(ps, [a, b]) == Ok(Endpoints(ps.ResolveLocal(a).value, ps.ResolveRemote(b).value))
  {
  }

  /**
   * With one argument naming a file below some directories, the destination is the file's
   * base name in the other side's working directory: `get sub/f` writes `lcwd/f`, and
   * `put sub/f` writes `cwd/f`. Either way one argument is the same as giving the base name
   * as the second.
   */
  lemma OneArgumentTakesBaseName(ps: SftpPath.PathState, parts: seq<string>, name: string)
    requires GoPath.AllNormal(parts + [name]) && name != "" && name[0] != '~'
    ensures var p := GoPath.JoinSlash(parts + [name]);
      GetTargets(ps, [p]) == GetTargets(ps, [p, name]) && PutTargets(ps, [p]) == PutTargets(ps, [p, name])
    ensures var p := GoPath.JoinSlash(parts + [name]);
      ps.ResolveRemote(p).Ok? ==>
        GetTargets(ps, [p]) == Ok(Endpoints(ps.ResolveRemote(p).value, GoPath.Clean(GoPath.Join2(ps.localCwd, name))))
    ensures var p := GoPath.JoinSlash(parts + [name]);
      ps.ResolveLocal(p).Ok? ==>
        PutTargets(ps, [p]) == Ok(Endpoints(ps.ResolveLocal(p).value, SftpPath.JoinPath(ps.remoteCwd, name)))
  {
    var p := GoPath.JoinSlash(parts + [name]);
    GoPath.BaseOfJoin(parts, name);
    assert GoPath.Normal((parts + [name])[|parts|]);
    assert name[0] != '/' && name[0] in name;
    SftpPath.ResolveRemoteRelative(ps, name);
    assert [p][0] == p && [p, name][0] == p && [p, name][1] == name;
  }

  /** `get sub/f` downloads the remote `sub/f` into the local working directory as `f`. */
  lemma GetNestedFile(ps: SftpPath.PathState)
    ensures GetTargets(ps, ["sub/f"]) ==
      Ok(Endpoints(SftpPath.JoinPath(ps.remoteCwd, "sub/f"), GoPath.Clean(GoPath.Join2(ps.localCwd, "f"))))
  {
    var parts, name := ["sub"], "f";
    assert parts + [name] == ["sub", "f"];
    assert GoPath.JoinSlash(["sub", "f"]) == "sub/f" by {
      assert ["sub", "f"][1..] == ["f"];
    }
    assert GoPath.Normal("sub") by { assert forall c :: c in "sub" ==> c == 's' || c == 'u' || c == 'b'; }
    assert GoPath.Normal("f") by { assert forall c :: c in "f" ==> c == 'f'; }
    OneArgumentTakesBaseName(ps, parts, name);
    SftpPath.ResolveRemoteRelative(ps, "sub/f");
  }

  /** The unit `formatBytes` prints a size in. */
  datatype ByteUnit = B | KB | MB | GB | TB

  /** The power of 1024 a unit stands for. */
  function Scale(u: ByteUnit): nat {
    match u
    case B => 1
    case KB => 1024
    case MB => 1024 * 1024
    case GB => 1024 * 1024 * 1024
    case TB => 1024 * 1024 * 1024 * 1024
  }

  /** The thresholds of `formatBytes`: the largest unit not above the size (bytes below 1 KB). */
  function UnitFor(bytes: int): (u: ByteUnit)
    ensures bytes >= 1 ==> Scale(u) <= bytes
    ensures u != B ==> Scale(u) <= bytes
    ensures u != TB ==> bytes < Scale(u) * 1024
  {
    if bytes >= Scale(TB) then TB
    else if bytes >= Scale(GB) then GB
    else if bytes >= Scale(MB) then MB
    else if bytes >= Scale(KB) then KB
    else B
  }
}
