# sshm core, modelled in Dafny

sshm is a terminal SSH host manager. A host picker (a Bubble Tea model) shows a tree of hosts
and groups from a YAML file. For the host you choose, it opens either an interactive SSH shell
(possibly through a chain of jump hosts) or an SFTP shell with `get`/`put` of files and
directories. This project models the bookkeeping around those screens and proves what it
promises:

- **SftpPath** (`sftppath.dfy`): the SFTP shell's pair of working directories.
  - `ResolveLocal` and `ResolveRemote`.
  - The remote `cleanPath` loop and `joinPath`.
  - `UpdateRemoteCWD` (with `RealPath` as an oracle that may fail) and `UpdateLocalCWD`.
- **TerminalManager** (`terminal.dfy`): the raw/cooked state machine of the terminal manager.
  What `GetState`, `MakeRaw` and `Restore` return is passed in.
- **SshJump** (`jump.dfy`): the jump chain.
  - Hop-by-hop connection through the previous client.
  - Clean-up on failure, and close in reverse order, recorded in a ghost close trace.
  - `connectHop` and `Close` are oracles.
- **SftpProgress** (`progress.dfy`): the progress readers and writers with their 512 KiB
  batched counter, and the write-until-done `ReadFrom` loop. The bar is its running total; the
  wrapped streams are scripts of results.
- **SftpDispatch** (`sftpdispatch.dfy`): the SFTP shell's line handling.
  - Line classification and the `Run` loop.
  - `executeCommand` / `executeTransferCommand`.
  - Argument defaults, the `cd`/`lcd` commands and the `get`/`put` endpoints.
  - The unit thresholds of `formatBytes`.
- **SftpScan** (`sftpscan.dfy`): the recursive remote and local directory walks, as methods
  over a tree snapshot, proved against reference functions.
- **SftpTransfer** (`sftptransfer.dfy`): file transfers.
  - Single-file download and upload, with the attempted removal of a partial destination (a failed removal is ignored, and the partial file stays).
  - The per-file loop of a directory transfer: it counts, records failures and stops on
    cancellation.
  - `get`/`put` end to end, over a `Disk` of files and directories.
- **ConfigTypes** (`configtypes.dfy`): host validation, `~` expansion, and lookup in the group
  tree (`GetHostsAtPath`, `findHostByPath`, `FindHost`).
- **SshAuth** (`auth.dfy`): the order of authentication methods: key, then password, then
  agent.
- **TuiModel** (`tuimodel.dfy`): the host picker's `Update` transitions.
  - Cursor movement and group navigation.
  - Search filtering (the `filterHosts` loop).
  - Action selection.
- **Helper modules**: Wrappers (`Option`, `Result`), GoStrings (the parts of Go's `strings`
  the code uses) and GoPath (`path/filepath` on a `/` system: `Split`, `Join`, `Clean`,
  `Base`, `Dir`).

Nothing in the model performs I/O. The terminal, the network, the file systems, the progress
bar, the clock and the context's cancellation are parameters:
- oracle functions (`realPath`, `connectHop`, `closeClient`, `loadKey`, `remoteStat`);
- scripted results (`ReadResult`/`WriteResult` sequences, `Steps`, `PerFile`, `Answers`);
- tree snapshots (`SftpScan.Node`).

Where the prose description of the system and the code disagree, the model follows the code:
- A relative remote path is joined to the remote working directory and not cleaned.
  `ResolveRemote("..")` from `/a/b` is `/a/b/..`; the lemma
  `SftpPath.ResolveRemoteParentIsNotCollapsed` shows it.
- `~/x` on the remote side gives a double slash (`home + "//" + x`); see
  `SftpPath.ResolveRemoteHomeDoubleSlash`.

## Model

| member | source | states |
|---|---|---|
| SftpPath.CleanPath | pkg/sftp/path.go:147-170 | the segment loop with append/truncate yields exactly `Cleaned(path)`: "/" plus the kept elements, where `..` pops (and is dropped at the root) and empty and `.` segments are skipped |
| SftpPath.Cleaned | pkg/sftp/path.go:147-170 | `cleanPath` always returns a rooted path (see `CleanedShape` for its segments) |
| SftpPath.JoinPath | pkg/sftp/path.go:173-178 | the result is `base`, then exactly one "/" unless `base` already ends in one, then `rel`, with no cleaning |
| SftpPath.CleanedShape | pkg/sftp/path.go:147-170 | the cleaned path starts with "/"; unless it is "/", it has no trailing "/" and every segment after the root is a non-empty name other than `.` and `..` |
| SftpPath.CleanedIsClean | pkg/sftp/path.go:147-170 | on rooted paths the remote clean equals Go's `filepath.Clean` |
| SftpPath.CleanedIdempotent | pkg/sftp/path.go:147-170 | cleaning twice is cleaning once |
| SftpPath.CleanedRootParent | pkg/sftp/path.go:156-160 | `cleanPath("/..") == "/"`: `..` at the root is dropped |
| SftpPath.CleanedParentCancels | pkg/sftp/path.go:156-160 | `cleanPath("/x/../y") == "/y"` |
| SftpPath.RemoteFoldIsRootedClean | pkg/sftp/path.go:152-163 | for slash-free segments, the kept elements are those of Go's rooted clean, and every kept element is a plain name |
| SftpPath.RemoteFoldNormal | pkg/sftp/path.go:149-163 | the elements kept from any split path are plain names and agree with Go's rooted clean |
| SftpPath.CleanedIsRootPlusElements | pkg/sftp/path.go:165-169 | the trailing-slash trim never changes the result: it is "/" joined with the kept elements |
| SftpPath.SplitParentExample | pkg/sftp/path.go:149 | splitting "/x/../y" on "/" gives `["", "x", "..", "y"]` |
| SftpPath.FoldParentExample | pkg/sftp/path.go:152-163 | the loop keeps only `["y"]` from those segments |
| SftpPath.JoinPathKeepsElements | pkg/sftp/path.go:173-178 | `joinPath` concatenates the segment lists, and drops the empty last segment of a base that ends in "/" |
| SftpPath.PathState.constructor | pkg/sftp/path.go:21-56 | the state starts with the given local working directory and with the remote working directory at the remote home |
| SftpPath.PathState.ResolveLocal | pkg/sftp/path.go:60-86 | "" and "." give the local working directory; "~" gives the local home and `~/rest` is `filepath.Join(home, "/rest")`; an absolute path is cleaned; any other path is joined to the working directory and cleaned; the result is an error exactly for `~user` forms |
| SftpPath.PathState.ResolveRemote | pkg/sftp/path.go:91-116 | "" and "." give the remote working directory; "~" gives the remote home; a rooted path is `cleanPath`ed; the result is an error exactly for `~user` forms |
| SftpPath.ResolveRemoteRelative | pkg/sftp/path.go:114-115 | a relative remote path resolves to `joinPath(RemoteCWD, p)` with no cleaning, so its segments are the working directory's followed by the path's |
| SftpPath.ResolveRemoteParentIsNotCollapsed | pkg/sftp/path.go:114-115 | from `/a/b`, `ResolveRemote("..")` is `/a/b/..` |
| SftpPath.ResolveRemoteHomeDoubleSlash | pkg/sftp/path.go:107-111 | `~/rest` is `joinPath(home, "/rest")`, which is `home + "//" + rest` when home has no trailing slash |
| SftpPath.ResolveLocalIsAbsolute | pkg/sftp/path.go:60-86 | with absolute working and home directories, every successful local resolution is absolute |
| SftpPath.ResolveLocalParentCollapses | pkg/sftp/path.go:83-85 | from `/a/b`, `ResolveLocal("..")` is `/a`: unlike the remote side, a local relative path is cleaned |
| SftpPath.CleanParentOfAB | pkg/sftp/path.go:84 | `filepath.Clean("/a/b/..")` is `/a` |
| SftpPath.CleanA | pkg/sftp/path.go:84 | `filepath.Clean("/a")` is `/a` |
| SftpPath.ResolveRemoteIsAbsolute | pkg/sftp/path.go:91-116 | with absolute working and home directories, every successful remote resolution is absolute |
| SftpPath.PathState.UpdateRemoteCwd | pkg/sftp/path.go:122-132 | on `RealPath` success the remote working directory becomes its answer; on failure an error is returned and the directory is unchanged; nothing else changes |
| SftpPath.PathState.UpdateLocalCwd | pkg/sftp/path.go:135-144 | the local working directory becomes `filepath.Abs(path)`: the cleaned path if absolute, else joined to the process directory; if that lookup fails, an error and no change |
| TerminalManager.Manager.constructor | pkg/terminal/manager.go:37-51 | cooked mode, no session, a fresh stop signal, and the `GetState` result (if any) as the baseline |
| TerminalManager.Manager.EnterRaw | pkg/terminal/manager.go:76-118 | when already raw: "already in raw mode" and no field changes; when `MakeRaw` fails: an error and no change; otherwise raw with the given session and a fresh stop signal, and the baseline set only if none was saved |
| TerminalManager.Manager.Restore | pkg/terminal/manager.go:124-163 | when not raw: nil and nothing changes (so a second `Restore` is a no-op); when raw: cooked with no session and a fresh stop signal even if the restore fails; the old signal is closed only on success; an error exactly when the restore of a saved baseline fails |
| TerminalManager.Manager.Cleanup | pkg/terminal/manager.go:55-57 | has exactly the effect of `Restore` |
| TerminalManager.Manager.State | pkg/terminal/manager.go:166-180 | `State()` is `StateRaw` exactly when `InRaw()` holds |
| TerminalManager.StopSignal.Close | pkg/terminal/manager.go:155-157 | closing a stop channel marks it closed; it may be closed only once |
| TerminalManager.SessionRoundTrip | pkg/terminal/manager.go:76-163 | after `EnterRaw` then `Restore`, the manager is cooked with no session and keeps the first baseline it ever saved; the restore reports an error exactly when it fails |
| SshJump.JumpChain.FromJump | pkg/ssh/jump.go:22-26 | the chain's hosts are the host's jump list, with no clients yet |
| SshJump.JumpChain.WithTarget | pkg/ssh/jump.go:29-38 | hosts are the jump list followed by the target, of length `len(Jump)+1` |
| SshJump.ChainFrom | pkg/ssh/jump.go:50-60 | the hop loop either opens one client per remaining host or stops at a hop in range with one client per hop before it |
| SshJump.ChainFromHops | pkg/ssh/jump.go:50-60 | every opened client came from `connectHop` on its host, dialled directly for the first hop and through the previous hop's client after that; a failure is `connectHop`'s error at that hop |
| SshJump.HopsOpenedSnoc | pkg/ssh/jump.go:58-59 | appending a hop's client extends the opened prefix and makes it the next hop's predecessor |
| SshJump.OpenChainHops | pkg/ssh/jump.go:50-60 | on success there is one client per host, in host order, each dialled through the previous one; on failure at hop i, exactly i clients were opened first |
| SshJump.JumpChain.Connect | pkg/ssh/jump.go:44-64 | on success, the clients are in host order and the last one is returned; on failure at hop i, every client is closed in reverse order, none remains, and the error names hop i+1 and the host's name; requires a non-empty chain, since the source indexes the last client |
| SshJump.FirstCloseError | pkg/ssh/jump.go:119-131 | no error exactly when every close succeeds; otherwise the error of the lowest-index failing client, which the reverse loop sees last |
| SshJump.Reversed | pkg/ssh/jump.go:123 | the close order: element k is element n-1-k of the clients |
| SshJump.JumpChain.CloseAll | pkg/ssh/jump.go:119-131 | closes every client from last to first (the trace gains them in reverse), empties the list and returns the last error seen |
| SshJump.JumpChain.Close | pkg/ssh/jump.go:112-116 | as `closeAll`; on an empty chain nil and nothing closed |
| SshJump.JumpChain.GetSshClient | pkg/ssh/jump.go:134-142 | None exactly when there are no clients, otherwise the last client |
| SshJump.JumpChain.IsConnected | pkg/ssh/jump.go:154-158 | connected exactly when `GetSSHClient` has a client, i.e. the list is non-empty |
| SshJump.JumpChain.Session | pkg/ssh/jump.go:145-151 | "not connected" without a client; otherwise succeeds exactly when a session opens on the last client |
| SshJump.SecondHopFailure | pkg/ssh/jump.go:50-56 | a two-host chain whose second hop fails keeps the first client as opened and fails at hop index 1 with that hop's error |
| SftpProgress.Batch | pkg/sftp/progress.go:24-30 | the pending count plus n is split between the bar and the new pending count without loss; one of the two is zero; the new pending count is below 512 KiB; below 512 KiB in total nothing reaches the bar, at or above it everything does and nothing stays pending |
| SftpProgress.Account | pkg/sftp/progress.go:25-30 | the bar grows by the flushed part of the batch and the pending count is what remains |
| SftpProgress.ProgressReader.constructor | pkg/sftp/progress.go:11-16 | wraps the reader, bar and size with nothing pending |
| SftpProgress.ProgressReader.Read | pkg/sftp/progress.go:22-33 | returns the wrapped reader's result; bar total plus pending grows by exactly the bytes read; the pending count stays below 512 KiB; the bar grows by `Batch(pending, n).0` and the new pending count is `Batch(pending, n).1`, so the bar is untouched while the pending count plus the bytes read stays below 512 KiB |
| SftpProgress.ProgressReader.Flush | pkg/sftp/progress.go:41-46 | pending bytes move onto the bar and the count becomes 0, so a second flush adds nothing |
| SftpProgress.ProgressWriter.constructor | pkg/sftp/progress.go:49-54 | wraps the writer, bar and context with nothing pending |
| SftpProgress.ProgressWriter.Write | pkg/sftp/progress.go:56-75 | with a cancelled context: (0, Canceled) and nothing written or counted; otherwise the wrapped write's result, the accepted prefix appended, and the bar and pending count moved by `Batch(pending, n)` as in `Read` |
| SftpProgress.ProgressWriter.Flush | pkg/sftp/progress.go:77-82 | pending bytes move onto the bar and the count becomes 0 |
| SftpProgress.ProgressWriterTo.constructor | pkg/sftp/progress.go:150-156 | wraps the reader, bar and size with nothing pending |
| SftpProgress.ProgressWriterTo.Read | pkg/sftp/progress.go:158-169 | the same batching as `progressReader.Read`: the bar grows by `Batch(pending, n).0` and the pending count becomes `Batch(pending, n).1` |
| SftpProgress.ProgressWriterFrom.constructor | pkg/sftp/progress.go:93-99 | wraps the writer and bar with nothing pending |
| SftpProgress.ProgressWriterFrom.ReadFrom | pkg/sftp/progress.go:101-139 | writes exactly the bytes of the copy as specified by `CopyAll`, returns its error and n = their count; on a nil error the bar has received all n bytes |
| SftpProgress.ProgressWriterFrom.CopyLoop | pkg/sftp/progress.go:103-133 | the outer read loop writes what `CopyAll` writes and keeps bar plus pending equal to the total written |
| SftpProgress.ProgressWriterFrom.CopyChunk | pkg/sftp/progress.go:106-131 | one read and the writes of its chunk advance the specification by exactly the bytes written, or end it with the loop's result |
| SftpProgress.ProgressWriterFrom.WriteChunk | pkg/sftp/progress.go:108-126 | the inner loop writes the chunk until done or until an error or a zero-byte write stops it, as `WriteAll` specifies |
| SftpProgress.ProgressWriterFrom.WriteOnce | pkg/sftp/progress.go:109-125 | one inner write: grows the written prefix or stops with the drain's result |
| SftpProgress.Drained | pkg/sftp/progress.go:108-126 | draining a chunk never writes more than it holds, and with no error writes all of it |
| SftpProgress.WriteAll | pkg/sftp/progress.go:108-126 | a chunk is written in full before the next read unless an error stops it |
| SftpProgress.CopyFromWithoutError | pkg/sftp/progress.go:103-133 | when the copy ends without error, everything the reader delivered was written in order and the reader ended with EOF |
| SftpProgress.CopyWithoutErrorWritesStream | pkg/sftp/progress.go:101-139 | a copy with a nil error writes exactly the reader's stream, which ended with EOF |
| SftpProgress.CopyFromWillingWriter | pkg/sftp/progress.go:103-133 | with a writer that accepts everything, the copy succeeds exactly when the reader ends with EOF |
| SftpProgress.CopyToWillingWriter | pkg/sftp/progress.go:101-139 | with a writer that accepts everything, `ReadFrom` succeeds exactly on EOF and then writes the whole stream |
| SftpProgress.ZeroWriteIsShortWrite | pkg/sftp/progress.go:119-121 | a write of zero bytes with no error ends the copy with `ErrShortWrite` |
| SftpProgress.Source.Read | pkg/sftp/progress.go:23 | the wrapped reader returns its next scripted result, clipped to the buffer, or EOF when exhausted |
| SftpProgress.Sink.Write | pkg/sftp/progress.go:63 | the wrapped writer accepts a prefix of the buffer of its scripted length and returns its scripted error |
| SftpDispatch.Run | pkg/sftp/commands.go:104-125 | the read loop over delivered lines does what `RunLines` specifies, line by line |
| SftpDispatch.HandleLine | pkg/sftp/commands.go:104-130 | one line: skipped if blank, sent to the transfer path iff its first word is get/put, else executed; the exit sentinel stops the loop |
| SftpDispatch.HandleWords | pkg/sftp/commands.go:110-125 | the branch on the lowercased first field after trimming |
| SftpDispatch.DispatchCommand | pkg/sftp/commands.go:119-125 | a non-transfer line runs `executeCommand`, and only its exit sentinel ends the loop |
| SftpDispatch.RunIgnoresBlankLine | pkg/sftp/commands.go:104-107 | a whitespace-only line anywhere in the input changes nothing |
| SftpDispatch.RunSkipsNothingLine | pkg/sftp/commands.go:104-113 | a line that yields nothing can be removed from the input without effect |
| SftpDispatch.RunSkipsNothing | pkg/sftp/commands.go:104-113 | removing a line that does nothing from any position leaves the session the same |
| SftpDispatch.RunStopsAtExit | pkg/sftp/commands.go:121-124 | a line whose first word is exit/quit/bye ends the session: later lines are never run |
| SftpDispatch.RunStopsAtExitLine | pkg/sftp/commands.go:121-124 | after an exiting line the session is exited and what follows is ignored |
| SftpDispatch.RunStopsAtExits | pkg/sftp/commands.go:121-124 | over outcomes: everything after the first exit is ignored |
| SftpDispatch.ExitLineExits | pkg/sftp/commands.go:233-235 | a line whose first word is exit/quit/bye yields the exit sentinel |
| SftpDispatch.BlankLineIsNothing | pkg/sftp/commands.go:104-107 | a whitespace-only line does nothing |
| SftpDispatch.NoWordsOutcome | pkg/sftp/commands.go:104-113 | a line with no fields does nothing |
| SftpDispatch.TransferOutcome | pkg/sftp/commands.go:114-118 | a get/put line goes to `executeTransferCommand` with the trimmed input |
| SftpDispatch.CommandOutcome | pkg/sftp/commands.go:119-125 | any other line goes to `executeCommand`, and exits exactly when that returns the sentinel |
| SftpDispatch.TransferWords | pkg/sftp/commands.go:115 | the transfer words are exactly "get" and "put" |
| SftpDispatch.ExitWords | pkg/sftp/commands.go:233 | the exit words are exactly "exit", "quit" and "bye" |
| SftpDispatch.BlankIsNoCommand | pkg/sftp/commands.go:173-176 | `executeCommand` returns nil and `executeTransferCommand` "empty command" exactly for blank input |
| SftpDispatch.BlankIffNoWords | pkg/sftp/commands.go:208-211 | a line has no fields exactly when it is all white space |
| SftpDispatch.ClassifyByWords | pkg/sftp/commands.go:104-118 | the line's class is decided by its lowercased first field alone |
| SftpDispatch.DispatchPartition | pkg/sftp/commands.go:104-125 | a line is skipped iff blank, and takes the transfer path iff `executeTransferCommand` would run get/put; for transfer lines `executeCommand` would say "unknown command"; for command lines `executeTransferCommand` would say "not a transfer command" |
| SftpDispatch.SwitchPartition | pkg/sftp/commands.go:181-188 | the two switches partition the words: get/put only in the transfer switch, every other word only in the command switch |
| SftpDispatch.CaseInsensitive | pkg/sftp/commands.go:213 | two lines whose first fields agree after lowercasing, with the same arguments, dispatch the same |
| SftpDispatch.CommandOfTrimmed | pkg/sftp/commands.go:207-214 | `executeCommand` on the trimmed line switches on the lowercased first field, with the rest as arguments |
| SftpDispatch.TrimmedWords | pkg/sftp/commands.go:208 | trimming before splitting into fields changes nothing |
| SftpDispatch.TrimSpaceIdempotent | pkg/sftp/commands.go:104 | trimming an already trimmed line changes nothing, so the double trim in `Run` and `executeCommand` is harmless |
| SftpDispatch.MapLinesConcat | pkg/sftp/commands.go:103-125 | each line's outcome depends on that line alone |
| SftpDispatch.CdTarget | pkg/sftp/commands.go:244-253 | `cd` with no argument targets "~", i.e. the remote home |
| SftpDispatch.LcdTarget | pkg/sftp/commands.go:269-278 | `lcd` with no argument targets the local home |
| SftpDispatch.LsTarget | pkg/sftp/commands.go:305-309 | `ls` with no argument lists the remote working directory |
| SftpDispatch.LlsTarget | pkg/sftp/commands.go:337-341 | `lls` with no argument lists the local working directory |
| SftpDispatch.MkdirTarget | pkg/sftp/commands.go:1222-1231 | `mkdir` with no argument is "usage: mkdir <path>" |
| SftpDispatch.LmkdirTarget | pkg/sftp/commands.go:1243-1252 | `lmkdir` with no argument is "usage: lmkdir <path>" |
| SftpDispatch.CmdCd | pkg/sftp/commands.go:244-266 | a resolve error, a stat failure or a non-directory gives an error and leaves the remote directory unchanged; otherwise the directory becomes `RealPath` of the target, or is unchanged if that fails |
| SftpDispatch.CmdLcd | pkg/sftp/commands.go:269-290 | the same steps for the local side, ending in `UpdateLocalCWD` |
| SftpDispatch.GetTargets | pkg/sftp/commands.go:464-482 | no argument is "usage: get remote-path [local-path]"; the one-argument default is stated by `OneArgumentTakesBaseName` |
| SftpDispatch.PutTargets | pkg/sftp/commands.go:838-856 | no argument is "usage: put local-path [remote-path]"; the one-argument default is stated by `OneArgumentTakesBaseName` |
| SftpDispatch.OneNameStaysInWorkingDirectories | pkg/sftp/commands.go:469-479 | with one plain name, get copies `cwd/name` remotely to `lcwd/name` locally and put the other way round |
| SftpDispatch.DotTransfersWorkingDirectories | pkg/sftp/commands.go:469-479 | `get .` and `put .` pair the two working directories |
| SftpDispatch.TwoArgumentsResolveSeparately | pkg/sftp/commands.go:469-482 | with two arguments each is resolved on its own side: for `get` the first remotely and the second locally, for `put` (commands.go:843-856) the reverse |
| SftpDispatch.OneArgumentTakesBaseName | pkg/sftp/commands.go:474-479 | with one argument the destination is the source's base name: `get dir/.../name` writes `Clean(Join(lcwd, name))`, `put dir/.../name` writes `joinPath(cwd, name)` (commands.go:848-853), and one argument is the same as giving the base name as the second |
| SftpDispatch.GetNestedFile | pkg/sftp/commands.go:474-479 | `get sub/f` fetches `joinPath(cwd, "sub/f")` into `Clean(Join(lcwd, "f"))` |
| GoPath.BaseOfJoin | pkg/sftp/commands.go:478 | the `filepath.Base` the one-argument default takes of a path of normal elements is its last element |
| SftpDispatch.UnitFor | pkg/sftp/commands.go:26-46 | any unit above B is at most the size, and the size is below 1024 of the unit (except TB), so the unit is the largest of B/KB/MB/GB/TB not above the size, and B for sizes below 1 KB, zero and negative included |
| SftpDispatch.CommandSwitch | pkg/sftp/commands.go:213-240 | exit/quit/bye give the exit sentinel; cd, help/? and the other command words run their command with the remaining fields; get, put and any other word are an unknown command named by the word |
| SftpDispatch.ExecuteCommand | pkg/sftp/commands.go:207-241 | nil exactly for a line without fields; a command runs with the fields after the first |
| SftpDispatch.TransferSwitch | pkg/sftp/commands.go:181-189 | get and put, and only they, become transfers with the remaining fields; any other word is "not a transfer command" |
| SftpDispatch.ExecuteTransferCommand | pkg/sftp/commands.go:172-190 | "empty command" exactly for a line without fields; a transfer gets the fields after the first |
| SftpScan.Scanner.constructor | pkg/sftp/commands.go:687-688 | the shared list is empty and the counter zero |
| SftpScan.Scanner.WalkRemoteDir | pkg/sftp/commands.go:699-739 | the recursive walk appends and counts exactly what `RemoteDir` specifies for the tree |
| SftpScan.Scanner.WalkLocalDir | pkg/sftp/commands.go:1081-1117 | the recursive walk appends and counts exactly what `LocalDir` specifies for the tree |
| SftpScan.RemoteDir | pkg/sftp/commands.go:699-739 | the walk only appends to the shared list; an unlistable directory adds nothing and fails |
| SftpScan.RemoteEntries | pkg/sftp/commands.go:711-736 | the entry loop only appends, and does nothing once an error is set |
| SftpScan.RemoteEntry | pkg/sftp/commands.go:712-735 | one entry only appends |
| SftpScan.LocalDir | pkg/sftp/commands.go:1081-1117 | the local walk only appends; an unlistable directory adds nothing and fails |
| SftpScan.LocalEntries | pkg/sftp/commands.go:1092-1114 | the entry loop only appends, and does nothing once an error is set |
| SftpScan.LocalEntry | pkg/sftp/commands.go:1093-1113 | one entry only appends |
| SftpScan.GetRemoteFileList | pkg/sftp/commands.go:686-696 | succeeds exactly when every directory in the tree can be read; then it lists the regular files (symlinks, devices, pipes and sockets skipped) with `/`-joined relative paths and the sum of their sizes; on error nil and 0 |
| SftpScan.GetLocalFileList | pkg/sftp/commands.go:1068-1078 | succeeds exactly when every directory can be read and every file's info obtained; then it lists every non-directory entry with the sum of their sizes; on error nil and 0 |
| SftpScan.RemoteDirMeetsReference | pkg/sftp/commands.go:699-739 | the walk fails iff some directory is unreadable, and otherwise appends the reference file list and adds its size sum |
| SftpScan.RemoteEntriesMeetReference | pkg/sftp/commands.go:711-736 | the same over the rest of a directory's entries |
| SftpScan.RemoteEntryMeetsReference | pkg/sftp/commands.go:712-735 | the same for one entry: recursion into a directory, skip of a special file, append of a regular file |
| SftpScan.LocalDirMeetsReference | pkg/sftp/commands.go:1081-1117 | the local walk fails iff a directory or an entry's info cannot be read, and otherwise appends the reference list and its size sum |
| SftpScan.LocalEntriesMeetReference | pkg/sftp/commands.go:1092-1114 | the same over the rest of a directory's entries |
| SftpScan.LocalEntryMeetsReference | pkg/sftp/commands.go:1093-1113 | the same for one entry: every non-directory is listed, with no special-file filter |
| SftpScan.SizeSumConcat | pkg/sftp/commands.go:733 | the running total is additive over appended lists |
| SftpScan.TrailingSlashNotPlain | pkg/sftp/commands.go:700-703 | an empty or slash-terminated path is not a plain relative path |
| SftpScan.ExtendPlain | pkg/sftp/commands.go:713-716 | appending a plain entry name to a plain relative path keeps it plain on either side |
| SftpScan.RemotePathsPlain | pkg/sftp/commands.go:699-739 | when the server's names are plain, every listed relative path is a plain `/`-joined path |
| SftpScan.RemotePathsPlainFrom | pkg/sftp/commands.go:711-736 | the same over the rest of a directory's entries |
| SftpScan.LocalPathsPlain | pkg/sftp/commands.go:1081-1117 | when the local names are plain, every listed relative path is plain |
| SftpScan.LocalPathsPlainFrom | pkg/sftp/commands.go:1092-1114 | the same over the rest of a directory's entries |
| SftpScan.RemoteListsNoMoreThanLocal | pkg/sftp/commands.go:699-739 | on the same tree the remote walk lists no more files than the local walk (it filters, the local walk does not) |
| SftpScan.RemoteListsNoMoreThanLocalFrom | pkg/sftp/commands.go:711-736 | the same over the rest of a directory's entries |
| SftpScan.FlatDirectoryListings | pkg/sftp/commands.go:1092-1113 | in a directory without subdirectories the local walk lists every entry in order with its size; the remote walk lists nothing when there is no regular file |
| SftpTransfer.Disk.constructor | pkg/sftp/commands.go:533 | the destination's files and directories as given |
| SftpTransfer.Remove | pkg/sftp/commands.go:577 | `os.Remove` / `client.Remove` with its error ignored: the path is gone if the removal succeeds and otherwise stays |
| SftpTransfer.DeferredCleanup | pkg/sftp/commands.go:537-543 | the deferred function tries to remove the destination exactly when the context is cancelled by then; the file is gone only if that removal succeeds |
| SftpTransfer.DownloadSingleFileWithPrefix | pkg/sftp/commands.go:742-835 | the error and the destination's files are those of `DownloadResult`: any failure after creating the file, or a cancellation, tries to remove it, and a failed removal leaves it |
| SftpTransfer.DownloadSingleFile | pkg/sftp/commands.go:506-606 | the same, with the destination moved under the local path when that is a directory |
| SftpTransfer.UploadSingleFile | pkg/sftp/commands.go:880-979 | the error and the remote file's fate are those of `UploadResult`, with the destination moved under a remote directory |
| SftpTransfer.DownloadResult | pkg/sftp/commands.go:506-606 | nothing is touched exactly when a step before the create fails (and then an error is returned); the file is removed only by a removal that succeeds; a nil result not cancelled at exit keeps the file |
| SftpTransfer.UploadResult | pkg/sftp/commands.go:880-979 | the same for an upload |
| SftpTransfer.DownloadKeepsOnlyComplete | pkg/sftp/commands.go:506-606 | a download leaves its file in place iff it returned nil and was not cancelled at exit, or it created the file and the removal failed; it returns nil iff every step succeeded and the byte count matched |
| SftpTransfer.DownloadFailureCleansUp | pkg/sftp/commands.go:533-599 | a failed download before creating the file leaves the local files untouched; after creating it, the file is gone iff the removal succeeded, and the partial file stays otherwise |
| SftpTransfer.UploadKeepsPartial | pkg/sftp/commands.go:880-979 | an upload that fails yet keeps its remote file is exactly one that created the file and either failed to remove it, or had its copy cancelled or its close fail without a cancellation at exit; it returns nil iff every step succeeded |
| SftpTransfer.UploadKeepsPartialWhenCancelPersists | pkg/sftp/commands.go:880-979 | when a cancelled copy means the context is still cancelled at exit, a failed upload keeps its remote file exactly when it created it and either failed to remove it, or copied everything but failed to close with no cancellation at exit |
| SftpTransfer.CancelledBeforeStart | pkg/sftp/commands.go:512-517 | a cancellation noticed before opening returns Canceled and touches nothing, in both directions |
| SftpTransfer.FilesLoopStep | pkg/sftp/commands.go:631-661 | one iteration of the directory loop when not cancelled: count or record the file and apply its effect |
| SftpTransfer.TransferOne | pkg/sftp/commands.go:643-657 | one file of a directory transfer: a parent-directory failure is recorded without transfer, else the single-file transfer runs, and failure is reported as `Fails` says |
| SftpTransfer.DownloadOne | pkg/sftp/commands.go:643-657 | creates the file's parent directory, then downloads it to `localPath/rel` with `DownloadResult`'s effect |
| SftpTransfer.UploadOne | pkg/sftp/commands.go:1025-1039 | creates the file's remote parent directory, then uploads it to `remotePath/rel` with `UploadResult`'s effect |
| SftpTransfer.TransferFiles | pkg/sftp/commands.go:631-661 | the loop leaves the counters, the files and directories, and the cancelled flag exactly as `FilesLoop` specifies |
| SftpTransfer.FirstCancel | pkg/sftp/commands.go:633-637 | the index at which the loop first sees cancellation, or the end |
| SftpTransfer.LoopStops | pkg/sftp/commands.go:631-637 | the loop returns Canceled exactly when there is a cancelled index before the end |
| SftpTransfer.LoopCounts | pkg/sftp/commands.go:631-661 | count plus failures grows by exactly the number of files visited before cancellation |
| SftpTransfer.LoopFailed | pkg/sftp/commands.go:647-657 | the failed list is exactly the relative paths of the failing visited files, in order |
| SftpTransfer.LoopBytes | pkg/sftp/commands.go:659-660 | the byte total is the size sum of the succeeding visited files |
| SftpTransfer.LoopWritesOnlyDests | pkg/sftp/commands.go:643-657 | if each step adds at most its own destination, the loop adds no file outside the destinations of the listed files |
| SftpTransfer.FailedInEmptyIff | pkg/sftp/commands.go:664-676 | the failed list is empty exactly when no visited file failed |
| SftpTransfer.DirectoryLoopSummary | pkg/sftp/commands.go:631-676 | over the whole list: Canceled iff cancelled before the end; count + failures == files visited; the failed list and byte total as above; nil exactly when every file succeeds, otherwise "<n> files failed" |
| SftpTransfer.DownloadDirectory | pkg/sftp/commands.go:609-677 | scan, empty-directory creation and per-file loop, with the result and the new files and directories of `DownloadDirectoryResult` |
| SftpTransfer.UploadDirectory | pkg/sftp/commands.go:982-1059 | scan, remote-path checks and per-file loop, with the result and effects of `UploadDirectoryResult` |
| SftpTransfer.DownloadDirectoryResult | pkg/sftp/commands.go:609-677 | a directory download never removes a directory, and succeeds only when every remote directory can be listed |
| SftpTransfer.UploadDirectoryResult | pkg/sftp/commands.go:982-1059 | a directory upload never removes a directory, and succeeds only when every local directory and entry can be read and the remote path is not an existing non-directory |
| SftpTransfer.FilesLoopKeepsDirs | pkg/sftp/commands.go:643-657 | the per-file loop only adds directories (`MkdirAll` never removes one) |
| SftpTransfer.DownloadScanFails | pkg/sftp/commands.go:611-614 | a directory download fails with a scan error exactly when the remote tree has an unreadable directory, and then changes nothing |
| SftpTransfer.UploadScanFails | pkg/sftp/commands.go:984-987 | the same for an upload over the local tree |
| SftpTransfer.EmptyDownloadCreatesDir | pkg/sftp/commands.go:616-623 | a remote directory with no files only creates the local directory (or fails to), and returns nil |
| SftpTransfer.UploadRefusesNonDirectory | pkg/sftp/commands.go:990-994 | a remote path that exists and is not a directory fails the upload before any file is sent |
| SftpTransfer.DownloadStepAddsOwnPath | pkg/sftp/commands.go:643-653 | one file of a download adds at most `localPath/rel` to the local files |
| SftpTransfer.DownDestsUnder | pkg/sftp/commands.go:643 | with plain relative paths, every destination of a download lies strictly under the local directory |
| SftpTransfer.DownloadStaysUnder | pkg/sftp/commands.go:609-677 | when the server's names are plain, a directory download creates no file outside the local directory |
| SftpTransfer.CmdGet | pkg/sftp/commands.go:464-503 | resolve, cancellation check, remote stat, then the directory or single-file download, with `GetResult`'s error and effects |
| SftpTransfer.CmdPut | pkg/sftp/commands.go:838-877 | the same for uploads, with `PutResult` |
| SftpTransfer.GetResult | pkg/sftp/commands.go:464-503 | `get` never removes a directory, and returns nil only when its arguments resolve, it was not cancelled first and the remote stat succeeded |
| SftpTransfer.PutResult | pkg/sftp/commands.go:838-877 | the same for `put` with the local stat |
| SftpTransfer.GetOneFile | pkg/sftp/commands.go:464-503 | `get name` of a plain remote file that transfers cleanly adds exactly `lcwd/name` to the local files |
| SftpTransfer.PutOneFile | pkg/sftp/commands.go:838-877 | `put name` of a plain local file that transfers cleanly adds exactly `cwd/name` to the remote files |
| SftpTransfer.FailingBeforeTransferChangesNothing | pkg/sftp/commands.go:465-495 | a usage or resolve error, a cancellation or a failed stat makes `get` return an error and leave the disk unchanged |
| SftpTransfer.PutFailingBeforeTransferChangesNothing | pkg/sftp/commands.go:838-869 | the same for `put` |
| ConfigTypes.ExpandPath | pkg/config/types.go:141-155 | a path not starting with "~" is unchanged; any "~" form fails exactly when home is unknown; "~/x" is `filepath.Join(home, x)`; other "~" forms give home itself |
| ConfigTypes.Validate | pkg/config/types.go:27-66 | port 0 becomes 22 (others untouched) and the key path is expanded, even when validation fails; a failed expansion gives that error; otherwise an error exactly when some field is missing |
| ConfigTypes.Problems | pkg/config/types.go:30-42 | "name is required" is reported iff the name is empty, "host is required" and "user is required" iff a leaf lacks the host or the user, and nothing else |
| ConfigTypes.ProblemsEmptyIff | pkg/config/types.go:30-44 | no problem exactly when there is a name and the entry is a group or has both host and user |
| ConfigTypes.ProblemsOrder | pkg/config/types.go:30-42 | the messages come in the order name, host, user, joined by ", " after "host validation errors: " |
| ConfigTypes.ExpandUnderHome | pkg/config/types.go:142-148 | "~/x" is home joined with x |
| ConfigTypes.ExpandPathIdempotent | pkg/config/types.go:141-155 | with an absolute home, expanding an expanded path changes nothing |
| ConfigTypes.FirstNamed | pkg/config/types.go:96-104 | the index of the first host with the name, or none if no host has it |
| ConfigTypes.FindHostByPath | pkg/config/types.go:90-107 | the empty path finds nothing, and a host found by path carries the path's last segment as its name |
| ConfigTypes.GetHostsAtPath | pkg/config/types.go:75-87 | the empty path gives the top level; a one-segment path gives only children of a top-level entry of that name |
| ConfigTypes.FirstSiblingShadows | pkg/config/types.go:96-103 | the lookup follows the first same-named sibling and does not backtrack: a second "a" holding "b" is never reached |
| ConfigTypes.FindHost | pkg/config/types.go:110-138 | the level-by-level loop over the name split on "/" finds exactly what `findHostByPath` finds, and the host found has the last segment as its name |
| SshAuth.ExpandPath | pkg/ssh/auth.go:143-152 | empty, not starting with "~", or no home: unchanged; otherwise home joined with the rest |
| SshAuth.AuthMethodsFromConfig | pkg/ssh/auth.go:65-97 | the key methods, then the password if non-empty, then the agent if available; the error is always nil |
| SshAuth.AuthMethods | pkg/ssh/auth.go:27-61 | the same list for a host's configuration, with a nil error |
| SshAuth.FirstDefaultKey | pkg/ssh/auth.go:76-83 | the loop over the defaults with `break` yields exactly the first loadable one, expanded |
| SshAuth.FirstLoadableKeys | pkg/ssh/auth.go:40-47 | the defaults contribute at most one method, and it is a public key |
| SshAuth.FirstLoadableEmptyIff | pkg/ssh/auth.go:40-47 | no default key is used exactly when none of them loads |
| SshAuth.FirstLoadableIsFirst | pkg/ssh/auth.go:18-23 | the default key used is one that loads, and none of the defaults before it in the order ed25519, rsa, ecdsa, dsa loads |
| SshAuth.MethodOrder | pkg/ssh/auth.go:27-60 | at most three methods, strictly ordered key < password < agent; the password appears iff non-empty, the agent iff available |
| SshAuth.ExplicitKeyOnly | pkg/ssh/auth.go:31-37 | with a configured key only that key is tried; if it fails, no key method is added and no default is tried |
| SshAuth.DefaultKeyUnderHome | pkg/ssh/auth.go:18-23 | each default key expands to `home/.ssh/<name>` |
| TuiModel.NewModel | pkg/tui/model.go:48-66 | the first model shows the top-level hosts in host-list mode at the root, with every invariant holding |
| TuiModel.Init | pkg/tui/model.go:69-72 | the initial command asks for the window size |
| TuiModel.Update | pkg/tui/model.go:75-91 | only a key can quit; a resize or any other message changes nothing but the size and returns no command |
| TuiModel.HandleKey | pkg/tui/model.go:94-114 | the command is quit iff the key is q or ctrl+c, or Enter in the action menu; only q and ctrl+c set Quitted |
| TuiModel.UpdateHostList | pkg/tui/model.go:117-163 | host-list keys never quit or change the configuration, keep the cursor in range, and leave the mode only for the search with an empty query ("/"), or for the action menu with a shown leaf selected (Enter) |
| TuiModel.UpdateSearching | pkg/tui/model.go:166-199 | search keys never quit or change the level; the mode changes only on Esc (back to the whole level, query cleared) or Enter (the first shown host selected) |
| TuiModel.UpdateSelectAction | pkg/tui/model.go:202-231 | only Enter returns a command, and it is quit; the action cursor stays 0 or 1; the level, the list and Quitted do not change |
| TuiModel.FilterHosts | pkg/tui/model.go:234-253 | the loop rebuilds the filtered list as `Filtered(hosts, query)` and resets the cursor |
| TuiModel.MatchingMembers | pkg/tui/model.go:241-252 | a host is kept exactly when it is in the list and its lowercased name, host or user contains the query; no host is added |
| TuiModel.MatchingIdempotent | pkg/tui/model.go:241-252 | filtering a filtered list by the same query changes nothing |
| TuiModel.FilteredMeaning | pkg/tui/model.go:234-253 | an empty query keeps every host; otherwise a host is kept iff it matches the lowercased query; filtering is idempotent |
| TuiModel.TypingNarrows | pkg/tui/model.go:190-195 | typing more characters never adds a host to the filtered list |
| TuiModel.QuitInEveryMode | pkg/tui/model.go:96-99 | "q" and "ctrl+c" set Quitted and quit in every mode, even while typing a query |
| TuiModel.UpdateKeepsValid | pkg/tui/model.go:75-231 | every message keeps the model valid: cursor in range (0 on an empty list), action cursor 0 or 1, a selection exactly in action mode and among the shown hosts, shown hosts within the level |
| TuiModel.HostListKeepsValid | pkg/tui/model.go:117-163 | host-list keys keep the model valid |
| TuiModel.EnterKeepsValid | pkg/tui/model.go:129-144 | Enter in the host list keeps the model valid |
| TuiModel.EscKeepsValid | pkg/tui/model.go:146-154 | Esc in the host list keeps the model valid |
| TuiModel.SearchingKeepsValid | pkg/tui/model.go:166-199 | search-mode keys keep the model valid |
| TuiModel.SelectActionKeepsValid | pkg/tui/model.go:202-231 | action-mode keys keep the model valid |
| TuiModel.HostListCursor | pkg/tui/model.go:119-127 | up/down move the cursor by one within the list and change nothing else |
| TuiModel.HandleKeyKeepsPath | pkg/tui/model.go:94-231 | with unique sibling names, every key keeps the shown hosts equal to `GetHostsAtPath(currentPath)` |
| TuiModel.OtherKeysKeepLevel | pkg/tui/model.go:94-114 | outside the host list, and on quit, the level and path do not change |
| TuiModel.HostListKeepsPath | pkg/tui/model.go:117-163 | host-list keys keep the hosts consistent with the path |
| TuiModel.LevelUnchanged | pkg/tui/model.go:117-163 | only Enter on a group and Esc below the root change the level |
| TuiModel.DescendLevel | pkg/tui/model.go:131-137 | with unique sibling names, the level below a shown group is that group's children |
| TuiModel.EnterOnGroup | pkg/tui/model.go:131-137 | Enter on a group pushes its name, shows its children and resets the cursor |
| TuiModel.EnterOnLeaf | pkg/tui/model.go:138-142 | Enter on a leaf selects it and switches to action mode |
| TuiModel.EscPops | pkg/tui/model.go:146-154 | Esc at the root changes nothing; below it pops one segment and reloads the level |
| TuiModel.EnterThenEscReturns | pkg/tui/model.go:129-154 | entering a group and pressing Esc returns to the same level and path, with the full level shown |
| TuiModel.DuplicateNamesMisleadEsc | pkg/tui/model.go:146-154 | with two top-level groups of the same name, Esc after going two levels into the second shows the first group's children |
| TuiModel.SearchEnterTakesFirst | pkg/tui/model.go:176-181 | Enter while searching selects the first filtered host, not the cursor's, and enters action mode |
| TuiModel.TypeThenBackspace | pkg/tui/model.go:183-195 | typing a character appends it to the query; Backspace then restores the query and its filtered list |
| TuiModel.ActionChoice | pkg/tui/model.go:214-221 | Enter in action mode quits, with action "ssh" iff the cursor is 0 and "sftp" iff it is 1 |
| TuiModel.ActionEscReturns | pkg/tui/model.go:223-227 | Esc in action mode clears the selection and returns to the host list |

## Left out

- main.go is not modelled: the session coordinator is goroutines, channels and timers, and the
  rest is I/O dispatch.
- pkg/terminal/sigwinch.go and sigwinch_windows.go are not part of this model (signal delivery
  and timeouts). The mutex and the goroutines of the terminal manager are dropped.
- pkg/ssh/client.go, pkg/ssh/session.go and pkg/sftp/client.go are thin library wrappers and
  are not part of this model. The dial and handshake inside `connectHop`, `keyAuthMethod`,
  `trySSHAgent` and `GenerateKey` are oracles or left out.
- pkg/config/loader.go (YAML loading and saving) is not part of this model; `Host.Validate` is
  modelled on a value that is returned, not through a pointer.
- The TUI's `View`/`render*` functions, styles.go and keys.go are output only. The
  `WindowSizeMsg` only records width and height.
- The `ls`/`lls` listings, `pwd`/`lpwd` printing, the `help` table, progress-bar output and the
  `[i/n]` prefix strings are output only. `mkdir`/`lmkdir` are modelled up to their target
  (`MkdirAll` itself is a file-system call).
- The SIGINT forwarding in `runTransfer` is concurrency. The effect of each command on the
  shell is not threaded through `SftpDispatch.Run`, which records the dispatched actions.
- SftpDispatch.Run: the input lines are handed over in order, one by one, and input ends
  cleanly after the last. Two behaviours of the reader goroutine are not modelled
  (pkg/sftp/commands.go:83-139). When the last piped line is still buffered as EOF arrives,
  the `select` may take EOF first and drop that line. A scanner error ends the shell with
  "read input: ..." (commands.go:137) instead of nil.
- SftpDispatch.UnitFor: only the unit thresholds of `formatBytes` are modelled, not the
  floating-point text.
- GoStrings.ToLower folds ASCII letters only; Go's `strings.ToLower` folds all of Unicode.
- TuiModel.UpdateSearching: Backspace drops the last character of the query; the source drops
  the last byte, which differs for multi-byte characters.
- TuiModel.TypeThenBackspace: for the same reason it holds in the source only for a
  single-byte (ASCII) character; for a multi-byte character the source's Backspace leaves
  part of it in the query.
- SftpPath.PathState.constructor: `NewPathState`'s lookups of the working and home directories
  are parameters; their error paths are not modelled.
- SshAuth.AuthMethods: the warning printed when a configured key fails is not modelled.
- SftpTransfer.DownloadOne: `MkdirAll` of a parent directory is modelled as adding that one
  directory, not its ancestors.
- SftpTransfer.UploadOne: the same for the remote `client.MkdirAll` of the parent directory.
- SftpTransfer.TransferFiles: the int64 counters are unbounded here; overflow is not modelled.
- SftpTransfer.DownloadStaysUnder: it assumes the server's entry names are plain (no ".."
  or "/"). The source does not check this, so a hostile server name could escape the local
  directory.
- The content of transferred files is not modelled; single-file transfers are modelled by
  the results of their steps (`Steps`), and directory transfers by per-file oracles. One
  answer (`removeOk`) stands for every removal of the same destination in one transfer.
