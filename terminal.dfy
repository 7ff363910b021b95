/**
 * The terminal mode manager (pkg/terminal/manager.go): the single owner of raw mode, which
 * the SSH shell enters and every other screen leaves. The terminal itself is not modelled:
 * what `term.GetState`, `term.MakeRaw` and `term.Restore` return is passed in.
 */
module TerminalManager {
  import opened Wrappers

  /** Saved terminal attributes, as an opaque token. */
  datatype TermAttrs = TermAttrs(id: nat)

  /** An SSH session handle. */
  datatype SessionId = SessionId(id: nat)

  datatype TerminalState = Cooked | Raw

  datatype TermError =
    | AlreadyRaw          // "already in raw mode"
    | MakeRawFailed       // "make raw: ..."
    | RestoreFailed       // "restore terminal: ..."

  /** The `stopResize` channel: closing it tells the resize watcher to stop. */
  class StopSignal {
    var closed: bool

    constructor ()
      ensures !closed
    {
      closed := false;
    }

    method Close()
      requires !closed
      modifies this
      ensures closed
    {
      closed := true;
    }
  }

  class Manager {
    var originalState: Option<TermAttrs>
    var inRawMode: bool
    var session: Option<SessionId>
    var stopResize: StopSignal

    /** The installed stop signal has never been closed (a Go channel may be closed only once). */
    ghost predicate Valid()
      reads this, stopResize
    {
      !stopResize.closed
    }

    /** `New`: cooked mode, and the attributes `GetState` reports (if any) as the baseline. */
    constructor (getState: Option<TermAttrs>)
      ensures Valid()
      ensures originalState == getState && !inRawMode && session.None?
      ensures fresh(stopResize)
    {
      originalState := getState;
      inRawMode := false;
      session := None;
      stopResize := new StopSignal();
    }

    /**
     * `EnterRaw`: `makeRaw` is what `term.MakeRaw` returns, the attributes in force before
     * the switch, or None when it fails. The baseline is taken from it only when none was
     * saved before.
     */
    method EnterRaw(s: SessionId, makeRaw: Option<TermAttrs>) returns (err: Option<TermError>)
      requires Valid()
      modifies this
      ensures Valid()
      ensures old(inRawMode) ==> err == Some(AlreadyRaw) && unchanged(this)
      ensures !old(inRawMode) && makeRaw.None? ==> err == Some(MakeRawFailed) && unchanged(this)
      ensures !old(inRawMode) && makeRaw.Some? ==>
        && err.None?
        && inRawMode && session == Some(s)
        && fresh(stopResize)
        && originalState == (if old(originalState).None? then makeRaw else old(originalState))
    {
      if inRawMode {
        return Some(AlreadyRaw);
      }
      if originalState.None? {
        if makeRaw.None? {
          return Some(MakeRawFailed);
        }
        originalState := makeRaw;
      } else {
        if makeRaw.None? {
          return Some(MakeRawFailed);
        }
      }
      inRawMode := true;
      session := Some(s);
      stopResize := new StopSignal();
      return None;
    }

    /**
     * The state change of `Restore`, given the signal installed before it and whether
     * `term.Restore` succeeds: outside raw mode nothing changes; in raw mode the mode flag and
     * the session are cleared and a fresh signal installed whatever happens, and the old signal
     * is closed unless a saved baseline failed to restore.
     */
    twostate predicate Restored(signal: StopSignal, restoreOk: bool)
      reads this, signal
    {
      if !old(inRawMode) then
        unchanged(this) && unchanged(signal)
      else
        && !inRawMode && session.None?
        && originalState == old(originalState)
        && fresh(stopResize)
        && signal.closed == (old(originalState).None? || restoreOk)
    }

    /** `Restore`: `restoreOk` is whether `term.Restore` succeeds. */
    method Restore(restoreOk: bool) returns (err: Option<TermError>)
      requires Valid()
      modifies this, stopResize
      ensures Valid()
      ensures Restored(old(stopResize), restoreOk)
      ensures err == (if old(inRawMode) && old(originalState).Some? && !restoreOk
                      then Some(RestoreFailed) else None)
    {
      if !inRawMode {
        return None;
      }
      inRawMode := false;
      var stopCh := stopResize;
      session := None;
      stopResize := new StopSignal();
      if originalState.Some? && !restoreOk {
        return Some(RestoreFailed);
      }
      stopCh.Close();
      return None;
    }

    /** `Cleanup`: `Restore` with its error dropped. */
    method Cleanup(restoreOk: bool)
      requires Valid()
      modifies this, stopResize
      ensures Valid()
      ensures Restored(old(stopResize), restoreOk)
    {
      var _ := Restore(restoreOk);
    }

    /** `InRaw`. */
    function InRaw(): bool
      reads this
    {
      inRawMode
    }

    /** `State`: raw exactly when `InRaw` says so. */
    function State(): (r: TerminalState)
      reads this
      ensures r == Raw <==> InRaw()
    {
      if inRawMode then Raw else Cooked
    }
  }

  /**
   * A session's lifetime: after entering raw mode and restoring, the manager is back in
   * cooked mode with no session, and the baseline is the one saved before (or, when there was
   * none, the attributes `MakeRaw` replaced), so a second session restores to the same
   * original attributes.
   */
  method SessionRoundTrip(m: Manager, s: SessionId, before: TermAttrs, restoreOk: bool)
    returns (enterErr: Option<TermError>, restoreErr: Option<TermError>)
    requires m.Valid() && !m.inRawMode
    modifies m, m.stopResize
    ensures m.Valid()
    ensures enterErr.None? && !m.inRawMode && m.session.None?
    ensures m.originalState == (if old(m.originalState).None? then Some(before) else old(m.originalState))
    ensures restoreErr.None? <==> restoreOk
  {
    enterErr := m.EnterRaw(s, Some(before));
    restoreErr := m.Restore(restoreOk);
  }
}
