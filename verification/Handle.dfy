/** `FdHandle` (pysrc/century_ring/handle.py): a file descriptor that is closed at most once,
    either at once through the operating system or by a queued close entry. */
module Handle {
  import opened Types

  /** `marked`: the first thing to close the handle was an outside `mark_closed`. */
  datatype HandleState = HandleState(closeCalled: bool, osCloses: nat, queuedCloses: nat, marked: bool)

  datatype HandleAction =
    | CloseNow                       // close, or leaving the `with` block
    | MarkClosed                     // mark_closed from outside the ring
    | PrepClose(taken: bool)         // prep_close; does the ring take the entry, if asked to?

  function NewHandle(): HandleState {
    HandleState(false, 0, 0, false)
  }

  function HandleStep(s: HandleState, a: HandleAction): HandleState {
    if s.closeCalled then s
    else match a
      case CloseNow => s.(closeCalled := true, osCloses := s.osCloses + 1)
      case MarkClosed => s.(closeCalled := true, marked := true)
      case PrepClose(taken) => if taken then s.(closeCalled := true, queuedCloses := s.queuedCloses + 1) else s
  }

  function HandleRun(actions: seq<HandleAction>): HandleState {
    if |actions| == 0 then NewHandle()
    else HandleStep(HandleRun(actions[..|actions| - 1]), actions[|actions| - 1])
  }

  /** An action that closes an open handle. */
  predicate Closes(a: HandleAction) {
    !(a.PrepClose? && !a.taken)
  }

  /** Over any sequence of closes, successful or raising, there is at most one attempt to close
      the descriptor; there is exactly one when the handle says so, unless it was only marked;
      and the handle says so exactly when some action closed it, so a `prep_close` that failed
      in the ring leaves it open. */
  lemma {:induction false} ClosedAtMostOnce(actions: seq<HandleAction>)
    ensures var s := HandleRun(actions);
      && s.osCloses + s.queuedCloses == (if s.closeCalled && !s.marked then 1 else 0)
      && (s.closeCalled <==> exists i :: 0 <= i < |actions| && Closes(actions[i]))
      && (s.marked ==> exists i :: 0 <= i < |actions| && actions[i].MarkClosed?)
  {
    if |actions| > 0 {
      var n := |actions| - 1;
      ClosedAtMostOnce(actions[..n]);
      assert forall i :: 0 <= i < n ==> actions[..n][i] == actions[i];
      if HandleRun(actions[..n]).closeCalled {
        var i :| 0 <= i < n && Closes(actions[..n][i]);
        assert Closes(actions[i]);
      } else if Closes(actions[n]) {
        assert HandleRun(actions).closeCalled;
      }
      if HandleRun(actions[..n]).marked {
        var i :| 0 <= i < n && actions[..n][i].MarkClosed?;
        assert actions[i].MarkClosed?;
      } else if HandleRun(actions).marked {
        assert actions[n].MarkClosed?;
      }
    }
  }

  /** The first closing action decides how the handle was closed, for good. */
  lemma {:induction false} FirstCloseWins(actions: seq<HandleAction>, more: seq<HandleAction>)
    requires HandleRun(actions).closeCalled
    ensures HandleRun(actions + more) == HandleRun(actions)
  {
    if |more| == 0 {
      assert actions + more == actions;
    } else {
      FirstCloseWins(actions, more[..|more| - 1]);
      assert (actions + more)[..|actions + more| - 1] == actions + more[..|more| - 1];
    }
  }

  class FdHandle {
    const fd: int
    var closeCalled: bool
    ghost var osCloses: nat
    ghost var queuedCloses: nat
    ghost var marked: bool
    ghost var log: seq<HandleAction>

    ghost function View(): HandleState
      reads this
    {
      HandleState(closeCalled, osCloses, queuedCloses, marked)
    }

    ghost predicate Valid()
      reads this
    {
      View() == HandleRun(log)
    }

    constructor (fd: int)
      ensures Valid() && this.fd == fd && View() == NewHandle()
    {
      this.fd := fd;
      closeCalled := false;
      osCloses, queuedCloses, marked, log := 0, 0, false, [];
    }

    ghost method Record(a: HandleAction)
      modifies this`log
      ensures log == old(log) + [a] && HandleRun(log) == HandleStep(HandleRun(old(log)), a)
    {
      log := log + [a];
      assert log[..|log| - 1] == old(log);
    }

    /** `close`: the flag is set even when `os.close` raises, because the descriptor is gone
        either way. */
    method Close(osFails: bool) returns (r: Result<()>)
      requires Valid()
      modifies this
      ensures Valid() && closeCalled && log == old(log) + [CloseNow]
      ensures osCloses == old(osCloses) + (if old(closeCalled) then 0 else 1) && queuedCloses == old(queuedCloses)
      ensures r.Err? <==> osFails && !old(closeCalled)
      ensures r.Err? ==> r.error == OsCloseFailed
    {
      Record(CloseNow);
      if closeCalled {
        return Ok(());
      }
      r := if osFails then Err(OsCloseFailed) else Ok(());
      osCloses := osCloses + 1;
      closeCalled := true;
    }

    /** `__exit__`. */
    method Exit(osFails: bool) returns (r: Result<()>)
      requires Valid()
      modifies this
      ensures Valid() && closeCalled && log == old(log) + [CloseNow]
      ensures osCloses == old(osCloses) + (if old(closeCalled) then 0 else 1) && queuedCloses == old(queuedCloses)
      // an exception of the close comes through
      ensures r.Err? <==> osFails && !old(closeCalled)
      ensures r.Err? ==> r.error == OsCloseFailed
    {
      r := Close(osFails);
    }

    /** `mark_closed`, called by the ring after it took the close entry of an open handle
        (`queued`), or by anybody else. */
    method MarkClosed(ghost queued: bool)
      requires Valid() && (queued ==> !closeCalled)
      modifies this
      ensures Valid() && closeCalled && osCloses == old(osCloses)
      ensures log == old(log) + [if queued then PrepClose(true) else HandleAction.MarkClosed]
      ensures queuedCloses == old(queuedCloses) + if queued then 1 else 0
    {
      Record(if queued then PrepClose(true) else HandleAction.MarkClosed);
      if queued { queuedCloses := queuedCloses + 1; }
      else if !closeCalled { marked := true; }
      closeCalled := true;
    }
  }
}
