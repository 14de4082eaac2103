/** `IoUring` and `unwrap_file` (pysrc/century_ring/ring.py): each wrapper takes a fresh id,
    checks the handle, and calls the prep function. `Valid` adds to the ring's own invariant
    that every id came from the counter, so every theorem about disciplined logs applies to
    every object reached through the wrappers. */
module PyRing {
  import opened Types
  import opened Kernel
  import opened Machine
  import opened Invariants
  import opened Discipline
  import opened Safety
  import opened Pairing
  import opened Ring
  import opened Handle
  import Shared
  import Files
  import Network

  datatype AcceptableFile = RawFd(fd: int) | FileHandle(handle: FdHandle)

  function Footprint(file: AcceptableFile): set<object> {
    if file.FileHandle? then {file.handle} else {}
  }

  function UnwrapFile(file: AcceptableFile): (r: Result<int>)
    reads Footprint(file)
    ensures r.Ok? <==> file.RawFd? || !file.handle.closeCalled
    ensures r.Ok? ==> r.value == if file.RawFd? then file.fd else file.handle.fd
    ensures r.Err? ==> r.error == HandleClosed
  {
    match file
    case RawFd(fd) => Ok(fd)
    case FileHandle(handle) => if handle.closeCalled then Err(HandleClosed) else Ok(handle.fd)
  }

  function Descriptor(file: AcceptableFile): (fd: int)
    ensures file.RawFd? ==> fd == file.fd
    ensures file.FileHandle? ==> fd == file.handle.fd
  {
    if file.RawFd? then file.fd else file.handle.fd
  }

  /** The wrapper's result, forgetting the id. */
  function Erase(r: Result<nat>): Result<()> {
    if r.Ok? then Ok(()) else Err(r.error)
  }

  lemma SameOutcome(done: Result<()>, id: nat)
    ensures Erase(if done.Ok? then Ok(id) else Err(done.error)) == done
  {
    if done.Ok? { match done.value case () => }
  }

  /** A wrapper around a prep function with owned data: it always takes an id; a closed handle
      stops it there; otherwise the prep function decides. */
  ghost predicate OwnedCall(c: Config, s: State, s': State, env: Enter, file: Result<int>, refusal: Option<Error>,
                            e: Sqe, bytes: seq<Byte>, r: Result<nat>)
  {
    var s1 := Step(c, s, NextId);
    && (file.Err? ==> r == Err(HandleClosed) && s' == s1)
    && (file.Ok? ==> Shared.OwnedOutcome(c, s1, s', env, refusal, e, bytes, Erase(r)))
    && (r.Ok? ==> r.value == s.counter && e.id == s.counter)
  }

  ghost predicate PlainCall(c: Config, s: State, s': State, env: Enter, file: Result<int>, refusal: Option<Error>,
                            e: Sqe, r: Result<nat>)
  {
    var s1 := Step(c, s, NextId);
    && (file.Err? ==> r == Err(HandleClosed) && s' == s1)
    && (file.Ok? ==> Shared.PlainOutcome(c, s1, s', env, refusal, e, Erase(r)))
    && (r.Ok? ==> r.value == s.counter && e.id == s.counter)
  }

  lemma NextIdIsFresh(c: Config, s: State)
    requires DistinctIds(s) && s.pc.Idle? && !s.entering
    ensures Shared.FreshId(Step(c, s, NextId), s.counter)
  {
  }

  class IoUring {
    const ring: TheIoRing

    ghost predicate Valid()
      reads this, ring
    {
      ring.Ready() && Issued(ring.config, ring.log)
    }

    /** An id is left: fewer than 2^64 - 256 have been handed out. */
    ghost predicate IdLeft()
      reads this, ring
    {
      ring.h.allocs < TIMEOUT_ID
    }

    constructor (ring: TheIoRing)
      requires ring.Ready() && ring.log == []
      ensures Valid() && this.ring == ring
    {
      this.ring := ring;
    }

    method NextUserData() returns (id: nat)
      requires Valid()
      modifies ring
      ensures ring.Ready() && (old(IdLeft()) ==> Valid()) && NeverReaps(old(ring.log), ring.log)
      ensures ring.View() == Step(ring.config, old(ring.View()), NextId)
      ensures id == old(ring.userDataCounter) && Shared.FreshId(ring.View(), id)
    {
      IssuedIsCareful(ring.config, ring.log);
      NextIdIsFresh(ring.config, ring.View());
      hide Run;
      id := ring.GetNextUserData();
    }

    method PrepRead(file: AcceptableFile, byteCount: U32, offset: I64, sqeFlags: U8, env: Enter)
      returns (r: Result<nat>)
      requires Valid()
      modifies ring
      ensures ring.Ready() && (old(IdLeft()) ==> Valid()) && NeverReaps(old(ring.log), ring.log)
      ensures offset < -1 ==> r == Err(NegativeOffset) && ring.View() == old(ring.View())
      ensures offset >= -1 ==>
        OwnedCall(ring.config, old(ring.View()), ring.View(), env, old(UnwrapFile(file)),
                  Shared.Refusal(ring.supported, Kind.Read, sqeFlags),
                  Files.ReadEntry(Descriptor(file), byteCount, AsU64(offset), old(ring.nextAddr), sqeFlags,
                                  old(ring.userDataCounter)),
                  Zeros(byteCount), r)
      ensures r.Ok? ==>
        AskedWith(ring.View(), Kind.Read, [Descriptor(file), if offset >= 0 then offset else U64_LIMIT - 1],
                  sqeFlags % 128, r.value, byteCount, Buffer(old(ring.nextAddr)))
    {
      hide Run, Shared.OwnedOutcome;
      if offset < 0 && offset < -1 {
        return Err(NegativeOffset);
      }
      var userData := NextUserData();
      var fd := UnwrapFile(file);
      if fd.Err? {
        return Err(fd.error);
      }
      var done := Files.PrepRead(ring, fd.value, byteCount, offset, userData, sqeFlags, env);
      SameOutcome(done, userData);
      r := if done.Ok? then Ok(userData) else Err(done.error);
    }

    method PrepWrite(file: AcceptableFile, buffer: seq<Byte>, fileOffset: I64, count: Option<U64>,
                     bufferOffset: Option<U64>, sqeFlags: U8, env: Enter) returns (r: Result<nat>)
      requires Valid() && |buffer| < BIT_63
      modifies ring
      ensures ring.Ready() && (old(IdLeft()) ==> Valid()) && NeverReaps(old(ring.log), ring.log)
      ensures fileOffset < -1 ==> r == Err(NegativeOffset) && ring.View() == old(ring.View())
      ensures fileOffset >= -1 ==>
        var size, off := OrElse(count, |buffer|), OrElse(bufferOffset, 0);
        OwnedCall(ring.config, old(ring.View()), ring.View(), env, old(UnwrapFile(file)),
                  Files.WriteRefusal(ring.supported, Kind.Write, sqeFlags, |buffer|, size, off),
                  Files.WriteEntry(Descriptor(file), size, AsU64(fileOffset), old(ring.nextAddr), sqeFlags,
                                   old(ring.userDataCounter)),
                  Files.Slice(buffer, size, off), r)
      ensures r.Ok? ==>
        AskedWith(ring.View(), Kind.Write, [Descriptor(file), if fileOffset >= 0 then fileOffset else U64_LIMIT - 1],
                  sqeFlags % 128, r.value, OrElse(count, |buffer|) % U32_LIMIT, Buffer(old(ring.nextAddr)))
    {
      hide Run, Shared.OwnedOutcome;
      if fileOffset < -1 {
        return Err(NegativeOffset);
      }
      var size := OrElse(count, |buffer|);
      var off := OrElse(bufferOffset, 0);
      var userData := NextUserData();
      var fd := UnwrapFile(file);
      if fd.Err? {
        return Err(fd.error);
      }
      var done := Files.PrepWrite(ring, fd.value, buffer, size, off, fileOffset, userData, sqeFlags, env);
      SameOutcome(done, userData);
      r := if done.Ok? then Ok(userData) else Err(done.error);
    }

    method PrepSend(file: AcceptableFile, buffer: seq<Byte>, count: Option<U64>, bufferOffset: Option<U64>,
                    flags: int, sqeFlags: U8, env: Enter) returns (r: Result<nat>)
      requires Valid() && |buffer| < BIT_63
      modifies ring
      ensures ring.Ready() && (old(IdLeft()) ==> Valid()) && NeverReaps(old(ring.log), ring.log)
      ensures
        var size, off := OrElse(count, |buffer|), OrElse(bufferOffset, 0);
        OwnedCall(ring.config, old(ring.View()), ring.View(), env, old(UnwrapFile(file)),
                  Files.WriteRefusal(ring.supported, Send, sqeFlags, |buffer|, size, off),
                  Network.SendEntry(Descriptor(file), size, flags, old(ring.nextAddr), sqeFlags,
                                    old(ring.userDataCounter)),
                  Files.Slice(buffer, size, off), r)
      ensures r.Ok? ==>
        AskedWith(ring.View(), Send, [Descriptor(file), flags], sqeFlags % 128, r.value,
                  OrElse(count, |buffer|) % U32_LIMIT, Buffer(old(ring.nextAddr)))
    {
      hide Run, Shared.OwnedOutcome;
      var size := OrElse(count, |buffer|);
      var off := OrElse(bufferOffset, 0);
      var userData := NextUserData();
      var fd := UnwrapFile(file);
      if fd.Err? {
        return Err(fd.error);
      }
      var done := Network.PrepSend(ring, fd.value, buffer, size, off, flags, userData, sqeFlags, env);
      SameOutcome(done, userData);
      r := if done.Ok? then Ok(userData) else Err(done.error);
    }

    method PrepRecv(file: AcceptableFile, byteCount: U32, flags: int, sqeFlags: U8, env: Enter)
      returns (r: Result<nat>)
      requires Valid()
      modifies ring
      ensures ring.Ready() && (old(IdLeft()) ==> Valid()) && NeverReaps(old(ring.log), ring.log)
      ensures OwnedCall(ring.config, old(ring.View()), ring.View(), env, old(UnwrapFile(file)),
                        Shared.Refusal(ring.supported, Recv, sqeFlags),
                        Network.RecvEntry(Descriptor(file), byteCount, flags, old(ring.nextAddr), sqeFlags,
                                          old(ring.userDataCounter)),
                        Zeros(byteCount), r)
      ensures r.Ok? ==>
        AskedWith(ring.View(), Recv, [Descriptor(file), flags], sqeFlags % 128, r.value, byteCount,
                  Buffer(old(ring.nextAddr)))
    {
      hide Run, Shared.OwnedOutcome;
      var userData := NextUserData();
      var fd := UnwrapFile(file);
      if fd.Err? {
        return Err(fd.error);
      }
      var done := Network.PrepRecv(ring, fd.value, byteCount, flags, userData, sqeFlags, env);
      SameOutcome(done, userData);
      r := if done.Ok? then Ok(userData) else Err(done.error);
    }

    /** `relativeTo` is read without asking whether it is closed. */
    method PrepOpenAt(relativeTo: Option<AcceptableFile>, path: seq<Byte>, rawFlags: int, permissions: U32,
                      sqeFlags: U8, env: Enter) returns (r: Result<nat>)
      requires Valid()
      modifies ring
      ensures ring.Ready() && (old(IdLeft()) ==> Valid()) && NeverReaps(old(ring.log), ring.log)
      ensures
        var dirfd := if relativeTo.Some? then Descriptor(relativeTo.value) else -1;
        OwnedCall(ring.config, old(ring.View()), ring.View(), env, Ok(dirfd),
                  Shared.Refusal(ring.supported, OpenAt, sqeFlags),
                  Files.OpenAtEntry(dirfd, path, rawFlags, permissions, old(ring.nextAddr), sqeFlags,
                                    old(ring.userDataCounter)),
                  path + [0], r)
      ensures r.Ok? ==>
        AskedWith(ring.View(), OpenAt,
                  [if relativeTo.Some? then Descriptor(relativeTo.value) else -1, rawFlags, permissions],
                  sqeFlags % 128, r.value, |path| + 1, OnePath(old(ring.nextAddr)))
    {
      hide Run, Shared.OwnedOutcome;
      var dirfd := if relativeTo.Some? then Descriptor(relativeTo.value) else -1;
      var userData := NextUserData();
      var done := Files.PrepOpenAt(ring, dirfd, path, userData, rawFlags, permissions, sqeFlags, env);
      SameOutcome(done, userData);
      r := if done.Ok? then Ok(userData) else Err(done.error);
    }

    /** `prep_connect_v4` and `prep_connect_v6`. */
    method PrepConnect(file: AcceptableFile, sockaddr: Option<seq<Byte>>, sqeFlags: U8, env: Enter)
      returns (r: Result<nat>)
      requires Valid()
      modifies ring
      ensures ring.Ready() && (old(IdLeft()) ==> Valid()) && NeverReaps(old(ring.log), ring.log)
      ensures
        var bytes := if sockaddr.Some? then sockaddr.value else [];
        OwnedCall(ring.config, old(ring.View()), ring.View(), env, old(UnwrapFile(file)),
                  Network.ConnectRefusal(ring.supported, sqeFlags, sockaddr),
                  Network.ConnectEntry(Descriptor(file), |bytes|, old(ring.nextAddr), sqeFlags,
                                       old(ring.userDataCounter)),
                  bytes, r)
      ensures r.Ok? ==>
        sockaddr.Some? &&
        AskedWith(ring.View(), Connect, [Descriptor(file)], sqeFlags % 128, r.value, |sockaddr.value|,
                  SockAddr(old(ring.nextAddr)))
    {
      hide Run, Shared.OwnedOutcome;
      var userData := NextUserData();
      var fd := UnwrapFile(file);
      if fd.Err? {
        return Err(fd.error);
      }
      var done := Network.PrepConnect(ring, fd.value, sockaddr, userData, sqeFlags, env);
      SameOutcome(done, userData);
      r := if done.Ok? then Ok(userData) else Err(done.error);
    }

    method PrepCreateSocket(domain: int, socketType: int, protocol: int, sqeFlags: U8, env: Enter)
      returns (r: Result<nat>)
      requires Valid()
      modifies ring
      ensures ring.Ready() && (old(IdLeft()) ==> Valid()) && NeverReaps(old(ring.log), ring.log)
      ensures PlainCall(ring.config, old(ring.View()), ring.View(), env, Ok(0),
                        Shared.Refusal(ring.supported, Socket, sqeFlags),
                        Network.SocketEntry(domain, socketType, protocol, sqeFlags, old(ring.userDataCounter)), r)
      ensures r.Ok? ==>
        AskedPlain(ring.View(), Socket, [domain, socketType, protocol], sqeFlags % 128, r.value)
    {
      hide Run, Shared.PlainOutcome;
      var userData := NextUserData();
      var done := Network.PrepCreateSocket(ring, domain, socketType, protocol, userData, sqeFlags, env);
      SameOutcome(done, userData);
      r := if done.Ok? then Ok(userData) else Err(done.error);
    }

    /** The handle is marked closed when, and only when, the ring took its close entry; a
        handle that is closed already never gets a second one. */
    method PrepClose(file: AcceptableFile, sqeFlags: U8, env: Enter) returns (r: Result<nat>)
      requires Valid() && (file.FileHandle? ==> file.handle.Valid())
      modifies ring, Footprint(file)
      ensures ring.Ready() && (old(IdLeft()) ==> Valid()) && NeverReaps(old(ring.log), ring.log)
      ensures PlainCall(ring.config, old(ring.View()), ring.View(), env, old(UnwrapFile(file)),
                        Shared.Refusal(ring.supported, Kind.Close, sqeFlags),
                        Shared.CloseEntry(Descriptor(file), sqeFlags, old(ring.userDataCounter)), r)
      ensures file.FileHandle? ==>
        && file.handle.Valid() && file.handle.osCloses == old(file.handle.osCloses)
        && file.handle.closeCalled == (old(file.handle.closeCalled) || r.Ok?)
        && file.handle.queuedCloses == old(file.handle.queuedCloses) + (if r.Ok? then 1 else 0)
        && file.handle.log == old(file.handle.log) + (if r.Ok? then [HandleAction.PrepClose(true)] else [])
        && (r.Ok? ==> !old(file.handle.closeCalled))
      ensures r.Ok? ==>
        AskedPlain(ring.View(), Kind.Close, [Descriptor(file)], sqeFlags % 128, r.value)
    {
      hide Run, Shared.PlainOutcome;
      var userData := NextUserData();
      var fd := UnwrapFile(file);
      if fd.Err? {
        return Err(fd.error);
      }
      var done := Shared.PrepClose(ring, fd.value, userData, sqeFlags, env);
      SameOutcome(done, userData);
      if done.Err? {
        return Err(done.error);
      }
      if file.FileHandle? {
        file.handle.MarkClosed(true);
      }
      r := Ok(userData);
    }

    method Submit(env: Enter) returns (r: Result<nat>)
      requires Valid()
      modifies ring
      ensures Valid()
      ensures !old(ring.open) ==> r == Err(RingClosed) && ring.View() == old(ring.View())
      ensures old(ring.open) ==> Entered(ring.config, old(ring.View()), ring.View(), env.takes) && (r.Err? <==> !env.ok)
      ensures r.Err? && old(ring.open) ==> r.error == SubmitFailed
      ensures r.Ok? && !ring.config.sqpoll ==> r.value == |ring.uring.consumed| - |old(ring.uring).consumed|
      ensures r.Ok? && !ring.config.sqpoll && env.takes >= |old(ring.uring).sq| ==>
        r.value == |old(ring.uring).sq| && ring.uring.sq == []
      ensures r.Ok? && ring.config.sqpoll ==> |ring.uring.sq| <= r.value <= |old(ring.uring).sq|
      ensures Only(old(ring.log), ring.log, true, false)
    {
      r := ring.Submit(env);
    }

    method SubmitAndWaitWithTimeout(seconds: nat, nsec: U32, first: Enter, second: Enter) returns (r: Result<nat>)
      requires Valid()
      modifies ring
      ensures Valid() && NeverReaps(old(ring.log), ring.log)
      ensures TimedWait(ring.config, old(ring.View()), ring.View(), TimeoutEntry(seconds, nsec), first, second, r)
      ensures r.Ok? ==> AskedPlain(ring.View(), Timeout, [seconds, nsec], 64, 0xFFFF_FFFF_FFFF_FF00)
    {
      r := ring.WaitWithTimeout(seconds, nsec, first, second);
    }

    /** Every event is the one its completion stands for, whatever the kernel did meanwhile. */
    method GetCompletionEntries() returns (r: Result<seq<CompletionEvent>>, ghost entries: seq<Cqe>)
      requires Valid()
      modifies ring
      ensures Valid()
      ensures r.Ok? <==> old(ring.open)
      ensures r.Err? ==> r == Err(RingClosed) && ring.View() == old(ring.View()) && ring.log == old(ring.log)
      ensures Only(old(ring.log), ring.log, false, true)
      ensures r.Ok? ==>
        && Processed(old(ring.View()), ring.View(), entries, r.value) && old(ring.uring).cq <= entries
        && forall i :: 0 <= i < |entries| ==> r.value[i] == EventOf(entries[i])
      // an event is that of an accepted entry, and has a buffer for exactly four kinds of it
      ensures r.Ok? ==> forall i :: 0 <= i < |entries| ==>
        && entries[i].req < |ring.h.accepted| && ring.h.accepted[entries[i].req] == entries[i].job.op
        && r.value[i].userData == entries[i].job.op.id && r.value[i].result == entries[i].result
        && (entries[i].job.op.kind in {OpenAt, Connect, Kind.Close, Socket, Timeout} ==> r.value[i].buffer.None?)
        && (entries[i].job.op.kind in {Kind.Read, Kind.Write, Send, Recv} ==> r.value[i].buffer.Some?)
    {
      hide Run;
      r, entries := ring.GetCompletionEntries();
      if r.Ok? {
        IssuedIsCareful(ring.config, ring.log);
        RunDisciplined(ring.config, ring.log);
        EventsAdded(ring.config, old(ring.View()), ring.View(), entries, r.value);
        EntriesAccepted(ring.config, old(ring.View()), ring.View(), entries, r.value);
      }
    }
  }

  /** An absent argument. */
  function OrElse(x: Option<U64>, default: nat): (r: U64)
    requires default < BIT_63
    ensures x.Some? ==> r == x.value
    ensures x.None? ==> r == default
  {
    if x.Some? then x.value else default
  }

  lemma EventsAdded(c: Config, s: State, s': State, entries: seq<Cqe>, events: seq<CompletionEvent>)
    requires EventsPaired(s') && |s.h.events| == |s.h.reaped| && Processed(s, s', entries, events)
    ensures forall i :: 0 <= i < |entries| ==> events[i] == EventOf(entries[i])
  {
    forall i | 0 <= i < |entries| ensures events[i] == EventOf(entries[i]) {
      assert s'.h.events[|s.h.events| + i] == EventOf(s'.h.reaped[|s.h.reaped| + i]);
    }
  }

  lemma EntriesAccepted(c: Config, s: State, s': State, entries: seq<Cqe>, events: seq<CompletionEvent>)
    requires InOrder(c, s') && OnePlace(s'.k) && Processed(s, s', entries, events)
    ensures forall i :: 0 <= i < |entries| ==>
      entries[i].req < |s'.h.accepted| && s'.h.accepted[entries[i].req] == entries[i].job.op
  {
    forall i | 0 <= i < |entries|
      ensures entries[i].req < |s'.h.accepted| && s'.h.accepted[entries[i].req] == entries[i].job.op
    {
      assert s'.h.reaped[|s.h.reaped| + i] == entries[i];
      ReapedAt(c, s', |s.h.reaped| + i);
      RequestIsAccepted(c, s', entries[i].req);
    }
  }

  // ---- from the call to its event ------------------------------------------------------------

  /** A prep call that returned `id` submitted exactly its entry, under `id`, with its bytes. */
  lemma CallSubmits(c: Config, s: State, s': State, env: Enter, file: Result<int>, refusal: Option<Error>,
                    e: Sqe, bytes: seq<Byte>, r: Result<nat>)
    requires OwnedCall(c, s, s', env, file, refusal, e, bytes, r) && r.Ok? && HasBuffer(e.kind)
    ensures refusal.None? && file.Ok? && r.value == e.id
    ensures Submitted(s', |s.h.accepted|, bytes) && s'.h.accepted[|s.h.accepted|] == e
  {
    hide QueueOutcome;
  }

  /** From `prep_write` or `prep_send` to the event: after the call returned an id, whatever else
      is called and whatever the kernel does, an event under that id that reports between 0 and
      `size` bytes hands back exactly the bytes of the caller's data it reports on. */
  lemma WriteEndToEnd(c: Config, s: State, log: seq<Action>, more: seq<Action>, env: Enter, file: Result<int>,
                      supported: set<Kind>, sqeFlags: U8, data: seq<Byte>, size: U64, off: U64, e: Sqe,
                      r: Result<nat>, i: nat)
    requires |data| < BIT_63 && (e.kind == Kind.Write || e.kind == Send) && r.Ok?
    requires OwnedCall(c, s, Run(c, log), env, file,
                       Files.WriteRefusal(supported, e.kind, sqeFlags, |data|, size, off), e,
                       Files.Slice(data, size, off), r)
    requires Issued(c, log + more) && i < |Run(c, log + more).h.events|
    requires Run(c, log + more).h.events[i].userData == r.value
    requires 0 <= Run(c, log + more).h.events[i].result <= size
    ensures off + size <= |data|
    ensures var ev := Run(c, log + more).h.events[i]; ev.buffer == Some(data[off..off + ev.result])
  {
    hide Run, Issued, Careful, OwnedCall, Submitted;
    var t := |s.h.accepted|;
    CallSubmits(c, s, Run(c, log), env, file, Files.WriteRefusal(supported, e.kind, sqeFlags, |data|, size, off), e,
                Files.Slice(data, size, off), r);
    SubmittedEntry(Run(c, log), t, Files.Slice(data, size, off));
    SubmittedLater(c, log, more, t, Files.Slice(data, size, off));
    SubmittedEntry(Run(c, log + more), t, Files.Slice(data, size, off));
    IdNamesItsEntry(c, log + more, t, i);
    IssuedIsCareful(c, log + more);
    WriteRoundTrip(c, log, more, t, i, data, off, size);
  }

  /** From `prep_read` or `prep_recv` to the event: the first bytes of the zeroed buffer as the
      kernel's writes for this very request left it. */
  lemma ReadEndToEnd(c: Config, s: State, log: seq<Action>, more: seq<Action>, env: Enter, file: Result<int>,
                     refusal: Option<Error>, maxSize: U32, e: Sqe, r: Result<nat>, i: nat)
    requires (e.kind == Kind.Read || e.kind == Recv) && r.Ok?
    requires OwnedCall(c, s, Run(c, log), env, file, refusal, e, Zeros(maxSize), r)
    requires Issued(c, log + more) && i < |Run(c, log + more).h.events|
    requires Run(c, log + more).h.events[i].userData == r.value
    requires 0 <= Run(c, log + more).h.events[i].result <= maxSize
    ensures var ev := Run(c, log + more).h.events[i];
      var filled := Overlay(c, log + more, |s.h.accepted|, Zeros(maxSize));
      |filled| == maxSize && ev.buffer == Some(filled[..ev.result])
  {
    hide Run, Issued, Careful, OwnedCall, Submitted, Overlay;
    var t := |s.h.accepted|;
    CallSubmits(c, s, Run(c, log), env, file, refusal, e, Zeros(maxSize), r);
    SubmittedEntry(Run(c, log), t, Zeros(maxSize));
    SubmittedLater(c, log, more, t, Zeros(maxSize));
    SubmittedEntry(Run(c, log + more), t, Zeros(maxSize));
    IdNamesItsEntry(c, log + more, t, i);
    IssuedIsCareful(c, log + more);
    ReadRoundTrip(c, log, more, t, i, maxSize);
  }

  lemma SubmittedEntry(s: State, t: nat, bytes: seq<Byte>)
    requires Submitted(s, t, bytes)
    ensures t < |s.h.accepted| && HasBuffer(s.h.accepted[t].kind)
  {
  }
}
