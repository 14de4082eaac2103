/** `check_write_buffer`, `ioring_prep_close` (src/shared.rs), and the copy, push, register
    sequence that every prep function with owned data goes through. */
module Shared {
  import opened Types
  import opened Kernel
  import opened Machine
  import opened Invariants
  import opened Discipline
  import opened Ring

  /** The end of the slice to write, in `usize` arithmetic, which wraps at 2^64. No slice is
      longer than `isize::MAX` bytes, and then the bounds are exact: the sum never wraps. */
  function CheckWriteBuffer(len: nat, size: U64, offset: U64): (r: Result<nat>)
    requires len < BIT_63
    ensures r.Ok? <==> offset + size <= len
    ensures r.Ok? ==> r.value == offset + size
    ensures r.Err? ==> r.error == BadBounds
  {
    if size > len then Err(BadBounds)
    else if offset > len then Err(BadBounds)
    else
      var end := (offset + size) % U64_LIMIT;
      if end > len then Err(BadBounds) else Ok(end)
  }

  /** The error of the checks made before anything is touched: the opcode must be supported,
      and an entry with owned data must post its completion. */
  function Refusal(supported: set<Kind>, kind: Kind, sqeFlags: U8): (e: Option<Error>)
    ensures e == Some(NotSupported) <==> kind !in supported
    ensures e == Some(SkipSuccessOnOwnedData) <==>
      kind in supported && kind in {OpenAt, Kind.Read, Kind.Write, Connect, Send, Recv} && sqeFlags % 128 >= 64
    ensures e.None? <==> kind in supported && (kind in {Kind.Close, Socket, Timeout} || sqeFlags % 128 < 64)
  {
    if kind !in supported then Some(NotSupported)
    else if Carries(kind) && SkipsSuccess(TruncateFlags(sqeFlags)) then Some(SkipSuccessOnOwnedData)
    else None
  }

  /** The whole outcome of a prep function that would push e with a copy of `bytes`: an early
      refusal touches nothing; otherwise it succeeds exactly when the queue lets it; success
      pushes e and owns its copy; every failure leaves what is owned and accepted as it was. */
  ghost predicate OwnedOutcome(c: Config, s: State, s': State, env: Enter, refusal: Option<Error>,
                               e: Sqe, bytes: seq<Byte>, r: Result<()>)
  {
    && (refusal.Some? ==> r == Err(refusal.value) && s' == s)
    && (refusal.None? ==> QueueOutcome(c, s, s', env, r))
    && (r.Ok? ==> AcceptedWith(s, s', e, bytes))
    && (r.Err? ==> Rejected(s, s'))
  }

  /** The same for an entry that needs no memory. */
  ghost predicate PlainOutcome(c: Config, s: State, s': State, env: Enter, refusal: Option<Error>,
                               e: Sqe, r: Result<()>)
  {
    && (refusal.Some? ==> r == Err(refusal.value) && s' == s)
    && (refusal.None? ==> QueueOutcome(c, s, s', env, r))
    && (r.Ok? ==> AcceptedPlain(s, s', e))
    && (r.Err? ==> Rejected(s, s'))
  }

  /** What a successful call accepted last, and what it owns for it. */
  lemma OwnedAsked(c: Config, s: State, s': State, env: Enter, refusal: Option<Error>, e: Sqe, bytes: seq<Byte>,
                   r: Result<()>)
    requires OwnedOutcome(c, s, s', env, refusal, e, bytes, r)
    ensures r.Ok? ==> e.ptr.Some? && AskedWith(s', e.kind, e.args, e.flags, e.id, e.extent, DataFor(e))
    ensures r.Ok? ==> DataFor(e).addr in s'.h.initial && s'.h.initial[DataFor(e).addr] == bytes
  {
    hide QueueOutcome;
  }

  lemma PlainAsked(c: Config, s: State, s': State, env: Enter, refusal: Option<Error>, e: Sqe, r: Result<()>)
    requires PlainOutcome(c, s, s', env, refusal, e, r) && e.ptr.None?
    ensures r.Ok? ==> AskedPlain(s', e.kind, e.args, e.flags, e.id)
  {
    hide QueueOutcome;
  }

  /** The id was handed out by the counter and no entry was pushed under it yet. */
  ghost predicate FreshId(s: State, id: nat) {
    id < s.h.allocs && id !in s.h.tokenOf
  }

  /** The call keeps the discipline of the wrappers if the id is fresh, and any caller's if no
      unreaped entry has the id. */
  ghost predicate IdsKept(c: Config, before: seq<Action>, s: State, e: Sqe, now: seq<Action>) {
    && (Issued(c, before) && FreshId(s, e.id) ==> Issued(c, now))
    && (Careful(c, before) && IdFree(s, e) ==> Careful(c, now))
  }

  lemma RefusedOutcome(c: Config, s: State, env: Enter, error: Error, e: Sqe, bytes: seq<Byte>)
    requires s.pc.Idle? && !s.entering
    ensures OwnedOutcome(c, s, s, env, Some(error), e, bytes, Err(error))
    ensures PlainOutcome(c, s, s, env, Some(error), e, Err(error))
  {
    NoProgress(s.k);
  }

  lemma FailedOutcome(c: Config, s0: State, s1: State, env: Enter, e: Sqe, bytes: seq<Byte>, r: Result<()>)
    requires OneOwner(s0) && Enabled(c, s0, Alloc(e, bytes)) && r.Err?
    requires Autosubmitted(c, Step(c, s0, Alloc(e, bytes)), s1, env, e, r)
    ensures OwnedOutcome(c, s0, Step(c, s1, Drop), env, None, e, bytes, r)
  {
    hide Progress;
    assert s1.mem.Keys == s0.mem.Keys + {e.ptr.value};
    assert e.ptr.value !in s0.mem;
    assert Step(c, s1, Drop).mem.Keys == s0.mem.Keys;
  }

  lemma PushedOutcome(c: Config, s0: State, s1: State, env: Enter, e: Sqe, bytes: seq<Byte>, r: Result<()>)
    requires OneOwner(s0) && Enabled(c, s0, Alloc(e, bytes)) && r.Ok?
    requires Autosubmitted(c, Step(c, s0, Alloc(e, bytes)), s1, env, e, r)
    ensures s1.pc == Pushed(e) && !s1.entering
    ensures OwnedOutcome(c, s0, Step(c, s1, Register), env, None, e, bytes, r)
  {
    hide Progress;
    assert e.ptr.value !in s0.mem;
  }

  /** Copies the data, pushes the entry, and only then hands the copy to the ring. The kernel
      may take and even finish the entry in between. */
  method PushOwned(ring: TheIoRing, e: Sqe, bytes: seq<Byte>, env: Enter) returns (r: Result<()>)
    requires ring.Ready() && WellBuilt(e, bytes) && e.ptr.value == ring.nextAddr
    modifies ring
    ensures ring.Ready() && OwnedOutcome(ring.config, old(ring.View()), ring.View(), env, None, e, bytes, r)
    ensures NeverReaps(old(ring.log), ring.log)
    ensures IdsKept(ring.config, old(ring.log), old(ring.View()), e, ring.log)
  {
    hide Run, Progress, Ordered, Partitioned, AllFormed, LabelTable, Sized, Autosubmitted, OwnedOutcome, NeverReaps,
      Issued, Careful;
    ghost var s0 := ring.View();
    RunAnyLog(ring.config, ring.log);
    NeverReapsNothing(ring.log);
    NeverReapsStep(ring.log, ring.log, Alloc(e, bytes));
    ring.Perform(Alloc(e, bytes));
    ghost var mid := ring.log;
    ghost var pushes;
    r, pushes := ring.Autosubmit(e, env);
    ghost var s1 := ring.View();
    NeverReapsThen(old(ring.log), mid, ring.log);
    NeverReapsStep(old(ring.log), ring.log, Drop);
    NeverReapsStep(old(ring.log), ring.log, Register);
    if r.Err? {
      FailedOutcome(ring.config, s0, s1, env, e, bytes, r);
      AutosubmittedFails(ring.config, Step(ring.config, s0, Alloc(e, bytes)), s1, env, e, r);
      ring.Perform(Drop);
      return;
    }
    PushedOutcome(ring.config, s0, s1, env, e, bytes, r);
    ring.AddOwned(e.id, DataFor(e));
  }

  lemma AutosubmittedFails(c: Config, s: State, s': State, env: Enter, e: Sqe, r: Result<()>)
    requires Autosubmitted(c, s, s', env, e, r) && r.Err?
    ensures s'.pc == s.pc && s'.entering == s.entering
  {
  }

  lemma PlainPushed(c: Config, s: State, s': State, env: Enter, e: Sqe, r: Result<()>)
    requires s.pc.Idle? && !s.entering && Autosubmitted(c, s, s', env, e, r)
    ensures s'.pc.Idle? && !s'.entering && PlainOutcome(c, s, s', env, None, e, r)
  {
    hide Progress;
  }

  /** Pushes an entry that needs no memory. */
  method PushPlain(ring: TheIoRing, e: Sqe, env: Enter) returns (r: Result<()>)
    requires ring.Ready() && Plain(e)
    modifies ring
    ensures ring.Ready() && PlainOutcome(ring.config, old(ring.View()), ring.View(), env, None, e, r)
    ensures NeverReaps(old(ring.log), ring.log)
    ensures IdsKept(ring.config, old(ring.log), old(ring.View()), e, ring.log)
  {
    hide Run, Autosubmitted, PlainOutcome;
    ghost var pushes;
    r, pushes := ring.Autosubmit(e, env);
    PlainPushed(ring.config, old(ring.View()), ring.View(), env, e, r);
  }

  function CloseEntry(fd: int, sqeFlags: U8, id: nat): Sqe {
    Sqe(Kind.Close, [fd], None, 0, TruncateFlags(sqeFlags), id)
  }

  method PrepClose(ring: TheIoRing, fd: int, userData: nat, sqeFlags: U8, env: Enter) returns (r: Result<()>)
    requires ring.Ready()
    modifies ring
    ensures ring.Ready()
    ensures PlainOutcome(ring.config, old(ring.View()), ring.View(), env,
                         Refusal(ring.supported, Kind.Close, sqeFlags), CloseEntry(fd, sqeFlags, userData), r)
    ensures NeverReaps(old(ring.log), ring.log)
    ensures IdsKept(ring.config, old(ring.log), old(ring.View()), CloseEntry(fd, sqeFlags, userData), ring.log)
    ensures r.Ok? ==> AskedPlain(ring.View(), Kind.Close, [fd], sqeFlags % 128, userData)
  {
    var e := CloseEntry(fd, sqeFlags, userData);
    hide PlainOutcome;
    if Kind.Close !in ring.supported {
      RefusedOutcome(ring.config, ring.View(), env, NotSupported, e, []);
      return Err(NotSupported);
    }
    r := PushPlain(ring, e, env);
    PlainAsked(ring.config, old(ring.View()), ring.View(), env, None, e, r);
  }
}
