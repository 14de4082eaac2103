/** Pairing over whole runs: each result with its own id and its own buffer, whatever else the
    ring and the kernel did, and however the completions were batched. */
module Pairing {
  import opened Types
  import opened Kernel
  import opened Machine
  import opened Invariants
  import opened Discipline
  import opened Safety

  // ---- pairing --------------------------------------------------------------------------

  /** The bytes of `first` overlaid with everything the kernel wrote for request `req`. */
  function Overlay(c: Config, log: seq<Action>, req: nat, first: seq<Byte>): seq<Byte> {
    if |log| == 0 then first
    else
      var n := |log| - 1;
      var before := Overlay(c, log[..n], req, first);
      if log[n].Env? && Enabled(c, Run(c, log[..n]), log[n]) then Written(log[n].step, req, before) else before
  }

  lemma NotWritten(c: Config, s: State, a: Action, req: nat, image: seq<Byte>)
    requires OnePlace(s.k)
    ensures |s.k.consumed| <= req && a.Env? && Enabled(c, s, a) ==> Written(a.step, req, image) == image
  {
    if |s.k.consumed| <= req { NotYetTaken(s.k, req); }
  }

  lemma RunTaken(c: Config, log: seq<Action>)
    ensures OnePlace(Run(c, log).k)
  {
    RunAnyLog(c, log);
  }

  /** Nothing is written for a request before the kernel takes its entry. */
  lemma {:induction false} OverlayBeforeTaken(c: Config, log: seq<Action>, req: nat, first: seq<Byte>)
    requires |Run(c, log).k.consumed| <= req
    ensures Overlay(c, log, req, first) == first
  {
    if |log| > 0 {
      hide OnePlace, Step, Enabled, Written;
      var n := |log| - 1;
      RunTaken(c, log[..n]);
      NotWritten(c, Run(c, log[..n]), log[n], req, first);
      StepConsumed(c, Run(c, log[..n]), log[n], req);
      OverlayBeforeTaken(c, log[..n], req, first);
    }
  }

  lemma StepConsumed(c: Config, s: State, a: Action, req: nat)
    requires OnePlace(s.k)
    ensures |s.k.consumed| <= |Step(c, s, a).k.consumed|
    ensures |s.k.consumed| <= req ==> req !in s.k.inflight && req !in s.k.postedAt
  {
    hide Step, Partitioned;
    StepTakes(c, s, a);
    if |s.k.consumed| <= req { NotYetTaken(s.k, req); }
  }

  lemma StepTakes(c: Config, s: State, a: Action)
    ensures s.k.consumed <= Step(c, s, a).k.consumed
    ensures a != Env(Consume) ==> s.k.consumed == Step(c, s, a).k.consumed
  {
    hide KUring;
    if a.Env? && Enabled(c, s, a) { KernelPosts(c, s.k, s.mem, s.h.initial, a.step); }
  }

  lemma NotYetTaken(k: Uring, req: nat)
    requires OnePlace(k) && |k.consumed| <= req
    ensures req !in k.inflight && req !in k.postedAt
  {
  }

  /** The image of a request's memory, in flight or posted, on a kernel state. */
  ghost predicate ImageIs(k: Uring, req: nat, image: seq<Byte>) {
    && (req in k.inflight ==> k.inflight[req].image == image)
    && (req in k.postedAt && k.postedAt[req] < |k.posted| ==> k.posted[k.postedAt[req]].job.image == image)
  }

  function Written(step: KStep, req: nat, image: seq<Byte>): seq<Byte> {
    if step.Write? && step.req == req then Splice(image, step.at, step.data) else image
  }

  /** A posted request is no longer in flight. */
  lemma PostedNotInFlight(k: Uring, req: nat)
    requires OnePlace(k) && req in k.postedAt
    ensures k.postedAt[req] < |k.posted| && req !in k.inflight
  {
  }

  lemma KernelImage(c: Config, k: Uring, mem: Memory, initial: Memory, step: KStep, req: nat, image: seq<Byte>)
    requires KEnabled(c, k, step) && req < |k.consumed| && ImageIs(k, req, image)
    requires req in k.postedAt ==> k.postedAt[req] < |k.posted| && req !in k.inflight
    ensures ImageIs(KUring(c, k, mem, initial, step), req, Written(step, req, image))
  {
    match step {
      case Complete(r, result) =>
      case _ =>
    }
  }

  lemma StepImage(c: Config, s: State, a: Action, req: nat, image: seq<Byte>)
    requires OnePlace(s.k) && req < |s.k.consumed| && ImageIs(s.k, req, image)
    ensures ImageIs(Step(c, s, a).k, req, if a.Env? && Enabled(c, s, a) then Written(a.step, req, image) else image)
  {
    if req in s.k.postedAt { PostedNotInFlight(s.k, req); }
    hide Partitioned;
    if a.Env? && Enabled(c, s, a) {
      KernelImage(c, s.k, s.mem, s.h.initial, a.step, req, image);
    }
  }

  /** A request keeps its entry, and its memory's first contents do not change. */
  lemma StepJob(c: Config, s: State, a: Action, req: nat)
    requires AnyLog(c, s) && req < |s.k.consumed|
    ensures var s' := Step(c, s, a);
      && req < |s'.k.consumed|
      && JobFor(s'.k.consumed[req], s'.h.initial) == JobFor(s.k.consumed[req], s.h.initial)
  {
    hide Step, Ordered, Partitioned, Ownership, AllFormed;
    RequestIsAccepted(c, s, req);
    FormedAt(s, req);
    StepExtends(c, s, a);
    StepTakes(c, s, a);
  }

  lemma NewJob(c: Config, s: State, a: Action, req: nat)
    requires OnePlace(s.k) && |s.k.consumed| <= req < |Step(c, s, a).k.consumed|
    ensures var s' := Step(c, s, a); ImageIs(s'.k, req, JobFor(s'.k.consumed[req], s'.h.initial).image)
  {
    NotYetTaken(s.k, req);
    StepNewRequest(c, s, a, req);
    hide Partitioned;
  }

  lemma {:induction false} ImageIsOverlay(c: Config, log: seq<Action>, req: nat)
    requires req < |Run(c, log).k.consumed|
    ensures ImageIs(Run(c, log).k, req,
                    Overlay(c, log, req, JobFor(Run(c, log).k.consumed[req], Run(c, log).h.initial).image))
  {
    var n := |log| - 1;
    var s, s' := Run(c, log[..n]), Run(c, log);
    var first := JobFor(s'.k.consumed[req], s'.h.initial).image;
    RunAnyLog(c, log[..n]);
    hide AnyLog, Step;
    if req < |s.k.consumed| {
      StepJob(c, s, log[n], req);
      ImageIsOverlay(c, log[..n], req);
      StepImage(c, s, log[n], req, Overlay(c, log[..n], req, first));
    } else {
      NewJob(c, s, log[n], req);
      OverlayBeforeTaken(c, log[..n], req, first);
      StepNewRequest(c, s, log[n], req);
    }
  }

  lemma StepNewRequest(c: Config, s: State, a: Action, req: nat)
    requires |s.k.consumed| <= req < |Step(c, s, a).k.consumed|
    ensures a == Env(Consume)
  {
    hide Step;
    StepTakes(c, s, a);
  }

  /** Every event is the one its submission and the kernel determine: the id it was submitted
      under, the kernel's result, and, for the kinds with a buffer, that entry's own memory as
      the kernel left it, cut or padded to the result. */
  lemma EventIsItsOwn(c: Config, log: seq<Action>, i: nat)
    requires Careful(c, log) && i < |Run(c, log).h.events|
    ensures var s := Run(c, log);
      && |s.h.events| == |s.h.reaped| && s.h.reaped[i].req < |s.h.accepted|
      && var p := s.h.reaped[i]; var e := s.h.accepted[p.req]; var ev := s.h.events[i];
      && ev.userData == e.id && ev.result == p.result
      && (ev.buffer.Some? <==> HasBuffer(e.kind))
      && (HasBuffer(e.kind) ==>
           && e.ptr.Some? && e.ptr.value in s.h.initial
           && var first := s.h.initial[e.ptr.value];
           && ev.buffer == Some(Trim(Overlay(c, log, p.req, first), p.result))
           && |Overlay(c, log, p.req, first)| == |first|
           && (!KernelFills(e.kind) ==> Overlay(c, log, p.req, first) == first))
    // by name: which kinds hand a buffer back
    ensures var s := Run(c, log); var kind := s.h.accepted[s.h.reaped[i].req].kind; var ev := s.h.events[i];
      && (kind in {OpenAt, Connect, Kind.Close, Socket, Timeout} ==> ev.buffer.None?)
      && (kind in {Kind.Read, Kind.Write, Send, Recv} ==> ev.buffer.Some?)
  {
    RunDisciplined(c, log);
    hide Run, Overlay, Ordered, Partitioned, Ownership, AllFormed, LabelTable, Sized, UnmixedIds, OwnedTable,
      MemoryFaithful;
    var s := Run(c, log);
    var p := s.h.reaped[i];
    ReapedAt(c, s, i);
    RequestIsAccepted(c, s, p.req);
    FormedAt(s, p.req);
    ImageIsOverlay(c, log, p.req);
    assert s.h.events[i] == EventOf(p) && ImageOk(s.h.initial, s.k.posted[i]);
  }

  /** The t-th accepted entry is a write or send of `data[off..off + size]`, or a read or recv
      into `size` zero bytes. */
  ghost predicate Submitted(s: State, t: nat, bytes: seq<Byte>) {
    && t < |s.h.accepted| && HasBuffer(s.h.accepted[t].kind)
    && s.h.accepted[t].ptr.Some? && s.h.accepted[t].ptr.value in s.h.initial
    && s.h.initial[s.h.accepted[t].ptr.value] == bytes
  }

  lemma SubmittedLater(c: Config, log: seq<Action>, more: seq<Action>, t: nat, bytes: seq<Byte>)
    requires Submitted(Run(c, log), t, bytes)
    ensures Submitted(Run(c, log + more), t, bytes)
    ensures Run(c, log).h.accepted[t] == Run(c, log + more).h.accepted[t]
  {
    HistoryGrows(c, log, more);
  }

  lemma TrimPrefix(b: seq<Byte>, result: int)
    requires 0 <= result <= |b|
    ensures Trim(b, result) == b[..result]
  {
  }

  lemma SlicePrefix(data: seq<Byte>, off: nat, size: nat, result: nat)
    requires off + size <= |data| && result <= size
    ensures data[off..off + size][..result] == data[off..off + result]
  {
  }

  /** The event for an entry submitted with `bytes`, in any continuation in which the kernel
      reports between 0 and |bytes| bytes. */
  lemma RoundTrip(c: Config, log: seq<Action>, more: seq<Action>, t: nat, i: nat, bytes: seq<Byte>)
    requires Careful(c, log + more) && Submitted(Run(c, log), t, bytes)
    requires i < |Run(c, log + more).h.reaped| && Run(c, log + more).h.reaped[i].req == t
    requires 0 <= Run(c, log + more).h.reaped[i].result <= |bytes|
    ensures var s := Run(c, log + more); var e := Run(c, log).h.accepted[t]; var r := s.h.reaped[i].result;
      && i < |s.h.events| && |Overlay(c, log + more, t, bytes)| == |bytes|
      && s.h.events[i] == CompletionEvent(e.id, r, Some(Overlay(c, log + more, t, bytes)[..r]))
      && (!KernelFills(e.kind) ==> Overlay(c, log + more, t, bytes) == bytes)
  {
    hide Run, Overlay, Ordered, Partitioned, Ownership, AllFormed, LabelTable, Sized, UnmixedIds, OwnedTable,
      MemoryFaithful;
    SubmittedLater(c, log, more, t, bytes);
    RunDisciplined(c, log + more);
    EventIsItsOwn(c, log + more, i);
    hide Trim;
    TrimPrefix(Overlay(c, log + more, t, bytes), Run(c, log + more).h.reaped[i].result);
  }

  /** A write or send that finishes with 0 <= result <= size, however it was interleaved,
      yields its own id and exactly the first `result` of its own bytes. */
  lemma WriteRoundTrip(c: Config, log: seq<Action>, more: seq<Action>, t: nat, i: nat,
                       data: seq<Byte>, off: nat, size: nat)
    requires Careful(c, log + more)
    requires off + size <= |data| && Submitted(Run(c, log), t, data[off..off + size])
    requires !KernelFills(Run(c, log).h.accepted[t].kind)
    requires i < |Run(c, log + more).h.reaped| && Run(c, log + more).h.reaped[i].req == t
    requires 0 <= Run(c, log + more).h.reaped[i].result <= size
    ensures var s := Run(c, log + more); var r := s.h.reaped[i].result;
      && i < |s.h.events|
      && s.h.events[i] == CompletionEvent(Run(c, log).h.accepted[t].id, r, Some(data[off..off + r]))
  {
    hide Run, Overlay, Submitted;
    RoundTrip(c, log, more, t, i, data[off..off + size]);
    SlicePrefix(data, off, size, Run(c, log + more).h.reaped[i].result);
  }

  /** A read or recv that finishes with 0 <= result <= max_size yields its own id and exactly
      the first `result` bytes that the kernel's writes for it left in its zeroed buffer. */
  lemma ReadRoundTrip(c: Config, log: seq<Action>, more: seq<Action>, t: nat, i: nat, maxSize: nat)
    requires Careful(c, log + more)
    requires Submitted(Run(c, log), t, Zeros(maxSize)) && KernelFills(Run(c, log).h.accepted[t].kind)
    requires i < |Run(c, log + more).h.reaped| && Run(c, log + more).h.reaped[i].req == t
    requires 0 <= Run(c, log + more).h.reaped[i].result <= maxSize
    ensures var s := Run(c, log + more); var r := s.h.reaped[i].result;
      var filled := Overlay(c, log + more, t, Zeros(maxSize));
      && i < |s.h.events| && |filled| == maxSize
      && s.h.events[i] == CompletionEvent(Run(c, log).h.accepted[t].id, r, Some(filled[..r]))
  {
    hide Run, Overlay, Submitted;
    RoundTrip(c, log, more, t, i, Zeros(maxSize));
  }

  // ---- completion order and batching ------------------------------------------------------

  lemma EventsFollowPosted(c: Config, log: seq<Action>)
    requires Careful(c, log)
    ensures var s := Run(c, log);
      && |s.h.events| <= |s.k.posted|
      && forall i :: 0 <= i < |s.h.events| ==> s.h.events[i] == EventOf(s.k.posted[i])
  {
    RunDisciplined(c, log);
    var s := Run(c, log);
    forall i | 0 <= i < |s.h.events| ensures s.h.events[i] == EventOf(s.k.posted[i]) {
      ReapedAt(c, s, i);
    }
  }

  /** Batching does not matter. Two runs in which the kernel posted the same completions hand
      out, event by event and buffer by buffer, the same list, as far as each has reaped:
      draining everything, draining one at a time, and splitting over several calls agree. */
  lemma BatchingIrrelevant(c: Config, log: seq<Action>, log': seq<Action>)
    requires Careful(c, log) && Careful(c, log')
    requires Run(c, log).k.posted == Run(c, log').k.posted
    requires |Run(c, log).h.events| <= |Run(c, log').h.events|
    ensures Run(c, log).h.events <= Run(c, log').h.events
  {
    EventsFollowPosted(c, log);
    EventsFollowPosted(c, log');
  }

  /** What is owned after reaping depends on what was submitted, posted and reaped, and not on
      how the reaping was split. */
  lemma OwnedIsDetermined(c: Config, log: seq<Action>, log': seq<Action>)
    requires Careful(c, log) && Careful(c, log')
    requires Run(c, log).h.accepted == Run(c, log').h.accepted && Run(c, log).k.posted == Run(c, log').k.posted
    requires |Run(c, log).h.reaped| == |Run(c, log').h.reaped|
    requires Run(c, log).pc.Idle? && Run(c, log').pc.Idle?
    ensures Run(c, log).owned == Run(c, log').owned
  {
    OwnedSubmap(c, log, log');
    OwnedSubmap(c, log', log);
  }

  lemma OwnedSubmap(c: Config, log: seq<Action>, log': seq<Action>)
    requires Careful(c, log) && Careful(c, log')
    requires Run(c, log).h.accepted == Run(c, log').h.accepted && Run(c, log).k.posted == Run(c, log').k.posted
    requires |Run(c, log).h.reaped| == |Run(c, log').h.reaped|
    requires Run(c, log).pc.Idle? && Run(c, log').pc.Idle?
    ensures var s, s' := Run(c, log), Run(c, log');
      forall id :: id in s.owned ==> id in s'.owned && s'.owned[id] == s.owned[id]
  {
    hide Run, Disciplined, Careful;
    RunDisciplined(c, log);
    RunDisciplined(c, log');
    var s, s' := Run(c, log), Run(c, log');
    forall id | id in s.owned ensures id in s'.owned && s'.owned[id] == s.owned[id] {
      OwnedBoth(c, s, s', id);
    }
  }

  lemma OwnedBoth(c: Config, s: State, s': State, id: nat)
    requires Disciplined(c, s) && Disciplined(c, s') && id in s.owned && s'.pc.Idle?
    requires s.h.accepted == s'.h.accepted && s.k.posted == s'.k.posted && |s.h.reaped| == |s'.h.reaped|
    ensures id in s'.owned && s'.owned[id] == s.owned[id]
  {
    hide Ordered, Partitioned, Ownership, AllFormed, LabelTable, Sized, UnmixedIds, OwnedTable, MemoryFaithful,
      EventsPaired;
    OwnedIsWaitedFor(s, id);
    var t := s.h.tokenAt[s.owned[id].addr];
    SamePosted(s.k, s'.k, t);
    assert Pending(s', t);
    PendingIsOwned(s', t);
  }

  lemma SamePosted(k: Uring, k': Uring, t: nat)
    requires OnePlace(k) && OnePlace(k') && k.posted == k'.posted
    ensures t in k.postedAt <==> t in k'.postedAt
    ensures t in k.postedAt ==> k.postedAt[t] == k'.postedAt[t]
  {
    if t in k.postedAt { assert k'.posted[k.postedAt[t]].req == t; }
    if t in k'.postedAt { assert k.posted[k'.postedAt[t]].req == t; }
  }

  // ---- ids --------------------------------------------------------------------------------

  /** The counter is the number of calls, modulo 2^64, on every log. */
  lemma {:induction false} CounterWraps(c: Config, log: seq<Action>)
    ensures Run(c, log).counter == Run(c, log).h.allocs % U64_LIMIT
  {
    if |log| > 0 {
      CounterWraps(c, log[..|log| - 1]);
      StepCounter(c, Run(c, log[..|log| - 1]), log[|log| - 1]);
    }
  }

  lemma StepCounter(c: Config, s: State, a: Action)
    requires s.counter == s.h.allocs % U64_LIMIT
    ensures Step(c, s, a).counter == Step(c, s, a).h.allocs % U64_LIMIT
  {
  }

  /** No two events of user entries carry the same id. */
  lemma UserIdsReapedOnce(c: Config, log: seq<Action>, i: nat, j: nat)
    requires Issued(c, log) && i < j < |Run(c, log).h.events|
    requires Run(c, log).h.events[i].userData == Run(c, log).h.events[j].userData
    ensures Run(c, log).h.events[i].userData == TIMEOUT_ID
  {
    IssuedIsCareful(c, log);
    EventIsItsOwn(c, log, i);
    EventIsItsOwn(c, log, j);
    RunDisciplined(c, log);
    Conservation(c, log);
    var s := Run(c, log);
    ReapedAt(c, s, i);
    ReapedAt(c, s, j);
    var t, u := s.h.reaped[i].req, s.h.reaped[j].req;
    if s.h.accepted[t].kind != Timeout { IdsDiffer(s.h.accepted, s.h.tokenOf, s.h.allocs, t, u); }
  }

  /** An event under the id of an accepted user entry is the event of that entry. */
  lemma IdNamesItsEntry(c: Config, log: seq<Action>, t: nat, i: nat)
    requires Issued(c, log) && t < |Run(c, log).h.accepted| && i < |Run(c, log).h.events|
    requires var s := Run(c, log); s.h.accepted[t].kind != Timeout && s.h.events[i].userData == s.h.accepted[t].id
    ensures var s := Run(c, log);
      i < |s.h.reaped| && s.h.reaped[i].req == t && s.h.reaped[i].result == s.h.events[i].result
  {
    IssuedIsCareful(c, log);
    EventIsItsOwn(c, log, i);
    RunDisciplined(c, log);
    hide Run, Overlay;
    var s := Run(c, log);
    IdsDifferOrSame(s, t, s.h.reaped[i].req);
  }

  /** While no more than 2^63 ids have been handed out, exactly the timeouts are ignored; a
      user entry is ignored exactly when its id has reached 2^63. */
  lemma IgnoredIffTimeout(c: Config, log: seq<Action>, t: nat)
    requires Issued(c, log) && t < |Run(c, log).h.accepted|
    ensures var s := Run(c, log); var e := s.h.accepted[t];
      && (e.kind == Timeout ==> ShouldBeIgnored(e.id))
      && (e.kind != Timeout ==> (ShouldBeIgnored(e.id) <==> e.id >= 0x8000_0000_0000_0000))
      && (s.h.allocs <= BIT_63 ==> (ShouldBeIgnored(e.id) <==> e.kind == Timeout))
  {
    IssuedIsCareful(c, log);
    IdBound(Run(c, log), t);
    Bit63(Run(c, log).h.accepted[t].id);
  }

  lemma IdBound(s: State, t: nat)
    requires DistinctIds(s) && t < |s.h.accepted|
    ensures s.h.accepted[t].id < U64_LIMIT
    ensures var e := s.h.accepted[t]; if e.kind == Timeout then e.id == TIMEOUT_ID else e.id < s.h.allocs
  {
  }

  lemma Bit63(id: nat)
    requires id < U64_LIMIT
    ensures ShouldBeIgnored(id) <==> id >= BIT_63
  {
  }

  // ---- a user completion that is ignored ----------------------------------------------------

  function Allocs(n: nat): seq<Action> {
    seq(n, _ => NextId)
  }

  lemma {:induction false} RunAllocs(c: Config, n: nat)
    requires n <= TIMEOUT_ID
    ensures Issued(c, Allocs(n)) && Run(c, Allocs(n)) == Init().(counter := n, h := Init().h.(allocs := n))
  {
    hide Run, Issued;
    if n == 0 {
      RunUnfold(c, Allocs(0));
      IssuedNothing(c);
    } else {
      RunAllocs(c, n - 1);
      assert Allocs(n) == Allocs(n - 1) + [NextId];
      RunAppend(c, Allocs(n - 1), NextId);
    }
  }

  lemma IssuedNothing(c: Config)
    ensures Issued(c, Allocs(0))
  {
  }

  function LateSocket(): Sqe {
    Sqe(Socket, [2, 1, 0], None, 0, 0, BIT_63)
  }

  /** 2^63 + 1 ids are handed out, and a socket is prepared under the last of them. */
  function LateLog(): seq<Action> {
    Allocs(BIT_63 + 1) + [Push(LateSocket())]
  }

  lemma LatePushed(c: Config)
    requires c.capacity > 0
    ensures Issued(c, LateLog())
    ensures var s := Run(c, LateLog());
      && s.open && s.pc.Idle? && !s.entering && s.owned == map[] && s.h.events == []
      && s.k == EmptyUring().(sq := [LateSocket()])
  {
    RunAllocs(c, BIT_63 + 1);
    RunAppend(c, Allocs(BIT_63 + 1), Push(LateSocket()));
    hide Run, Issued;
  }

  function LateServed(): seq<Action> {
    [BeginEnter, Env(Consume), Env(Complete(0, 3)), EndEnter]
  }

  function LateReaped(): seq<Action> {
    [BeginReap, Drain(1), Release, EndReap]
  }

  lemma LateCompleted(c: Config, log: seq<Action>)
    requires var s := Run(c, log);
      && s.open && s.pc.Idle? && !s.entering && s.owned == map[] && s.h.events == [] && c.cqSize > 0
      && s.k == EmptyUring().(sq := [LateSocket()])
    ensures var s := Run(c, log + LateServed());
      && s.open && s.pc.Idle? && !s.entering && s.owned == map[] && s.h.events == []
      && s.k.cq == [Cqe(0, Job(LateSocket(), []), 3)]
  {
    hide Run;
    RunFour(c, log, BeginEnter, Env(Consume), Env(Complete(0, 3)), EndEnter);
  }

  lemma LateHandedOut(c: Config, log: seq<Action>)
    requires var s := Run(c, log);
      && s.open && s.pc.Idle? && !s.entering && s.owned == map[] && s.h.events == []
      && s.k.cq == [Cqe(0, Job(LateSocket(), []), 3)]
    ensures Run(c, log + LateReaped()).h.events == [CompletionEvent(BIT_63, 3, None)]
  {
    hide Run;
    RunFour(c, log, BeginReap, Drain(1), Release, EndReap);
  }

  /** With enough ids handed out, the wrappers' own discipline leads to a completion of a user's
      entry that is to be ignored. */
  lemma UserEventCanBeIgnored(c: Config)
    requires c.capacity > 0 && c.cqSize > 0
    ensures var log := LateLog() + LateServed() + LateReaped();
      && Issued(c, log) && Run(c, log).h.events == [CompletionEvent(BIT_63, 3, None)] && ShouldBeIgnored(BIT_63)
  {
    LatePushed(c);
    LateCompleted(c, LateLog());
    LateHandedOut(c, LateLog() + LateServed());
    hide Run, Issued;
    IssuedMore(c, LateLog(), LateServed());
    IssuedMore(c, LateLog() + LateServed(), LateReaped());
  }
}
