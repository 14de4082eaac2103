/** What every action keeps. The first layers need nothing but the ring's code: they hold on
    every log. The others need callers to leave an id alone while it is in use (`Careful`). */
module Invariants {
  import opened Types
  import opened Kernel
  import opened Machine

  // ---- the layers -------------------------------------------------------------------

  /** FIFO submission, FIFO completion, and the bounds of both queues. */
  ghost predicate Ordered(c: Config, accepted: seq<Sqe>, gone: seq<Cqe>, k: Uring) {
    && accepted == k.consumed + k.sq
    && |k.sq| <= c.capacity
    && k.posted == gone + k.cq + k.overflow
    && |k.cq| <= c.cqSize
  }

  ghost predicate InOrder(c: Config, s: State) {
    Ordered(c, s.h.accepted, s.h.reaped + Entries(s.pc), s.k)
  }

  ghost predicate Placed(inflight: map<nat, Job>, postedAt: map<nat, nat>, silenced: set<nat>, t: nat) {
    t in inflight || t in postedAt || t in silenced
  }

  ghost predicate Covered(consumed: nat, inflight: map<nat, Job>, postedAt: map<nat, nat>, silenced: set<nat>) {
    forall t: nat :: t < consumed ==> Placed(inflight, postedAt, silenced, t)
  }

  /** `postedAt` finds a request's completion in `posted`, which holds one for no other. */
  ghost predicate PostedTable(consumed: seq<Sqe>, posted: seq<Cqe>, postedAt: map<nat, nat>) {
    && (forall t :: t in postedAt ==>
         t < |consumed| && postedAt[t] < |posted| && posted[postedAt[t]].req == t)
    && (forall k :: 0 <= k < |posted| ==>
         posted[k].req in postedAt && postedAt[posted[k].req] == k && posted[k].job.op == consumed[posted[k].req])
  }

  ghost predicate Partitioned(consumed: seq<Sqe>, inflight: map<nat, Job>, posted: seq<Cqe>,
                              postedAt: map<nat, nat>, silenced: set<nat>)
  {
    && (forall t :: t in inflight ==>
         t < |consumed| && inflight[t].op == consumed[t] && t !in postedAt && t !in silenced)
    && (forall t :: t in silenced ==> t < |consumed| && t !in postedAt)
    && PostedTable(consumed, posted, postedAt)
    && Covered(|consumed|, inflight, postedAt, silenced)
    && |consumed| == |inflight| + |posted| + |silenced|
  }

  /** Each consumed request is in flight, posted or silenced, in exactly one of the three. */
  ghost predicate OnePlace(k: Uring) {
    Partitioned(k.consumed, k.inflight, k.posted, k.postedAt, k.silenced)
  }

  /** An entry that points at allocated memory of its own, or one that points at none. */
  ghost predicate Formed(initial: Memory, tokenAt: map<Addr, nat>, t: nat, e: Sqe) {
    if e.ptr.Some? then
      && e.ptr.value in initial && WellBuilt(e, initial[e.ptr.value])
      && e.ptr.value in tokenAt && tokenAt[e.ptr.value] == t
    else Plain(e)
  }

  ghost predicate AllFormed(accepted: seq<Sqe>, initial: Memory, tokenAt: map<Addr, nat>, nextAddr: nat) {
    && (forall t: nat :: t < |accepted| ==> Formed(initial, tokenAt, t, accepted[t]))
    && (forall a :: a in tokenAt ==> a < nextAddr)
    && (forall a :: a in initial ==> a < nextAddr)
  }

  ghost predicate PcFormed(s: State) {
    && (s.pc.Holding? ==>
         s.pc.e.ptr.Some? && s.pc.e.ptr.value in s.h.initial && s.pc.e.ptr.value !in s.h.tokenAt &&
         WellBuilt(s.pc.e, s.h.initial[s.pc.e.ptr.value]))
    && (s.pc.Pushed? ==> |s.h.accepted| > 0 && s.pc.e == s.h.accepted[|s.h.accepted| - 1] && s.pc.e.ptr.Some?)
  }

  ghost predicate WellFormed(s: State) {
    AllFormed(s.h.accepted, s.h.initial, s.h.tokenAt, s.nextAddr) && PcFormed(s)
  }

  /** The memory a running call still holds in a local variable. */
  ghost function Held(s: State): set<Addr> {
    if (s.pc.Holding? || s.pc.Pushed?) && s.pc.e.ptr.Some? then {s.pc.e.ptr.value} else {}
  }

  ghost function OwnedAddrs(owned: map<nat, OwnedData>): set<Addr> {
    set id | id in owned :: owned[id].addr
  }

  ghost predicate Ownership(owned: map<nat, OwnedData>, memKeys: set<Addr>, held: set<Addr>, nextAddr: nat) {
    && memKeys == OwnedAddrs(owned) + held
    && OwnedAddrs(owned) !! held
    && (forall i, j :: i in owned && j in owned && i != j ==> owned[i].addr != owned[j].addr)
    && (forall a :: a in memKeys ==> a < nextAddr)
  }

  /** Every live allocation has exactly one owner: an entry of `owned`, or the running call. */
  ghost predicate OneOwner(s: State) {
    Ownership(s.owned, s.mem.Keys, Held(s), s.nextAddr)
  }

  ghost predicate LabelTable(accepted: seq<Sqe>, tokenAt: map<Addr, nat>, owned: map<nat, OwnedData>) {
    forall id :: id in owned ==>
      var a := owned[id].addr;
      && a in tokenAt && tokenAt[a] < |accepted| && accepted[tokenAt[a]].ptr == Some(a)
      && accepted[tokenAt[a]].id == id && owned[id] == DataFor(accepted[tokenAt[a]])
  }

  /** What is owned under an id is the data of an accepted entry with that id. */
  ghost predicate Labelled(s: State) {
    LabelTable(s.h.accepted, s.h.tokenAt, s.owned)
  }

  /** Live memory never changes its length. */
  ghost predicate Sized(mem: Memory, initial: Memory) {
    forall a :: a in mem ==> a in initial && |mem[a]| == |initial[a]|
  }

  ghost predicate AnyLog(c: Config, s: State) {
    && InOrder(c, s) && OnePlace(s.k) && WellFormed(s) && OneOwner(s)
    && Labelled(s) && Sized(s.mem, s.h.initial)
  }

  ghost predicate IdTable(accepted: seq<Sqe>, tokenOf: map<nat, nat>, allocs: nat) {
    && allocs <= TIMEOUT_ID
    && (forall t :: 0 <= t < |accepted| && accepted[t].kind != Timeout ==>
         accepted[t].id < allocs && accepted[t].id in tokenOf && tokenOf[accepted[t].id] == t)
    && (forall t :: 0 <= t < |accepted| && accepted[t].kind == Timeout ==> accepted[t].id == TIMEOUT_ID)
    && (forall id :: id in tokenOf ==>
         tokenOf[id] < |accepted| && accepted[tokenOf[id]].id == id && accepted[tokenOf[id]].kind != Timeout)
  }

  /** User ids are distinct over all accepted entries and never the one kept for timeouts. */
  ghost predicate DistinctIds(s: State) {
    IdTable(s.h.accepted, s.h.tokenOf, s.h.allocs) && s.counter == s.h.allocs
  }

  /** The completion of the t-th accepted entry has been handed out. */
  predicate Done(s: State, t: nat) {
    DoneIn(s.k.postedAt, |s.h.reaped|, t)
  }

  predicate DoneIn(postedAt: map<nat, nat>, reaped: nat, t: nat) {
    t in postedAt && postedAt[t] < reaped
  }

  /** The t-th accepted entry carries a pointer and has not been handed out. */
  predicate Pending(s: State, t: nat) {
    PendingIn(s.h.accepted, s.k.postedAt, |s.h.reaped|, t)
  }

  predicate PendingIn(accepted: seq<Sqe>, postedAt: map<nat, nat>, reaped: nat, t: nat) {
    t < |accepted| && accepted[t].ptr.Some? && !DoneIn(postedAt, reaped, t)
  }

  function PushedEntry(pc: Pc): Option<Sqe> {
    if pc.Pushed? then Some(pc.e) else None
  }

  /** Its memory is owned under its id, or the call that pushed it still holds it. */
  predicate KeptAlive(owned: map<nat, OwnedData>, pushed: Option<Sqe>, e: Sqe)
    requires e.ptr.Some?
  {
    pushed == Some(e) || (e.id in owned && owned[e.id] == DataFor(e))
  }

  /** No entry is unreaped under the id of another one whose data is pending. */
  ghost predicate UnmixedIds(accepted: seq<Sqe>, postedAt: map<nat, nat>, reaped: nat) {
    forall t: nat, u: nat ::
      PendingIn(accepted, postedAt, reaped, t) && u < |accepted| && u != t && !DoneIn(postedAt, reaped, u) ==>
      accepted[u].id != accepted[t].id
  }

  ghost predicate Unmixed(s: State) {
    UnmixedIds(s.h.accepted, s.k.postedAt, |s.h.reaped|)
  }

  ghost predicate OwnedTable(accepted: seq<Sqe>, tokenAt: map<Addr, nat>, postedAt: map<nat, nat>, reaped: nat,
                             owned: map<nat, OwnedData>, pushed: Option<Sqe>)
  {
    && (forall t: nat :: PendingIn(accepted, postedAt, reaped, t) ==> KeptAlive(owned, pushed, accepted[t]))
    && (forall id :: id in owned ==>
         owned[id].addr in tokenAt && PendingIn(accepted, postedAt, reaped, tokenAt[owned[id].addr]))
    && (pushed.Some? ==>
         pushed.value.id !in owned && |accepted| > 0 && PendingIn(accepted, postedAt, reaped, |accepted| - 1))
  }

  /** `owned` holds the memory of the pending entries and nothing else. */
  ghost predicate OwnedIsPending(s: State) {
    OwnedTable(s.h.accepted, s.h.tokenAt, s.k.postedAt, |s.h.reaped|, s.owned, PushedEntry(s.pc))
  }

  /** What the memory of the t-th accepted entry, e, holds at each stage of its life. */
  ghost predicate Faithful(k: Uring, mem: Memory, initial: Memory, t: nat, e: Sqe)
    requires e.ptr.Some?
  {
    var a := e.ptr.value;
    && a in mem && a in initial
    && |mem[a]| == |initial[a]|
    && (t >= |k.consumed| ==> mem[a] == initial[a])
    && (t in k.inflight ==> k.inflight[t].image == mem[a])
    && (t in k.postedAt && k.postedAt[t] < |k.posted| ==> k.posted[k.postedAt[t]].job.image == mem[a])
    && (!KernelFills(e.kind) ==> mem[a] == initial[a])
  }

  ghost predicate MemoryFaithful(s: State) {
    && !s.k.fault
    && (forall a :: a in Held(s) ==>
         a in s.mem && a in s.h.initial && (s.pc.Holding? ==> s.mem[a] == s.h.initial[a]))
    && (forall t: nat :: Pending(s, t) ==> Faithful(s.k, s.mem, s.h.initial, t, s.h.accepted[t]))
  }

  /** The event for a completion as its submission and the kernel determine it. */
  function EventOf(p: Cqe): CompletionEvent {
    CompletionEvent(p.job.op.id, p.result,
      if HasBuffer(p.job.op.kind) then Some(Trim(p.job.image, p.result)) else None)
  }

  /** A completion's image has the length of the submitted memory, and equals it when the
      kernel had no business writing there. */
  ghost predicate ImageOk(initial: Memory, p: Cqe) {
    var e := p.job.op;
    e.ptr.Some? ==>
      e.ptr.value in initial && |p.job.image| == |initial[e.ptr.value]| &&
      (!KernelFills(e.kind) ==> p.job.image == initial[e.ptr.value])
  }

  /** Each event handed out is the one its completion stands for. */
  ghost predicate EventsPaired(s: State) {
    && |s.h.events| == |s.h.reaped|
    && (forall i :: 0 <= i < |s.h.events| ==> s.h.events[i] == EventOf(s.h.reaped[i]))
    && (forall i :: 0 <= i < |s.k.posted| ==> ImageOk(s.h.initial, s.k.posted[i]))
  }

  /** An earlier entry of its chain skips success. */
  ghost predicate ChainedAfter(entries: seq<Sqe>, t: nat) {
    exists u: nat :: u < t && u < |entries| && SkipsSuccess(entries[u].flags) && LinkedTo(entries, u, t)
  }

  /** A request ends without a completion only if it asked for it, or in the chain of an entry
      that did. */
  ghost predicate SilenceAsked(k: Uring) {
    forall t :: t in k.silenced && t < |k.consumed| ==> SkipsSuccess(k.consumed[t].flags) || ChainedAfter(k.consumed, t)
  }

  ghost predicate Disciplined(c: Config, s: State) {
    AnyLog(c, s) && Unmixed(s) && OwnedIsPending(s) && MemoryFaithful(s) && EventsPaired(s)
  }

  // ---- every log ----------------------------------------------------------------------

  lemma KernelOrdered(c: Config, accepted: seq<Sqe>, gone: seq<Cqe>, k: Uring, mem: Memory, initial: Memory,
                      step: KStep)
    requires Ordered(c, accepted, gone, k) && KEnabled(c, k, step)
    ensures Ordered(c, accepted, gone, KUring(c, k, mem, initial, step))
  {
    match step {
      case Consume => assert k.sq == [k.sq[0]] + k.sq[1..];
      case Flush => assert k.overflow == [k.overflow[0]] + k.overflow[1..];
      case _ =>
    }
  }

  lemma DrainOrder(reaped: seq<Cqe>, entries: seq<Cqe>, cq: seq<Cqe>, overflow: seq<Cqe>, n: nat)
    requires n <= |cq|
    ensures reaped + entries + cq + overflow == reaped + (entries + cq[..n]) + cq[n..] + overflow
  {
    assert cq == cq[..n] + cq[n..];
  }

  lemma ReleaseOrder(reaped: seq<Cqe>, entries: seq<Cqe>)
    requires |entries| > 0
    ensures reaped + [entries[0]] + entries[1..] == reaped + entries
  {
  }

  lemma StepInOrder(c: Config, s: State, a: Action)
    requires InOrder(c, s)
    ensures InOrder(c, Step(c, s, a))
  {
    hide KUring, KMemory, KEnabled, Without, EventFor;
    var s' := Step(c, s, a);
    if Enabled(c, s, a) {
      match a {
        case Push(e) =>
          assert s'.h.accepted == s'.k.consumed + s'.k.sq;
        case Drain(n) => DrainOrder(s.h.reaped, s.pc.entries, s.k.cq, s.k.overflow, n);
        case Release => ReleaseOrder(s.h.reaped, s.pc.entries);
        case Env(step) =>
          KernelOrdered(c, s.h.accepted, s.h.reaped + Entries(s.pc), s.k, s.mem, s.h.initial, step);
        case _ =>
          assert s'.h.reaped + Entries(s'.pc) == s.h.reaped + Entries(s.pc);
      }
    }
  }

  lemma KernelOnePlace(c: Config, k: Uring, mem: Memory, initial: Memory, step: KStep)
    requires OnePlace(k) && KEnabled(c, k, step)
    ensures OnePlace(KUring(c, k, mem, initial, step))
  {
    match step {
      case Consume =>
        ConsumePartitioned(k.consumed, k.inflight, k.posted, k.postedAt, k.silenced, JobFor(k.sq[0], initial));
      case Complete(req, result) =>
        if SkipsSuccess(k.inflight[req].op.flags) && result >= 0 {
          SilencePartitioned(k.consumed, k.inflight, k.posted, k.postedAt, k.silenced, req);
        } else {
          CompletePartitioned(k.consumed, k.inflight, k.posted, k.postedAt, k.silenced, req, result);
        }
      case Cancel(req) =>
        SilencePartitioned(k.consumed, k.inflight, k.posted, k.postedAt, k.silenced, req);
      case Write(req, at, data) =>
        WritePartitioned(k.consumed, k.inflight, k.posted, k.postedAt, k.silenced, req,
                         k.inflight[req].(image := Splice(k.inflight[req].image, at, data)));
      case _ =>
    }
  }

  lemma StepOnePlace(c: Config, s: State, a: Action)
    requires OnePlace(s.k)
    ensures OnePlace(Step(c, s, a).k)
  {
    if a.Env? && Enabled(c, s, a) {
      KernelOnePlace(c, s.k, s.mem, s.h.initial, a.step);
    }
  }

  lemma PostedStays(consumed: seq<Sqe>, posted: seq<Cqe>, postedAt: map<nat, nat>, e: Sqe)
    requires PostedTable(consumed, posted, postedAt)
    ensures PostedTable(consumed + [e], posted, postedAt) && |consumed| !in postedAt
  {
  }

  lemma ConsumeCovers(consumed: nat, inflight: map<nat, Job>, postedAt: map<nat, nat>, silenced: set<nat>, j: Job)
    requires Covered(consumed, inflight, postedAt, silenced)
    ensures Covered(consumed + 1, inflight[consumed := j], postedAt, silenced)
  {
    var inflight' := inflight[consumed := j];
    forall t: nat | t < consumed + 1 ensures Placed(inflight', postedAt, silenced, t) {
      if t < consumed { PlacedStays(inflight, postedAt, silenced, t, consumed, j); }
      else { PlacedNew(inflight', postedAt, silenced, t); }
    }
  }

  lemma OneMore(inflight: map<nat, Job>, t: nat, j: Job)
    requires t !in inflight
    ensures |inflight[t := j]| == |inflight| + 1
  {
    assert inflight[t := j].Keys == inflight.Keys + {t};
    assert |inflight| == |inflight.Keys| && |inflight[t := j]| == |inflight[t := j].Keys|;
  }

  lemma ConsumePartitioned(consumed: seq<Sqe>, inflight: map<nat, Job>, posted: seq<Cqe>,
                           postedAt: map<nat, nat>, silenced: set<nat>, j: Job)
    requires Partitioned(consumed, inflight, posted, postedAt, silenced)
    ensures Partitioned(consumed + [j.op], inflight[|consumed| := j], posted, postedAt, silenced)
  {
    hide PostedTable, Placed;
    PostedStays(consumed, posted, postedAt, j.op);
    assert |consumed| !in inflight;
    OneMore(inflight, |consumed|, j);
    ConsumeCovers(|consumed|, inflight, postedAt, silenced, j);
  }

  lemma PlacedStays(inflight: map<nat, Job>, postedAt: map<nat, nat>, silenced: set<nat>, t: nat,
                     u: nat, j: Job)
    requires Placed(inflight, postedAt, silenced, t)
    ensures Placed(inflight[u := j], postedAt, silenced, t)
  {
  }

  lemma PlacedNew(inflight: map<nat, Job>, postedAt: map<nat, nat>, silenced: set<nat>, t: nat)
    requires t in inflight
    ensures Placed(inflight, postedAt, silenced, t)
  {
  }

  lemma CompletePartitioned(consumed: seq<Sqe>, inflight: map<nat, Job>, posted: seq<Cqe>,
                            postedAt: map<nat, nat>, silenced: set<nat>, req: nat, result: int)
    requires Partitioned(consumed, inflight, posted, postedAt, silenced) && req in inflight
    ensures Partitioned(consumed, inflight - {req}, posted + [Cqe(req, inflight[req], result)],
                        postedAt[req := |posted|], silenced)
  {
    var inflight', postedAt' := inflight - {req}, postedAt[req := |posted|];
    assert inflight'.Keys == inflight.Keys - {req};
    forall t: nat | t < |consumed| ensures Placed(inflight', postedAt', silenced, t) {
      assert Placed(inflight, postedAt, silenced, t);
    }
  }

  lemma SilencePartitioned(consumed: seq<Sqe>, inflight: map<nat, Job>, posted: seq<Cqe>,
                           postedAt: map<nat, nat>, silenced: set<nat>, req: nat)
    requires Partitioned(consumed, inflight, posted, postedAt, silenced) && req in inflight
    ensures Partitioned(consumed, inflight - {req}, posted, postedAt, silenced + {req})
  {
    var inflight', silenced' := inflight - {req}, silenced + {req};
    assert inflight'.Keys == inflight.Keys - {req};
    forall t: nat | t < |consumed| ensures Placed(inflight', postedAt, silenced', t) {
      assert Placed(inflight, postedAt, silenced, t);
    }
  }

  lemma WritePartitioned(consumed: seq<Sqe>, inflight: map<nat, Job>, posted: seq<Cqe>,
                         postedAt: map<nat, nat>, silenced: set<nat>, req: nat, j: Job)
    requires Partitioned(consumed, inflight, posted, postedAt, silenced) && req in inflight && j.op == inflight[req].op
    ensures Partitioned(consumed, inflight[req := j], posted, postedAt, silenced)
  {
    var inflight' := inflight[req := j];
    assert inflight'.Keys == inflight.Keys;
    forall t: nat | t < |consumed| ensures Placed(inflight', postedAt, silenced, t) {
      assert Placed(inflight, postedAt, silenced, t);
    }
  }

  lemma StepWellFormed(c: Config, s: State, a: Action)
    requires WellFormed(s)
    ensures WellFormed(Step(c, s, a))
  {
    if Enabled(c, s, a) {
      match a {
        case Alloc(e, bytes) =>
          var initial' := s.h.initial[e.ptr.value := bytes];
          forall t: nat | t < |s.h.accepted| ensures Formed(initial', s.h.tokenAt, t, s.h.accepted[t]) {
            assert Formed(s.h.initial, s.h.tokenAt, t, s.h.accepted[t]);
          }
        case Push(e) => PushFormed(s.h.accepted, s.h.initial, s.h.tokenAt, s.nextAddr, e);
        case _ =>
      }
    }
  }

  lemma PushFormed(accepted: seq<Sqe>, initial: Memory, tokenAt: map<Addr, nat>, nextAddr: nat, e: Sqe)
    requires AllFormed(accepted, initial, tokenAt, nextAddr)
    requires Plain(e) || (e.ptr.Some? && e.ptr.value in initial && e.ptr.value !in tokenAt &&
                          WellBuilt(e, initial[e.ptr.value]))
    ensures AllFormed(accepted + [e], initial,
                      if e.ptr.Some? then tokenAt[e.ptr.value := |accepted|] else tokenAt, nextAddr)
  {
    var tokenAt' := if e.ptr.Some? then tokenAt[e.ptr.value := |accepted|] else tokenAt;
    forall t: nat | t < |accepted| + 1 ensures Formed(initial, tokenAt', t, (accepted + [e])[t]) {
      if t < |accepted| {
        assert Formed(initial, tokenAt, t, accepted[t]);
      }
    }
  }

  lemma OwnedAddrsInsert(owned: map<nat, OwnedData>, id: nat, d: OwnedData)
    ensures OwnedAddrs(owned[id := d]) == OwnedAddrs(owned - {id}) + {d.addr}
  {
    var o, r := owned[id := d], owned - {id};
    forall a | a in OwnedAddrs(r) + {d.addr} ensures a in OwnedAddrs(o) {
      if a == d.addr {
        assert id in o && o[id].addr == a;
      } else {
        var i :| i in r && r[i].addr == a;
        assert i in o && o[i].addr == a;
      }
    }
    forall a | a in OwnedAddrs(o) && a != d.addr ensures a in OwnedAddrs(r) {
      var i :| i in o && o[i].addr == a;
      assert i in r && r[i].addr == a;
    }
  }

  lemma OwnedAddrsRemove(owned: map<nat, OwnedData>, id: nat)
    requires forall i, j :: i in owned && j in owned && i != j ==> owned[i].addr != owned[j].addr
    ensures OwnedAddrs(owned - {id}) == if id in owned then OwnedAddrs(owned) - {owned[id].addr} else OwnedAddrs(owned)
  {
    var o := owned - {id};
    forall a | a in OwnedAddrs(owned) && !(id in owned && owned[id].addr == a) ensures a in OwnedAddrs(o) {
      var i :| i in owned && owned[i].addr == a;
      assert i in o && o[i].addr == a;
    }
  }

  lemma StepOneOwner(c: Config, s: State, a: Action)
    requires WellFormed(s) && OneOwner(s)
    ensures OneOwner(Step(c, s, a))
  {
    var s' := Step(c, s, a);
    if Enabled(c, s, a) {
      match a {
        case Alloc(e, bytes) =>
          assert s'.mem.Keys == s.mem.Keys + {e.ptr.value};
        case Drop =>
          assert s'.mem.Keys == s.mem.Keys - Held(s);
        case Register =>
          RegisterOwnership(s.owned, s.mem, s.nextAddr, s.pc.e.id, DataFor(s.pc.e));
        case Release =>
          ReleaseOwnership(s.owned, s.mem, s.nextAddr, s.pc.entries[0].job.op.id);
        case Env(step) =>
          assert s'.mem.Keys == s.mem.Keys;
        case _ =>
          assert Held(s') == Held(s);
      }
    }
  }

  lemma RegisterOwnership(owned: map<nat, OwnedData>, mem: Memory, nextAddr: nat, id: nat, d: OwnedData)
    requires Ownership(owned, mem.Keys, {d.addr}, nextAddr)
    ensures Ownership(owned[id := d], Without(owned, mem, id).Keys, {}, nextAddr)
  {
    OwnedAddrsRemove(owned, id);
    OwnedAddrsInsert(owned, id, d);
    assert d.addr in {d.addr};
    assert Without(owned, mem, id).Keys == mem.Keys - (if id in owned then {owned[id].addr} else {});
    forall i | i in owned ensures owned[i].addr != d.addr {
      assert owned[i].addr in OwnedAddrs(owned);
    }
  }

  lemma ReleaseOwnership(owned: map<nat, OwnedData>, mem: Memory, nextAddr: nat, id: nat)
    requires Ownership(owned, mem.Keys, {}, nextAddr)
    ensures Ownership(owned - {id}, Without(owned, mem, id).Keys, {}, nextAddr)
  {
    OwnedAddrsRemove(owned, id);
    assert Without(owned, mem, id).Keys == mem.Keys - (if id in owned then {owned[id].addr} else {});
  }

  lemma PushLabels(accepted: seq<Sqe>, tokenAt: map<Addr, nat>, owned: map<nat, OwnedData>, e: Sqe)
    requires LabelTable(accepted, tokenAt, owned) && (e.ptr.Some? ==> e.ptr.value !in tokenAt)
    ensures LabelTable(accepted + [e], if e.ptr.Some? then tokenAt[e.ptr.value := |accepted|] else tokenAt, owned)
  {
  }

  lemma StepLabelled(c: Config, s: State, a: Action)
    requires WellFormed(s) && Labelled(s)
    ensures Labelled(Step(c, s, a))
  {
    hide KUring, KMemory, KEnabled, EventFor, Without;
    if Enabled(c, s, a) {
      match a {
        case Push(e) => PushLabels(s.h.accepted, s.h.tokenAt, s.owned, e);
        case Register =>
          assert Formed(s.h.initial, s.h.tokenAt, |s.h.accepted| - 1, s.pc.e);
        case _ =>
      }
    }
  }

  lemma KernelSized(k: Uring, mem: Memory, initial: Memory, step: KStep)
    requires Sized(mem, initial)
    ensures Sized(KMemory(k, mem, step), initial)
  {
  }

  lemma StepSized(c: Config, s: State, a: Action)
    requires Sized(s.mem, s.h.initial)
    ensures var s' := Step(c, s, a); Sized(s'.mem, s'.h.initial)
  {
    hide KUring, KMemory, KEnabled, EventFor;
    if a.Env? { KernelSized(s.k, s.mem, s.h.initial, a.step); }
  }

  lemma StepAnyLog(c: Config, s: State, a: Action)
    requires AnyLog(c, s)
    ensures AnyLog(c, Step(c, s, a))
  {
    StepInOrder(c, s, a);
    StepOnePlace(c, s, a);
    StepWellFormed(c, s, a);
    StepOneOwner(c, s, a);
    StepLabelled(c, s, a);
    StepSized(c, s, a);
  }

  lemma InitAnyLog(c: Config)
    ensures AnyLog(c, Init())
  {
  }

  lemma {:induction false} RunAnyLog(c: Config, log: seq<Action>)
    ensures AnyLog(c, Run(c, log))
  {
    hide AnyLog, Run, Issued, Step, Init;
    RunUnfold(c, log);
    if |log| == 0 {
      InitAnyLog(c);
    } else {
      var n := |log| - 1;
      RunAnyLog(c, log[..n]);
      StepAnyLog(c, Run(c, log[..n]), log[n]);
    }
  }

  /** What a kernel step does to the two queues and the two logs. */
  lemma KernelPosts(c: Config, k: Uring, mem: Memory, initial: Memory, step: KStep)
    requires KEnabled(c, k, step)
    ensures var k' := KUring(c, k, mem, initial, step);
      && k.posted <= k'.posted && k.cq <= k'.cq
      && if step.Consume? then k'.sq == k.sq[1..] && k'.consumed == k.consumed + [k.sq[0]]
         else k'.sq == k.sq && k'.consumed == k.consumed
  {
    hide Splice, JobFor, InMemory;
  }

  lemma ChainAppend(entries: seq<Sqe>, more: seq<Sqe>, t: nat)
    requires ChainedAfter(entries, t)
    ensures ChainedAfter(entries + more, t)
  {
    var u: nat :| u < t && u < |entries| && SkipsSuccess(entries[u].flags) && LinkedTo(entries, u, t);
    assert LinkedTo(entries + more, u, t);
  }

  lemma DroppableIsChained(k: Uring, req: nat)
    requires Droppable(k, req)
    ensures ChainedAfter(k.consumed, req)
  {
    var t: nat :| t < req && HeadFailed(k, t) && LinkedTo(k.consumed, t, req);
  }

  lemma KernelSilence(c: Config, k: Uring, mem: Memory, initial: Memory, step: KStep)
    requires OnePlace(k) && SilenceAsked(k) && KEnabled(c, k, step)
    ensures SilenceAsked(KUring(c, k, mem, initial, step))
  {
    hide ChainedAfter, Droppable, Splice, JobFor, InMemory, LinkedTo;
    match step {
      case Consume =>
        var k' := KUring(c, k, mem, initial, step);
        forall t | t in k'.silenced && t < |k'.consumed|
          ensures SkipsSuccess(k'.consumed[t].flags) || ChainedAfter(k'.consumed, t)
        {
          if ChainedAfter(k.consumed, t) { ChainAppend(k.consumed, [k.sq[0]], t); }
        }
      case Cancel(req) => DroppableIsChained(k, req);
      case _ =>
    }
  }

  lemma StepSilenceAsked(c: Config, s: State, a: Action)
    requires OnePlace(s.k) && SilenceAsked(s.k)
    ensures SilenceAsked(Step(c, s, a).k)
  {
    if a.Env? && Enabled(c, s, a) {
      KernelSilence(c, s.k, s.mem, s.h.initial, a.step);
    }
  }
}
