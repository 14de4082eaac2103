/** The layers that need callers to be careful with ids, action by action: whoever pushes an
    entry with data picks an id that no accepted, unreaped entry has, and nobody pushes under the
    id of one. Reuse after reaping is fine. The ids of the wrappers (`Issued`) are careful. */
module Discipline {
  import opened Types
  import opened Kernel
  import opened Machine
  import opened Invariants

  /** What a caller can check before a push: no accepted entry with this id is unreaped, unless
      neither it nor the new entry carries data. */
  ghost predicate IdFree(s: State, e: Sqe) {
    forall t: nat ::
      t < |s.h.accepted| && !Done(s, t) && (e.ptr.Some? || s.h.accepted[t].ptr.Some?) ==> s.h.accepted[t].id != e.id
  }

  /** Every push of the log was preceded by that check. */
  ghost predicate Careful(c: Config, log: seq<Action>) {
    |log| == 0 || (Careful(c, log[..|log| - 1]) && CarefulStep(c, Run(c, log[..|log| - 1]), log[|log| - 1]))
  }

  ghost predicate CarefulStep(c: Config, s: State, a: Action) {
    a.Push? && Enabled(c, s, a) ==> IdFree(s, a.e)
  }

  lemma CarefulAppend(c: Config, log: seq<Action>, a: Action)
    ensures Careful(c, log + [a]) <==> Careful(c, log) && CarefulStep(c, Run(c, log), a)
  {
    assert (log + [a])[..|log + [a]| - 1] == log;
  }

  lemma CarefulUnfold(c: Config, log: seq<Action>)
    ensures |log| == 0 ==> Careful(c, log)
    ensures |log| > 0 ==>
      (Careful(c, log) <==> Careful(c, log[..|log| - 1]) && CarefulStep(c, Run(c, log[..|log| - 1]), log[|log| - 1]))
  {
  }

  lemma {:induction false} CarefulPrefix(c: Config, log: seq<Action>, n: nat)
    requires n <= |log| && Careful(c, log)
    ensures Careful(c, log[..n])
  {
    if n < |log| {
      CarefulPrefix(c, log[..|log| - 1], n);
      assert log[..|log| - 1][..n] == log[..n];
    } else {
      assert log[..n] == log;
    }
  }

  /** Only pushes are bound. */
  lemma {:induction false} CarefulMore(c: Config, log: seq<Action>, more: seq<Action>)
    requires Careful(c, log) && forall i :: 0 <= i < |more| ==> !more[i].Push?
    ensures Careful(c, log + more)
  {
    if |more| == 0 {
      assert log + more == log;
    } else {
      var n := |more| - 1;
      CarefulMore(c, log, more[..n]);
      assert log + more == log + more[..n] + [more[n]];
      CarefulAppend(c, log + more[..n], more[n]);
    }
  }

  /** An entry's position: what the kernel numbered is what was accepted. */
  lemma RequestIsAccepted(c: Config, s: State, t: nat)
    requires InOrder(c, s) && OnePlace(s.k) && t < |s.k.consumed|
    ensures t < |s.h.accepted| && s.k.consumed[t] == s.h.accepted[t]
    ensures t in s.k.inflight ==> s.k.inflight[t].op == s.h.accepted[t] && !Done(s, t)
    ensures t in s.k.postedAt ==> s.k.posted[s.k.postedAt[t]].job.op == s.h.accepted[t]
  {
    assert s.h.accepted[t] == (s.k.consumed + s.k.sq)[t];
  }

  /** The next completion to process is the posted one at position |reaped|. */
  lemma NextToRelease(c: Config, s: State)
    requires InOrder(c, s) && OnePlace(s.k) && Enabled(c, s, Release)
    ensures |s.h.reaped| < |s.k.posted| && s.pc.entries[0] == s.k.posted[|s.h.reaped|]
    ensures var t := s.pc.entries[0].req;
      && t < |s.h.accepted| && s.pc.entries[0].job.op == s.h.accepted[t]
      && t in s.k.postedAt && s.k.postedAt[t] == |s.h.reaped|
  {
    var n := |s.h.reaped|;
    assert s.k.posted[n] == (s.h.reaped + s.pc.entries + s.k.cq + s.k.overflow)[n];
    RequestIsAccepted(c, s, s.k.posted[n].req);
  }

  /** Whether an entry is done is something the caller sees: its completion was handed out. */
  lemma DoneIsReaped(c: Config, s: State, t: nat)
    requires InOrder(c, s) && OnePlace(s.k)
    ensures Done(s, t) <==> exists i :: 0 <= i < |s.h.reaped| && s.h.reaped[i].req == t
  {
    if Done(s, t) {
      assert s.h.reaped[s.k.postedAt[t]] == s.k.posted[s.k.postedAt[t]];
    }
    if i :| 0 <= i < |s.h.reaped| && s.h.reaped[i].req == t {
      assert s.k.posted[i] == s.h.reaped[i];
    }
  }

  /** Pushing an entry under an id that is free. */
  lemma PushTable(accepted: seq<Sqe>, tokenAt: map<Addr, nat>, postedAt: map<nat, nat>, reaped: nat,
                  owned: map<nat, OwnedData>, e: Sqe)
    requires OwnedTable(accepted, tokenAt, postedAt, reaped, owned, None) && LabelTable(accepted, tokenAt, owned)
    requires |accepted| !in postedAt && (e.ptr.Some? ==> e.ptr.value !in tokenAt && e.id !in owned)
    ensures OwnedTable(accepted + [e], if e.ptr.Some? then tokenAt[e.ptr.value := |accepted|] else tokenAt,
                       postedAt, reaped, owned, if e.ptr.Some? then Some(e) else None)
  {
    var accepted' := accepted + [e];
    forall t: nat | PendingIn(accepted', postedAt, reaped, t)
      ensures KeptAlive(owned, if e.ptr.Some? then Some(e) else None, accepted'[t])
    {
      if t < |accepted| { assert PendingIn(accepted, postedAt, reaped, t); }
    }
    forall id | id in owned
      ensures var a := owned[id].addr; a in tokenAt && PendingIn(accepted', postedAt, reaped, tokenAt[a])
    {
      assert PendingIn(accepted, postedAt, reaped, tokenAt[owned[id].addr]);
    }
  }

  /** Registering the entry that was just pushed, under an id nothing is owned under. */
  lemma RegisterTable(accepted: seq<Sqe>, tokenAt: map<Addr, nat>, postedAt: map<nat, nat>, reaped: nat,
                      owned: map<nat, OwnedData>, e: Sqe)
    requires OwnedTable(accepted, tokenAt, postedAt, reaped, owned, Some(e))
    requires e == accepted[|accepted| - 1] && e.ptr.Some? && DataFor(e).addr == e.ptr.value
    requires e.ptr.value in tokenAt && tokenAt[e.ptr.value] == |accepted| - 1
    ensures OwnedTable(accepted, tokenAt, postedAt, reaped, owned[e.id := DataFor(e)], None)
  {
    var owned' := owned[e.id := DataFor(e)];
    forall t: nat | PendingIn(accepted, postedAt, reaped, t) ensures KeptAlive(owned', None, accepted[t]) {
      assert KeptAlive(owned, Some(e), accepted[t]);
    }
  }

  /** Releasing the completion of the r-th entry removes that entry's data and no other's. */
  lemma ReleaseTable(accepted: seq<Sqe>, tokenAt: map<Addr, nat>, postedAt: map<nat, nat>, reaped: nat,
                     owned: map<nat, OwnedData>, r: nat)
    requires UnmixedIds(accepted, postedAt, reaped) && LabelTable(accepted, tokenAt, owned)
    requires OwnedTable(accepted, tokenAt, postedAt, reaped, owned, None)
    requires r < |accepted| && r in postedAt && postedAt[r] == reaped
    requires forall t :: t in postedAt && postedAt[t] == reaped ==> t == r
    ensures OwnedTable(accepted, tokenAt, postedAt, reaped + 1, owned - {accepted[r].id}, None)
  {
    var owned' := owned - {accepted[r].id};
    assert !DoneIn(postedAt, reaped, r);
    forall t: nat | PendingIn(accepted, postedAt, reaped + 1, t) ensures KeptAlive(owned', None, accepted[t]) {
      assert PendingIn(accepted, postedAt, reaped, t) && t != r;
      assert KeptAlive(owned, None, accepted[t]);
    }
    forall id | id in owned'
      ensures var a := owned'[id].addr; a in tokenAt && PendingIn(accepted, postedAt, reaped + 1, tokenAt[a])
    {
      assert PendingIn(accepted, postedAt, reaped, tokenAt[owned[id].addr]);
    }
  }

  lemma NoPointerOnTimeout(s: State)
    requires WellFormed(s)
    ensures forall t: nat :: t < |s.h.accepted| && s.h.accepted[t].ptr.Some? ==> s.h.accepted[t].kind != Timeout
  {
    forall t: nat | t < |s.h.accepted| && s.h.accepted[t].ptr.Some? ensures s.h.accepted[t].kind != Timeout {
      assert Formed(s.h.initial, s.h.tokenAt, t, s.h.accepted[t]);
    }
  }

  lemma PostTable(accepted: seq<Sqe>, tokenAt: map<Addr, nat>, postedAt: map<nat, nat>, reaped: nat,
                  owned: map<nat, OwnedData>, pushed: Option<Sqe>, req: nat, at: nat)
    requires OwnedTable(accepted, tokenAt, postedAt, reaped, owned, pushed) && req !in postedAt && reaped <= at
    ensures OwnedTable(accepted, tokenAt, postedAt[req := at], reaped, owned, pushed)
  {
    var postedAt' := postedAt[req := at];
    forall t: nat ensures PendingIn(accepted, postedAt', reaped, t) <==> PendingIn(accepted, postedAt, reaped, t) { }
  }

  lemma KernelPostedAt(c: Config, k: Uring, mem: Memory, initial: Memory, step: KStep)
    requires KEnabled(c, k, step)
    ensures var at := KUring(c, k, mem, initial, step).postedAt;
      at == k.postedAt || (step.Complete? && at == k.postedAt[step.req := |k.posted|])
  {
    hide Splice, JobFor, InMemory;
  }

  lemma InFlightNotPosted(c: Config, s: State, req: nat)
    requires InOrder(c, s) && OnePlace(s.k) && req in s.k.inflight
    ensures req !in s.k.postedAt && |s.h.reaped| <= |s.k.posted|
  {
  }

  lemma KernelOwned(c: Config, s: State, step: KStep)
    requires InOrder(c, s) && OnePlace(s.k) && OwnedIsPending(s) && Enabled(c, s, Env(step))
    ensures OwnedIsPending(Step(c, s, Env(step)))
  {
    hide Ordered, Partitioned, OwnedTable, KUring;
    KernelPostedAt(c, s.k, s.mem, s.h.initial, step);
    if step.Complete? {
      InFlightNotPosted(c, s, step.req);
      PostTable(s.h.accepted, s.h.tokenAt, s.k.postedAt, |s.h.reaped|, s.owned, PushedEntry(s.pc),
                step.req, |s.k.posted|);
    }
  }

  lemma FreeIdOwnsNothing(s: State, e: Sqe)
    requires Labelled(s) && OwnedIsPending(s) && IdFree(s, e) && e.ptr.Some?
    ensures e.id !in s.owned
  {
    if e.id in s.owned {
      OwnedIsWaitedFor(s, e.id);
      assert false;
    }
  }

  /** Whatever is owned is the data of a pending entry with that id. */
  lemma OwnedIsWaitedFor(s: State, id: nat)
    requires Labelled(s) && OwnedIsPending(s) && id in s.owned
    ensures s.owned[id].addr in s.h.tokenAt
    ensures var t := s.h.tokenAt[s.owned[id].addr];
      Pending(s, t) && s.h.accepted[t].id == id && s.owned[id] == DataFor(s.h.accepted[t])
  {
    assert PendingIn(s.h.accepted, s.k.postedAt, |s.h.reaped|, s.h.tokenAt[s.owned[id].addr]);
  }

  lemma NewTokenNotPosted(c: Config, s: State)
    requires InOrder(c, s) && OnePlace(s.k)
    ensures |s.h.accepted| !in s.k.postedAt && |s.h.accepted| !in s.k.silenced
  {
  }

  lemma PushOwned(c: Config, s: State, e: Sqe)
    requires AnyLog(c, s) && OwnedIsPending(s) && Enabled(c, s, Push(e)) && IdFree(s, e)
    ensures OwnedIsPending(Step(c, s, Push(e)))
  {
    hide Ordered, Partitioned, Ownership, OwnedTable, LabelTable, IdFree, Sized;
    NewTokenNotPosted(c, s);
    if e.ptr.Some? { FreeIdOwnsNothing(s, e); }
    PushTable(s.h.accepted, s.h.tokenAt, s.k.postedAt, |s.h.reaped|, s.owned, e);
  }

  lemma DataAddr(e: Sqe)
    requires e.ptr.Some?
    ensures DataFor(e).addr == e.ptr.value
  {
  }

  lemma RegisterOwned(c: Config, s: State)
    requires AnyLog(c, s) && OwnedIsPending(s) && Enabled(c, s, Register)
    ensures OwnedIsPending(Step(c, s, Register))
  {
    hide Ordered, Partitioned, Ownership, AllFormed, OwnedTable, LabelTable, Sized;
    FormedAt(s, |s.h.accepted| - 1);
    DataAddr(s.pc.e);
    RegisterTable(s.h.accepted, s.h.tokenAt, s.k.postedAt, |s.h.reaped|, s.owned, s.pc.e);
  }

  lemma ReleaseOwned(c: Config, s: State)
    requires AnyLog(c, s) && Unmixed(s) && OwnedIsPending(s) && Enabled(c, s, Release)
    ensures OwnedIsPending(Step(c, s, Release))
  {
    hide Ordered, Ownership, AllFormed, OwnedTable, UnmixedIds, LabelTable, Sized;
    NextToRelease(c, s);
    ReleaseTable(s.h.accepted, s.h.tokenAt, s.k.postedAt, |s.h.reaped|, s.owned, s.pc.entries[0].req);
  }

  lemma StepOwnedIsPending(c: Config, s: State, a: Action)
    requires AnyLog(c, s) && Unmixed(s) && OwnedIsPending(s) && CarefulStep(c, s, a)
    ensures OwnedIsPending(Step(c, s, a))
  {
    hide Ordered, Partitioned, Ownership, AllFormed, OwnedTable, UnmixedIds, LabelTable, IdFree, Sized;
    if Enabled(c, s, a) {
      match a {
        case Push(e) => PushOwned(c, s, e);
        case Register => RegisterOwned(c, s);
        case Release => ReleaseOwned(c, s);
        case Env(step) => KernelOwned(c, s, step);
        case _ =>
      }
    }
  }

  lemma UnreapedOnly(accepted: seq<Sqe>, postedAt: map<nat, nat>, reaped: nat,
                     postedAt': map<nat, nat>, reaped': nat)
    requires UnmixedIds(accepted, postedAt, reaped)
    requires forall t: nat :: DoneIn(postedAt, reaped, t) ==> DoneIn(postedAt', reaped', t)
    ensures UnmixedIds(accepted, postedAt', reaped')
  {
    forall t: nat, u: nat | PendingIn(accepted, postedAt', reaped', t) && u < |accepted| && u != t &&
                            !DoneIn(postedAt', reaped', u)
      ensures accepted[u].id != accepted[t].id
    {
      assert PendingIn(accepted, postedAt, reaped, t);
    }
  }

  lemma PushUnmixed(s: State, e: Sqe)
    requires Unmixed(s) && IdFree(s, e)
    ensures UnmixedIds(s.h.accepted + [e], s.k.postedAt, |s.h.reaped|)
  {
    var accepted', n := s.h.accepted + [e], |s.h.accepted|;
    forall t: nat, u: nat | PendingIn(accepted', s.k.postedAt, |s.h.reaped|, t) && u < |accepted'| && u != t &&
                            !DoneIn(s.k.postedAt, |s.h.reaped|, u)
      ensures accepted'[u].id != accepted'[t].id
    {
      if t < n && u < n { assert PendingIn(s.h.accepted, s.k.postedAt, |s.h.reaped|, t); }
      else if t < n { assert !Done(s, t); }
      else { assert !Done(s, u); }
    }
  }

  lemma StepUnmixed(c: Config, s: State, a: Action)
    requires InOrder(c, s) && OnePlace(s.k) && Unmixed(s) && CarefulStep(c, s, a)
    ensures Unmixed(Step(c, s, a))
  {
    hide UnmixedIds, Ordered, Partitioned, IdFree, KUring;
    if Enabled(c, s, a) {
      match a {
        case Push(e) => PushUnmixed(s, e);
        case Release =>
          UnreapedOnly(s.h.accepted, s.k.postedAt, |s.h.reaped|, s.k.postedAt, |s.h.reaped| + 1);
        case Env(step) =>
          KernelPostedAt(c, s.k, s.mem, s.h.initial, step);
          if step.Complete? { InFlightNotPosted(c, s, step.req); }
          UnreapedOnly(s.h.accepted, s.k.postedAt, |s.h.reaped|, Step(c, s, a).k.postedAt, |s.h.reaped|);
        case _ =>
      }
    }
  }

  /** The pointer of a pending entry is to live memory. */
  lemma PendingIsLive(c: Config, s: State, t: nat)
    requires AnyLog(c, s) && OwnedIsPending(s) && Pending(s, t)
    ensures s.h.accepted[t].ptr.value in s.mem
    ensures Formed(s.h.initial, s.h.tokenAt, t, s.h.accepted[t])
  {
    hide Ordered, Partitioned, AllFormed, Ownership;
    assert KeptAlive(s.owned, PushedEntry(s.pc), s.h.accepted[t]);
    KeptIsLive(s, s.h.accepted[t]);
    FormedAt(s, t);
  }

  lemma KeptIsLive(s: State, e: Sqe)
    requires OneOwner(s) && e.ptr.Some? && KeptAlive(s.owned, PushedEntry(s.pc), e)
    ensures e.ptr.value in s.mem
  {
    if s.pc == Pushed(e) {
      assert e.ptr.value in Held(s);
    } else {
      assert s.owned[e.id].addr in OwnedAddrs(s.owned);
    }
  }

  /** A pending entry's data is owned under its id once no call holds it. */
  lemma PendingIsOwned(s: State, t: nat)
    requires OwnedIsPending(s) && Pending(s, t) && !s.pc.Pushed?
    ensures s.h.accepted[t].id in s.owned && s.owned[s.h.accepted[t].id] == DataFor(s.h.accepted[t])
  {
    assert KeptAlive(s.owned, PushedEntry(s.pc), s.h.accepted[t]);
  }

  /** Two pending entries never share memory. */
  lemma DistinctPointers(s: State, t: nat, u: nat)
    requires WellFormed(s) && t < |s.h.accepted| && u < |s.h.accepted| && t != u
    requires s.h.accepted[t].ptr.Some? && s.h.accepted[u].ptr.Some?
    ensures s.h.accepted[t].ptr.value != s.h.accepted[u].ptr.value
  {
    assert Formed(s.h.initial, s.h.tokenAt, t, s.h.accepted[t]);
    assert Formed(s.h.initial, s.h.tokenAt, u, s.h.accepted[u]);
  }

  /** Every request in flight that has a pointer is pending, so its memory is as the kernel left it. */
  lemma InFlightIsPending(c: Config, s: State, req: nat)
    requires AnyLog(c, s) && OwnedIsPending(s) && MemoryFaithful(s)
    requires req in s.k.inflight && s.k.inflight[req].op.ptr.Some?
    ensures req < |s.h.accepted| && s.k.inflight[req].op == s.h.accepted[req] && Pending(s, req)
    ensures Faithful(s.k, s.mem, s.h.initial, req, s.h.accepted[req])
    ensures InMemory(s.mem, s.k.inflight[req].op.ptr.value, s.k.inflight[req].op.extent)
    ensures s.k.inflight[req].image == s.mem[s.k.inflight[req].op.ptr.value]
  {
    RequestIsAccepted(c, s, req);
    assert Pending(s, req);
    PendingIsLive(c, s, req);
  }

  lemma WriteFaithful(k: Uring, k': Uring, mem: Memory, initial: Memory, t: nat, e: Sqe, req: nat, at: nat,
                      data: seq<Byte>)
    requires e.ptr.Some? && Faithful(k, mem, initial, t, e) && req in k.inflight && k.inflight[req].op.ptr.Some?
    requires k'.inflight == k.inflight[req := k.inflight[req].(image := Splice(k.inflight[req].image, at, data))]
    requires k'.consumed == k.consumed && k'.posted == k.posted && k'.postedAt == k.postedAt
    requires req !in k.postedAt && req < |k.consumed|
    requires InMemory(mem, k.inflight[req].op.ptr.value, at + |data|)
    requires if t == req then k.inflight[req].op == e && KernelFills(e.kind)
             else k.inflight[req].op.ptr.value != e.ptr.value
    ensures Faithful(k', KMemory(k, mem, KStep.Write(req, at, data)), initial, t, e)
  {
  }

  lemma CompleteFaithful(c: Config, k: Uring, mem: Memory, initial: Memory, t: nat, e: Sqe, req: nat, result: int)
    requires e.ptr.Some? && Faithful(k, mem, initial, t, e) && req in k.inflight && req < |k.consumed|
    requires t in k.postedAt ==> k.postedAt[t] < |k.posted|
    ensures Faithful(Post(c, k, Cqe(req, k.inflight[req], result)), mem, initial, t, e)
    ensures Faithful(Silence(k, req), mem, initial, t, e)
  {
  }

  /** Memory that pending entries point at is untouched, so it stays faithful. */
  lemma SameFaithful(k: Uring, k': Uring, mem: Memory, mem': Memory, initial: Memory, initial': Memory, t: nat, e: Sqe)
    requires e.ptr.Some? && Faithful(k, mem, initial, t, e)
    requires k'.consumed == k.consumed && k'.inflight == k.inflight
    requires k'.posted == k.posted && k'.postedAt == k.postedAt
    requires e.ptr.value in mem' && mem'[e.ptr.value] == mem[e.ptr.value]
    requires e.ptr.value in initial' && initial'[e.ptr.value] == initial[e.ptr.value]
    ensures Faithful(k', mem', initial', t, e)
  {
  }

  lemma ConsumeFaithful(c: Config, k: Uring, mem: Memory, initial: Memory, t: nat, e: Sqe)
    requires e.ptr.Some? && Faithful(k, mem, initial, t, e) && |k.sq| > 0
    requires t == |k.consumed| ==> k.sq[0] == e
    ensures Faithful(KUring(c, k, mem, initial, Consume), mem, initial, t, e)
  {
  }

  /** What a kernel step may assume about the t-th entry, e. */
  ghost predicate StepFits(k: Uring, mem: Memory, step: KStep, t: nat, e: Sqe)
    requires e.ptr.Some?
  {
    && (step.Consume? && t == |k.consumed| ==> |k.sq| > 0 && k.sq[0] == e)
    && (step.Write? && step.req in k.inflight && k.inflight[step.req].op.ptr.Some? ==>
         && step.req !in k.postedAt && step.req < |k.consumed|
         && InMemory(mem, k.inflight[step.req].op.ptr.value, step.at + |step.data|)
         && if t == step.req then k.inflight[step.req].op == e
            else k.inflight[step.req].op.ptr.value != e.ptr.value)
    && (step.Complete? || step.Cancel? ==> step.req < |k.consumed| && (t in k.postedAt ==> k.postedAt[t] < |k.posted|))
  }

  lemma StepFitsPending(c: Config, s: State, step: KStep, t: nat)
    requires AnyLog(c, s) && OwnedIsPending(s) && MemoryFaithful(s) && Enabled(c, s, Env(step)) && Pending(s, t)
    ensures StepFits(s.k, s.mem, step, t, s.h.accepted[t])
  {
    match step {
      case Consume => assert s.h.accepted == s.k.consumed + s.k.sq;
      case Write(req, at, data) =>
        InFlightIsPending(c, s, req);
        if t != req { DistinctPointers(s, t, req); }
      case _ =>
    }
  }

  /** A kernel step keeps the memory of the t-th entry faithful. */
  lemma KernelFaithful(c: Config, k: Uring, mem: Memory, initial: Memory, step: KStep, t: nat, e: Sqe)
    requires KEnabled(c, k, step) && e.ptr.Some? && StepFits(k, mem, step, t, e) && Faithful(k, mem, initial, t, e)
    ensures Faithful(KUring(c, k, mem, initial, step), KMemory(k, mem, step), initial, t, e)
  {
    var k' := KUring(c, k, mem, initial, step);
    match step {
      case Consume => ConsumeFaithful(c, k, mem, initial, t, e);
      case Write(req, at, data) => WriteFaithful(k, k', mem, initial, t, e, req, at, data);
      case Complete(req, result) => CompleteFaithful(c, k, mem, initial, t, e, req, result);
      case Cancel(req) => CompleteFaithful(c, k, mem, initial, t, e, req, 0);
      case _ => SameFaithful(k, k', mem, mem, initial, initial, t, e);
    }
  }

  lemma KernelNoFault(c: Config, s: State, step: KStep)
    requires AnyLog(c, s) && OwnedIsPending(s) && MemoryFaithful(s) && Enabled(c, s, Env(step))
    ensures !KUring(c, s.k, s.mem, s.h.initial, step).fault
  {
    if step.Write? || step.Touch? { InFlightIsPending(c, s, step.req); }
  }

  /** The kernel writes to no memory that a running call still holds unpushed. */
  lemma KernelHeld(c: Config, s: State, step: KStep, a: Addr)
    requires AnyLog(c, s) && OwnedIsPending(s) && MemoryFaithful(s) && Enabled(c, s, Env(step)) && a in Held(s)
    ensures a in KMemory(s.k, s.mem, step) && (s.pc.Holding? ==> KMemory(s.k, s.mem, step)[a] == s.h.initial[a])
  {
    hide Ordered, Partitioned, OwnedTable, AllFormed, Ownership;
    if step.Write? && s.pc.Holding? {
      InFlightIsPending(c, s, step.req);
      PendingIsLive(c, s, step.req);
    }
  }

  lemma KernelPending(c: Config, s: State, step: KStep, t: nat)
    requires InOrder(c, s) && OnePlace(s.k) && Enabled(c, s, Env(step)) && Pending(Step(c, s, Env(step)), t)
    ensures Pending(s, t)
  {
    hide Ordered, Partitioned, KUring;
    KernelPostedAt(c, s.k, s.mem, s.h.initial, step);
    if step.Complete? { InFlightNotPosted(c, s, step.req); }
  }

  lemma KernelMemory(c: Config, s: State, step: KStep)
    requires AnyLog(c, s) && OwnedIsPending(s) && MemoryFaithful(s) && Enabled(c, s, Env(step))
    ensures MemoryFaithful(Step(c, s, Env(step)))
  {
    hide Ordered, Partitioned, OwnedTable, AllFormed, Ownership;
    var s' := Step(c, s, Env(step));
    KernelNoFault(c, s, step);
    forall t: nat | Pending(s', t) ensures Faithful(s'.k, s'.mem, s'.h.initial, t, s'.h.accepted[t]) {
      KernelPending(c, s, step, t);
      StepFitsPending(c, s, step, t);
      KernelFaithful(c, s.k, s.mem, s.h.initial, step, t, s.h.accepted[t]);
    }
    forall a | a in Held(s')
      ensures a in s'.mem && a in s'.h.initial && (s'.pc.Holding? ==> s'.mem[a] == s'.h.initial[a])
    {
      assert a in Held(s);
      KernelHeld(c, s, step, a);
    }
  }

  /** The memory at p, if it is a pointer at all, is there before and after, unchanged. */
  ghost predicate Untouched(s: State, s': State, p: Option<Addr>) {
    p.Some? ==>
      var x := p.value;
      && x in s.mem && x in s'.mem && s'.mem[x] == s.mem[x]
      && x in s.h.initial && x in s'.h.initial && s'.h.initial[x] == s.h.initial[x]
  }

  lemma FreshAddress(s: State)
    requires WellFormed(s) && OneOwner(s)
    ensures s.nextAddr !in s.mem && s.nextAddr !in s.h.initial
  {
  }

  lemma PushedNotOwned(s: State)
    requires OwnedIsPending(s) && s.pc.Pushed?
    ensures s.pc.e.id !in s.owned
  {
  }

  lemma ReleasedIdDiffers(c: Config, s: State, t: nat)
    requires Enabled(c, s, Release) && Pending(s, t) && s.pc.entries[0].req != t
    requires AnyLog(c, s) && Unmixed(s)
    ensures s.h.accepted[t].id != s.pc.entries[0].job.op.id
  {
    hide Ordered, Partitioned, AllFormed, Ownership, LabelTable, Sized;
    NextToRelease(c, s);
    assert !Done(s, s.pc.entries[0].req);
  }

  lemma OwnersDiffer(s: State, i: nat, j: nat)
    requires OneOwner(s) && i in s.owned && j in s.owned && i != j
    ensures s.owned[i].addr != s.owned[j].addr
  {
  }

  /** Releasing a completion frees no other pending entry's memory. */
  lemma ReleaseKeeps(c: Config, s: State, t: nat)
    requires Enabled(c, s, Release) && Pending(s, t) && s.pc.entries[0].req != t
    requires AnyLog(c, s) && Unmixed(s) && OwnedIsPending(s)
    ensures Untouched(s, Step(c, s, Release), s.h.accepted[t].ptr)
  {
    hide Ordered, Partitioned, OwnedTable, AllFormed, Ownership;
    PendingIsLive(c, s, t);
    PendingIsOwned(s, t);
    ReleasedIdDiffers(c, s, t);
    var id := s.pc.entries[0].job.op.id;
    if id in s.owned { OwnersDiffer(s, id, s.h.accepted[t].id); }
  }

  /** The ring's own actions leave a pending entry's memory alone. */
  lemma RingKeeps(c: Config, s: State, a: Action, t: nat)
    requires Enabled(c, s, a) && !a.Env? && Pending(s, t) && Pending(Step(c, s, a), t)
    requires AnyLog(c, s) && Unmixed(s) && OwnedIsPending(s)
    ensures Untouched(s, Step(c, s, a), s.h.accepted[t].ptr)
  {
    hide Ordered, Partitioned, OwnedTable, AllFormed, Ownership;
    PendingIsLive(c, s, t);
    FreshAddress(s);
    match a {
      case Release =>
        NextToRelease(c, s);
        ReleaseKeeps(c, s, t);
      case Register => PushedNotOwned(s);
      case _ =>
    }
  }

  lemma PushMemory(c: Config, s: State, e: Sqe)
    requires AnyLog(c, s) && MemoryFaithful(s) && Enabled(c, s, Push(e)) && e.ptr.Some?
    ensures var s' := Step(c, s, Push(e)); Faithful(s'.k, s'.mem, s'.h.initial, |s.h.accepted|, e)
  {
    assert e.ptr.value in Held(s);
  }

  lemma RingHeld(c: Config, s: State, a: Action)
    requires MemoryFaithful(s) && Enabled(c, s, a) && !a.Env?
    ensures var s' := Step(c, s, a); forall x :: x in Held(s') ==>
      x in s'.mem && x in s'.h.initial && (s'.pc.Holding? ==> s'.mem[x] == s'.h.initial[x])
  {
    hide Faithful, Pending, EventFor, KEnabled;
    var s' := Step(c, s, a);
    forall x | x in Held(s')
      ensures x in s'.mem && x in s'.h.initial && (s'.pc.Holding? ==> s'.mem[x] == s'.h.initial[x])
    {
      assert a.Alloc? || x in Held(s);
    }
  }

  /** The ring's own actions add nothing to what is pending but what they push. */
  lemma RingAccepts(c: Config, s: State, a: Action, t: nat)
    requires Enabled(c, s, a) && !a.Env? && Pending(Step(c, s, a), t)
    ensures t < |s.h.accepted| ==> Pending(s, t) && Step(c, s, a).h.accepted[t] == s.h.accepted[t]
    ensures t >= |s.h.accepted| ==>
      a.Push? && a.e.ptr.Some? && t == |s.h.accepted| && Step(c, s, a).h.accepted[t] == a.e
  {
    hide EventFor, Without, WellBuilt, Plain;
  }

  /** And they leave the kernel's view of requests alone. */
  lemma RingSameKernel(c: Config, s: State, a: Action)
    requires Enabled(c, s, a) && !a.Env?
    ensures var k' := Step(c, s, a).k;
      && k'.consumed == s.k.consumed && k'.inflight == s.k.inflight
      && k'.posted == s.k.posted && k'.postedAt == s.k.postedAt
  {
    hide EventFor, Without, WellBuilt, Plain, PushHistory;
  }

  lemma RingPending(c: Config, s: State, a: Action, t: nat)
    requires AnyLog(c, s) && Unmixed(s) && OwnedIsPending(s) && MemoryFaithful(s)
    requires Enabled(c, s, a) && !a.Env? && Pending(Step(c, s, a), t)
    ensures var s' := Step(c, s, a); Faithful(s'.k, s'.mem, s'.h.initial, t, s'.h.accepted[t])
  {
    hide AnyLog, Unmixed, OwnedIsPending, Step, Faithful, Untouched;
    var s' := Step(c, s, a);
    RingAccepts(c, s, a, t);
    if t < |s.h.accepted| {
      RingSameKernel(c, s, a);
      RingKeeps(c, s, a, t);
      KeptFaithful(s, s', t);
    } else {
      PushMemory(c, s, a.e);
    }
  }

  lemma KeptFaithful(s: State, s': State, t: nat)
    requires t < |s.h.accepted| && s.h.accepted[t].ptr.Some?
    requires Faithful(s.k, s.mem, s.h.initial, t, s.h.accepted[t]) && Untouched(s, s', s.h.accepted[t].ptr)
    requires s'.k.consumed == s.k.consumed && s'.k.inflight == s.k.inflight
    requires s'.k.posted == s.k.posted && s'.k.postedAt == s.k.postedAt
    ensures Faithful(s'.k, s'.mem, s'.h.initial, t, s.h.accepted[t])
  {
    SameFaithful(s.k, s'.k, s.mem, s'.mem, s.h.initial, s'.h.initial, t, s.h.accepted[t]);
  }

  lemma RingMemory(c: Config, s: State, a: Action)
    requires AnyLog(c, s) && Unmixed(s) && OwnedIsPending(s) && MemoryFaithful(s)
    requires Enabled(c, s, a) && !a.Env?
    ensures MemoryFaithful(Step(c, s, a))
  {
    hide AnyLog, Unmixed, OwnedIsPending, Faithful, DoneIn, Apply;
    var s' := Step(c, s, a);
    forall t: nat | Pending(s', t) ensures Faithful(s'.k, s'.mem, s'.h.initial, t, s'.h.accepted[t]) {
      RingPending(c, s, a, t);
    }
    RingNoFault(c, s, a);
  }

  lemma RingNoFault(c: Config, s: State, a: Action)
    requires MemoryFaithful(s) && Enabled(c, s, a) && !a.Env?
    ensures var s' := Step(c, s, a); !s'.k.fault && forall x :: x in Held(s') ==>
      x in s'.mem && x in s'.h.initial && (s'.pc.Holding? ==> s'.mem[x] == s'.h.initial[x])
  {
    RingHeld(c, s, a);
  }

  lemma StepMemoryFaithful(c: Config, s: State, a: Action)
    requires AnyLog(c, s) && Unmixed(s) && OwnedIsPending(s) && MemoryFaithful(s)
    ensures MemoryFaithful(Step(c, s, a))
  {
    hide Ordered, Partitioned, OwnedTable, AllFormed, Ownership, MemoryFaithful;
    if Enabled(c, s, a) {
      if a.Env? { KernelMemory(c, s, a.step); } else { RingMemory(c, s, a); }
    }
  }

  /** Nothing is owned under the id of an unreaped entry that carries no pointer. */
  lemma PlainOwnsNothing(s: State, t: nat)
    requires Labelled(s) && Unmixed(s) && OwnedIsPending(s) && t < |s.h.accepted|
    requires s.h.accepted[t].ptr.None? && !Done(s, t)
    ensures s.h.accepted[t].id !in s.owned
  {
    hide LabelTable, OwnedTable;
    if s.h.accepted[t].id in s.owned {
      OwnedIsWaitedFor(s, s.h.accepted[t].id);
      assert false;
    }
  }

  lemma FormedAt(s: State, t: nat)
    requires WellFormed(s) && t < |s.h.accepted|
    ensures Formed(s.h.initial, s.h.tokenAt, t, s.h.accepted[t])
  {
  }

  /** What the ring hands out for the next completion is what that completion stands for. */
  lemma ReleaseEvent(c: Config, s: State)
    requires AnyLog(c, s) && Unmixed(s) && OwnedIsPending(s) && MemoryFaithful(s) && Enabled(c, s, Release)
    ensures var p := s.pc.entries[0]; EventFor(s.owned, s.mem, p.job.op.id, p.result) == EventOf(p)
  {
    hide Ordered, Partitioned, OwnedTable, Ownership, AllFormed;
    NextToRelease(c, s);
    var p := s.pc.entries[0];
    var e := s.h.accepted[p.req];
    if e.ptr.Some? {
      assert Pending(s, p.req);
      PendingIsOwned(s, p.req);
      PendingIsLive(c, s, p.req);
      assert Faithful(s.k, s.mem, s.h.initial, p.req, e);
    } else {
      PlainOwnsNothing(s, p.req);
      FormedAt(s, p.req);
    }
  }

  lemma KernelImages(c: Config, s: State, step: KStep)
    requires AnyLog(c, s) && OwnedIsPending(s) && MemoryFaithful(s) && EventsPaired(s) && Enabled(c, s, Env(step))
    ensures EventsPaired(Step(c, s, Env(step)))
  {
    hide Ordered, Partitioned, OwnedTable, AllFormed, Ownership;
    var s' := Step(c, s, Env(step));
    if s'.k.posted != s.k.posted {
      var p := s'.k.posted[|s.k.posted|];
      assert step.Complete? && s'.k.posted == s.k.posted + [p];
      if p.job.op.ptr.Some? { InFlightIsPending(c, s, step.req); }
      assert ImageOk(s.h.initial, p);
    }
  }

  lemma AllocImages(s: State, s': State)
    requires EventsPaired(s)
    requires s'.h.events == s.h.events && s'.h.reaped == s.h.reaped && s'.k.posted == s.k.posted
    requires forall a :: a in s.h.initial ==> a in s'.h.initial && s'.h.initial[a] == s.h.initial[a]
    ensures EventsPaired(s')
  {
    forall i | 0 <= i < |s'.k.posted| ensures ImageOk(s'.h.initial, s'.k.posted[i]) {
      assert ImageOk(s.h.initial, s.k.posted[i]);
    }
  }

  lemma ReleaseImages(c: Config, s: State)
    requires AnyLog(c, s) && Unmixed(s) && OwnedIsPending(s) && MemoryFaithful(s) && EventsPaired(s)
    requires Enabled(c, s, Release)
    ensures EventsPaired(Step(c, s, Release))
  {
    ReleaseEvent(c, s);
    hide AnyLog, Unmixed, OwnedIsPending, MemoryFaithful, EventFor, EventOf, ImageOk;
  }

  lemma StepEventsPaired(c: Config, s: State, a: Action)
    requires AnyLog(c, s) && Unmixed(s) && OwnedIsPending(s) && MemoryFaithful(s) && EventsPaired(s)
    ensures EventsPaired(Step(c, s, a))
  {
    hide EventsPaired, Unmixed, OwnedIsPending, MemoryFaithful, InOrder, OnePlace, OneOwner, AllFormed;
    if Enabled(c, s, a) {
      match a {
        case Release => ReleaseImages(c, s);
        case Env(step) => KernelImages(c, s, step);
        case Alloc(e, bytes) =>
          FreshAddress(s);
          AllocImages(s, Step(c, s, a));
        case _ => AllocImages(s, Step(c, s, a));
      }
    }
  }

  lemma StepDisciplined(c: Config, s: State, a: Action)
    requires Disciplined(c, s) && CarefulStep(c, s, a)
    ensures Disciplined(c, Step(c, s, a))
  {
    hide Ordered, Partitioned, OwnedTable, UnmixedIds, AllFormed, Ownership, LabelTable, Sized, MemoryFaithful;
    StepAnyLog(c, s, a);
    StepUnmixed(c, s, a);
    StepOwnedIsPending(c, s, a);
    StepMemoryFaithful(c, s, a);
    StepEventsPaired(c, s, a);
  }

  lemma InitDisciplined(c: Config)
    ensures Disciplined(c, Init())
  {
    hide AnyLog;
    InitAnyLog(c);
  }

  /** Every layer holds in every state of every careful log. */
  lemma {:induction false} RunDisciplined(c: Config, log: seq<Action>)
    requires Careful(c, log)
    ensures Disciplined(c, Run(c, log))
  {
    hide Disciplined, Run, Issued, Careful, CarefulStep, Step, Init;
    RunUnfold(c, log);
    CarefulUnfold(c, log);
    if |log| == 0 {
      InitDisciplined(c);
    } else {
      var n := |log| - 1;
      RunDisciplined(c, log[..n]);
      StepDisciplined(c, Run(c, log[..n]), log[n]);
    }
  }

  // ---- the ids of the wrappers ------------------------------------------------------------

  lemma IdsDiffer(accepted: seq<Sqe>, tokenOf: map<nat, nat>, allocs: nat, t: nat, r: nat)
    requires IdTable(accepted, tokenOf, allocs) && t < |accepted| && r < |accepted| && t != r
    requires accepted[t].kind != Timeout
    ensures accepted[t].id != accepted[r].id
  {
  }

  lemma IdsDifferOrSame(s: State, t: nat, u: nat)
    requires DistinctIds(s) && t < |s.h.accepted| && u < |s.h.accepted| && s.h.accepted[t].kind != Timeout
    requires s.h.accepted[t].id == s.h.accepted[u].id
    ensures t == u
  {
    if t != u { IdsDiffer(s.h.accepted, s.h.tokenOf, s.h.allocs, t, u); }
  }

  lemma StepDistinctIds(c: Config, s: State, a: Action)
    requires WellFormed(s) && DistinctIds(s) && IdStep(s, a)
    ensures DistinctIds(Step(c, s, a))
  {
    hide KUring, KMemory, EventFor, Formed;
  }

  lemma InitDistinctIds()
    ensures DistinctIds(Init())
  {
  }

  lemma IssuedStepIsCareful(c: Config, s: State, a: Action)
    requires WellFormed(s) && DistinctIds(s) && IdStep(s, a)
    ensures CarefulStep(c, s, a)
  {
    NoPointerOnTimeout(s);
  }

  lemma RunWellFormed(c: Config, log: seq<Action>)
    ensures WellFormed(Run(c, log))
  {
    RunAnyLog(c, log);
  }

  /** The wrappers' ids are distinct, and careful. */
  lemma {:induction false} IssuedIsCareful(c: Config, log: seq<Action>)
    requires Issued(c, log)
    ensures DistinctIds(Run(c, log)) && Careful(c, log)
  {
    hide Run, Issued, Careful, CarefulStep, DistinctIds, IdStep, Step, Init, WellFormed;
    RunUnfold(c, log);
    CarefulUnfold(c, log);
    if |log| == 0 {
      InitDistinctIds();
    } else {
      var n := |log| - 1;
      IssuedIsCareful(c, log[..n]);
      RunWellFormed(c, log[..n]);
      StepDistinctIds(c, Run(c, log[..n]), log[n]);
      IssuedStepIsCareful(c, Run(c, log[..n]), log[n]);
    }
  }
}
