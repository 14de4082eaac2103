/** When an id may be used again: exactly what registering and reaping free, and exactly which
    pushes let the kernel touch memory that was freed. */
module Reuse {
  import opened Types
  import opened Kernel
  import opened Machine
  import opened Invariants
  import opened Discipline
  import opened Sharing
  import opened Futures

  // ---- what one action frees --------------------------------------------------------------

  /** Registering keeps the memory of everything owned if and only if nothing is owned under
      that id yet: `insert` frees what it replaces. */
  lemma RegisterKeepsOthersIff(c: Config, log: seq<Action>)
    requires Enabled(c, Run(c, log), Register)
    ensures var s := Run(c, log);
      (forall id :: id in s.owned ==> s.owned[id].addr in Step(c, s, Register).mem) <==> s.pc.e.id !in s.owned
  {
    RunAnyLog(c, log);
    hide Run;
    var s := Run(c, log);
    if s.pc.e.id !in s.owned {
      forall id | id in s.owned ensures s.owned[id].addr in Step(c, s, Register).mem {
        assert s.owned[id].addr in OwnedAddrs(s.owned);
      }
    }
  }

  /** Data that is still there, and no longer held by a call, is owned under its entry's id. */
  lemma LiveIsOwned(c: Config, s: State, t: nat)
    requires AnyLog(c, s) && Held(s) == {} && HasData(s, t) && s.h.accepted[t].ptr.value in s.mem
    ensures var e := s.h.accepted[t]; e.id in s.owned && s.owned[e.id].addr == e.ptr.value
  {
    hide Ordered, Partitioned, AllFormed, Sized;
    FormedAt(s, t);
    var a := s.h.accepted[t].ptr.value;
    assert a in OwnedAddrs(s.owned);
    var id :| id in s.owned && s.owned[id].addr == a;
  }

  /** No other pending entry has this one's id, counting those whose data is still there. */
  ghost predicate AloneUnder(s: State, r: nat, id: nat) {
    forall t: nat :: Pending(s, t) && t != r && s.h.accepted[t].ptr.value in s.mem ==> s.h.accepted[t].id != id
  }

  /** Reaping a completion frees no other pending entry's data if and only if no other pending
      entry has its id. */
  lemma ReleaseKeepsOthersIff(c: Config, log: seq<Action>)
    requires Enabled(c, Run(c, log), Release)
    ensures var s := Run(c, log); var s' := Step(c, s, Release); var p := s.pc.entries[0];
      (forall t: nat :: Pending(s, t) && t != p.req && s.h.accepted[t].ptr.value in s.mem ==>
         s.h.accepted[t].ptr.value in s'.mem)
      <==> AloneUnder(s, p.req, p.job.op.id)
  {
    RunAnyLog(c, log);
    hide Run, Ordered, Partitioned, AllFormed, Sized, LabelTable, EventFor;
    var s := Run(c, log);
    var s', p := Step(c, s, Release), s.pc.entries[0];
    forall t: nat | Pending(s, t) && t != p.req && s.h.accepted[t].ptr.value in s.mem
      ensures s.h.accepted[t].ptr.value in s'.mem <==> s.h.accepted[t].id != p.job.op.id
    {
      LiveIsOwned(c, s, t);
    }
  }

  // ---- which pushes are safe ----------------------------------------------------------------

  lemma StepAwaited(c: Config, s: State, a: Action, u: nat)
    requires InOrder(c, s) && OnePlace(s.k) && !a.Push? && Awaited(Step(c, s, a), u)
    ensures Awaited(s, u) && Step(c, s, a).h.accepted == s.h.accepted
  {
    hide Ordered, Partitioned, KUring, KMemory, EventFor, Without;
    if a.Env? && Enabled(c, s, a) {
      KernelPostedAt(c, s.k, s.mem, s.h.initial, a.step);
      KernelSilences(c, s.k, s.mem, s.h.initial, a.step);
      if a.step.Complete? { InFlightNotPosted(c, s, a.step.req); }
    }
  }

  /** Only a push makes ids clash. */
  lemma StepNoClash(c: Config, s: State, a: Action)
    requires InOrder(c, s) && OnePlace(s.k) && !a.Push? && !Clash(s)
    ensures !Clash(Step(c, s, a))
  {
    hide Ordered, Partitioned, Clash, Step;
    var s' := Step(c, s, a);
    forall t: nat, u: nat | t != u && AtKernel(s', t) && HasData(s', t) && Awaited(s', u)
      ensures s'.h.accepted[u].id != s'.h.accepted[t].id
    {
      StepAtKernel(c, s, a, t);
      StepAwaited(c, s, a, u);
      assert HasData(s, t);
      NoClashHere(s, t, u);
    }
    NoClashFrom(s');
  }

  lemma NoClashFrom(s: State)
    requires forall t: nat, u: nat :: t != u && AtKernel(s, t) && HasData(s, t) && Awaited(s, u) ==>
               s.h.accepted[u].id != s.h.accepted[t].id
    ensures !Clash(s)
  {
  }

  lemma NeverClashesAppend(c: Config, log: seq<Action>, a: Action)
    ensures NeverClashes(c, log + [a]) <==> NeverClashes(c, log) && !Clash(Run(c, log + [a]))
  {
    assert (log + [a])[..|log + [a]| - 1] == log;
  }

  lemma {:induction false} NeverClashesMore(c: Config, log: seq<Action>, more: seq<Action>)
    requires NeverClashes(c, log) && Settling(more)
    ensures NeverClashes(c, log + more)
  {
    hide Run, Issued, Step, NeverClashes, Clash;
    if |more| == 0 {
      assert log + more == log;
    } else {
      var n := |more| - 1;
      NeverClashesMore(c, log, more[..n]);
      var before := log + more[..n];
      assert log + more == before + [more[n]] && more[n] in more;
      NeverClashesUnfold(c, before);
      RunAppend(c, before, more[n]);
      RunInOrder(c, before);
      StepNoClash(c, Run(c, before), more[n]);
      NeverClashesAppend(c, before, more[n]);
    }
  }

  /** The completion of u is posted, and t, in flight, stays there. */
  lemma PostOne(c: Config, log: seq<Action>, t: nat, u: nat) returns (more: seq<Action>)
    requires var s := Run(c, log);
      OpenAtRest(s) && s.k.sq == [] && t != u && t in s.k.inflight && Awaited(s, u)
    ensures Settling(more)
    ensures var s, s' := Run(c, log), Run(c, log + more);
      && OpenAtRest(s') && t in s'.k.inflight && s'.k.inflight[t] == s.k.inflight[t]
      && s'.h.accepted == s.h.accepted && s'.h.reaped == s.h.reaped && u in s'.k.postedAt && !Done(s', u)
  {
    hide Run, Step;
    var s := Run(c, log);
    if u in s.k.postedAt {
      more := [];
      assert log + more == log;
    } else {
      AllTakenInFlight(c, log, u);
      RunInOrder(c, log);
      InFlightNotPosted(c, s, u);
      FailShape(c, s, u);
      After(c, log, Env(Complete(u, -1)), []);
      more := [Env(Complete(u, -1))];
    }
  }

  lemma PostedUnderId(c: Config, s: State, u: nat)
    requires InOrder(c, s) && OnePlace(s.k) && u in s.k.postedAt
    ensures u < |s.h.accepted| && s.k.postedAt[u] < |s.k.posted|
    ensures s.k.posted[s.k.postedAt[u]].job.op.id == s.h.accepted[u].id
  {
    PostedInRange(s, u);
    RequestIsAccepted(c, s, u);
  }

  lemma PostedInRange(s: State, u: nat)
    requires OnePlace(s.k) && u in s.k.postedAt
    ensures u < |s.k.consumed| && s.k.postedAt[u] < |s.k.posted|
  {
  }

  lemma TouchFaults(c: Config, s: State, t: nat)
    requires AnyLog(c, s) && s.pc.Idle? && HasData(s, t) && s.h.accepted[t].id !in s.owned
    requires t in s.k.inflight && s.k.inflight[t].op == s.h.accepted[t]
    ensures Step(c, s, Env(Touch(t))).k.fault
  {
    if s.h.accepted[t].ptr.value in s.mem {
      LiveIsOwned(c, s, t);
      assert false;
    }
  }

  lemma StillClashes(s: State, s': State, t: nat, u: nat)
    requires OnlyTook(s, s') && AtKernel(s, t) && HasData(s, t) && Awaited(s, u)
    ensures AtKernel(s', t) && HasData(s', t) && Awaited(s', u)
  {
  }

  lemma ReapedId(c: Config, s: State, s': State, u: nat)
    requires InOrder(c, s) && OnePlace(s.k) && u in s.k.postedAt && !Done(s, u) && AllReaped(s, s')
    ensures u < |s.h.accepted| && s.h.accepted[u].id !in s'.owned
  {
    PostedUnderId(c, s, u);
  }

  /** The completion of u is reaped, and frees what t, in flight, points at. */
  lemma FreeInFlight(c: Config, log: seq<Action>, t: nat, u: nat) returns (more: seq<Action>)
    requires OpenAtRest(Run(c, log)) && c.cqSize > 0 && t != u
    requires AtKernel(Run(c, log), t) && HasData(Run(c, log), t) && Awaited(Run(c, log), u)
    ensures Settling(more)
    ensures var s, s' := Run(c, log), Run(c, log + more);
      && s'.pc.Idle? && s'.h.accepted == s.h.accepted && u < |s.h.accepted| && s.h.accepted[u].id !in s'.owned
      && t in s'.k.inflight && s'.k.inflight[t].op == s.h.accepted[t]
  {
    hide Run, Step, AnyLog, InOrder, OnePlace, OnlyTook, AtKernel, Awaited, Done, Settling;
    var taken := TakeAll(c, log);
    var log1 := log + taken;
    TookAccepted(Run(c, log), Run(c, log1));
    StillClashes(Run(c, log), Run(c, log1), t, u);
    AllTakenInFlight(c, log1, t);
    var posted := PostOne(c, log1, t, u);
    var log2 := log1 + posted;
    RunInOrder(c, log2);
    var reaped := ReapAll(c, log2);
    ReapedId(c, Run(c, log2), Run(c, log2 + reaped), u);
    more := taken + posted + reaped;
    assert log + more == log2 + reaped;
    SettlingThen(taken, posted);
    SettlingThen(taken + posted, reaped);
  }

  lemma TookAccepted(s: State, s': State)
    requires OnlyTook(s, s')
    ensures s'.h.accepted == s.h.accepted
  {
  }

  /** If ids clash the kernel can touch memory that was freed: it takes everything, the other
      entry's completion is reaped, and the request goes on. */
  lemma ClashFaults(c: Config, log: seq<Action>)
    requires OpenAtRest(Run(c, log)) && c.cqSize > 0 && Clash(Run(c, log))
    ensures exists more :: Settling(more) && Run(c, log + more).k.fault
  {
    hide Run, Step, AnyLog, Settling;
    var s := Run(c, log);
    var t: nat, u: nat :|
      t != u && AtKernel(s, t) && HasData(s, t) && Awaited(s, u) && s.h.accepted[u].id == s.h.accepted[t].id;
    hide AtKernel, Awaited;
    var freed := FreeInFlight(c, log, t, u);
    RunAnyLog(c, log + freed);
    TouchFaults(c, Run(c, log + freed), t);
    After(c, log + freed, Env(Touch(t)), []);
    var more := freed + [Env(Touch(t))];
    assert log + more == log + freed + [Env(Touch(t))];
    OneSettles(Touch(t));
    SettlingThen(freed, [Env(Touch(t))]);
  }

  lemma NoClashNoFault(c: Config, log: seq<Action>, more: seq<Action>)
    requires NeverClashes(c, log) && Settling(more)
    ensures !Run(c, log + more).k.fault
  {
    NeverClashesMore(c, log, more);
    RunGuarded(c, log + more);
  }

  /** An entry that is still to be reaped has this id, and one of the two is data at risk: the
      new one, or the old one if the kernel still works on it. */
  ghost predicate InUse(s: State, e: Sqe) {
    exists u: nat :: Awaited(s, u) && s.h.accepted[u].id == e.id && (e.ptr.Some? || (HasData(s, u) && AtKernel(s, u)))
  }

  /** For an entry with data, while no request ended without a completion, this is just what a
      caller can see: some accepted, unreaped entry has the id. */
  lemma InUseIsVisible(s: State, e: Sqe)
    requires e.ptr.Some? && s.k.silenced == {}
    ensures InUse(s, e) <==> !IdFree(s, e)
  {
    if !IdFree(s, e) {
      var t: nat :| t < |s.h.accepted| && !Done(s, t) && s.h.accepted[t].id == e.id;
      assert Awaited(s, t);
    }
  }

  /** How the prep functions push e: with a copy of `bytes`, or as it is. */
  function PushScript(e: Sqe, bytes: seq<Byte>): seq<Action> {
    if e.ptr.Some? then [Alloc(e, bytes), Push(e), Register] else [Push(e)]
  }

  predicate CanPush(c: Config, s: State, e: Sqe, bytes: seq<Byte>) {
    && OpenAtRest(s) && |s.k.sq| < c.capacity
    && if e.ptr.Some? then WellBuilt(e, bytes) && e.ptr.value == s.nextAddr else Plain(e)
  }

  /** What the script leaves, as far as clashes go. */
  ghost predicate PushedOnto(s: State, s': State, e: Sqe) {
    && s'.h.accepted == s.h.accepted + [e] && s'.h.reaped == s.h.reaped
    && s'.k.postedAt == s.k.postedAt && s'.k.silenced == s.k.silenced
  }

  lemma PushedOntoClash(c: Config, s: State, s': State, e: Sqe)
    requires InOrder(c, s) && OnePlace(s.k) && !Clash(s) && PushedOnto(s, s', e)
    ensures Clash(s') <==> InUse(s, e)
  {
    NewTokenNotPosted(c, s);
    hide Ordered, Partitioned, Clash;
    var n := |s.h.accepted|;
    if InUse(s, e) {
      var u: nat :| Awaited(s, u) && s.h.accepted[u].id == e.id && (e.ptr.Some? || (HasData(s, u) && AtKernel(s, u)));
      assert Awaited(s', u) && Awaited(s', n) && AtKernel(s', n);
      if e.ptr.Some? { ClashAt(s', n, u); } else { ClashAt(s', u, n); }
    } else {
      forall t: nat, u: nat | t != u && AtKernel(s', t) && HasData(s', t) && Awaited(s', u)
        ensures s'.h.accepted[u].id != s'.h.accepted[t].id
      {
        if t < n && u < n {
          assert AtKernel(s, t) && HasData(s, t) && Awaited(s, u);
          NoClashHere(s, t, u);
        } else if u < n {
          assert Awaited(s, u);
        } else {
          assert AtKernel(s, t) && Awaited(s, t);
        }
      }
      NoClashFrom(s');
    }
  }

  lemma ClashAt(s: State, t: nat, u: nat)
    requires t != u && AtKernel(s, t) && HasData(s, t) && Awaited(s, u) && s.h.accepted[u].id == s.h.accepted[t].id
    ensures Clash(s)
  {
  }

  lemma PlainScript(c: Config, log: seq<Action>, e: Sqe)
    requires CanPush(c, Run(c, log), e, []) && e.ptr.None?
    ensures var s' := Run(c, log + [Push(e)]); OpenAtRest(s') && PushedOnto(Run(c, log), s', e)
  {
    RunAppend(c, log, Push(e));
    hide Run;
  }

  lemma DataScript(c: Config, log: seq<Action>, e: Sqe, bytes: seq<Byte>)
    requires CanPush(c, Run(c, log), e, bytes) && e.ptr.Some?
    ensures var s, l1 := Run(c, log), log + [Alloc(e, bytes)];
      && Run(c, l1).h.accepted == s.h.accepted && Run(c, l1).h.reaped == s.h.reaped && Run(c, l1).k == s.k
      && PushedOnto(s, Run(c, l1 + [Push(e)]), e) && PushedOnto(s, Run(c, l1 + [Push(e)] + [Register]), e)
      && OpenAtRest(Run(c, l1 + [Push(e)] + [Register]))
  {
    var l1 := log + [Alloc(e, bytes)];
    RunAppend(c, log, Alloc(e, bytes));
    RunAppend(c, l1, Push(e));
    RunAppend(c, l1 + [Push(e)], Register);
    hide Run;
  }

  lemma ScriptClash(c: Config, log: seq<Action>, e: Sqe, bytes: seq<Byte>)
    requires NeverClashes(c, log) && CanPush(c, Run(c, log), e, bytes)
    ensures var after := log + PushScript(e, bytes);
      && OpenAtRest(Run(c, after)) && (Clash(Run(c, after)) <==> InUse(Run(c, log), e))
      && (!InUse(Run(c, log), e) ==> NeverClashes(c, after))
  {
    hide Run, Clash, InUse, NeverClashes, PushedOnto;
    var s := Run(c, log);
    RunInOrder(c, log);
    NeverClashesUnfold(c, log);
    if e.ptr.None? {
      PlainScript(c, log, e);
      PushedOntoClash(c, s, Run(c, log + [Push(e)]), e);
      NeverClashesAppend(c, log, Push(e));
    } else {
      DataScript(c, log, e, bytes);
      var l1 := log + [Alloc(e, bytes)];
      var l2 := l1 + [Push(e)];
      SameClash(s, Run(c, l1));
      PushedOntoClash(c, s, Run(c, l2), e);
      PushedOntoClash(c, s, Run(c, l2 + [Register]), e);
      NeverClashesAppend(c, log, Alloc(e, bytes));
      NeverClashesAppend(c, l1, Push(e));
      NeverClashesAppend(c, l2, Register);
      assert log + PushScript(e, bytes) == l2 + [Register];
    }
  }

  lemma SameClash(s: State, s': State)
    requires s'.h.accepted == s.h.accepted && s'.h.reaped == s.h.reaped && s'.k == s.k && !Clash(s)
    ensures !Clash(s')
  {
    forall t: nat, u: nat | t != u && AtKernel(s', t) && HasData(s', t) && Awaited(s', u)
      ensures s'.h.accepted[u].id != s'.h.accepted[t].id
    {
      assert AtKernel(s, t) && HasData(s, t) && Awaited(s, u);
    }
  }

  /** Pushing under an id lets the kernel touch freed memory, if nothing else is prepared, exactly
      when the id is in use. An id that no accepted, unreaped entry has is never in use. */
  lemma ReuseIsUnsafeIff(c: Config, log: seq<Action>, e: Sqe, bytes: seq<Byte>)
    requires NeverClashes(c, log) && CanPush(c, Run(c, log), e, bytes) && c.cqSize > 0
    ensures (exists more :: Settling(more) && Run(c, log + PushScript(e, bytes) + more).k.fault)
      <==> InUse(Run(c, log), e)
    ensures IdFree(Run(c, log), e) ==> !InUse(Run(c, log), e)
  {
    ScriptClash(c, log, e, bytes);
    var after := log + PushScript(e, bytes);
    if InUse(Run(c, log), e) {
      ClashFaults(c, after);
    } else {
      forall more | Settling(more) ensures !Run(c, after + more).k.fault {
        NoClashNoFault(c, after, more);
      }
    }
    hide Run, NeverClashes;
    assert IdFree(Run(c, log), e) ==> forall u: nat :: Awaited(Run(c, log), u) ==> !Done(Run(c, log), u);
  }

  // ---- one such run ---------------------------------------------------------------------

  function ReuseEntry(addr: Addr): Sqe {
    Sqe(Kind.Read, [0, 0], Some(addr), 1, 0, 7)
  }

  /** A read pushed and registered under id 7, whoever chose it. */
  function PushRead(addr: Addr): seq<Action> {
    [Alloc(ReuseEntry(addr), [0]), Push(ReuseEntry(addr)), Register]
  }

  /** Two reads pushed under the same caller-chosen id, then the kernel serves the first. */
  function ReuseLog(): seq<Action> {
    PushRead(0) + PushRead(1) + [BeginEnter, Env(Consume), Env(KStep.Write(0, 0, [1]))]
  }

  lemma FirstRead(c: Config)
    requires c.capacity >= 2
    ensures var s := Run(c, PushRead(0));
      && s.open && s.pc.Idle? && !s.entering && s.nextAddr == 1 && s.owned == map[7 := Buffer(0)]
      && s.k == EmptyUring().(sq := [ReuseEntry(0)]) && s.mem == map[0 := [0]]
  {
    RunThree(c, [], Alloc(ReuseEntry(0), [0]), Push(ReuseEntry(0)), Register);
    assert [] + PushRead(0) == PushRead(0);
    hide Run;
  }

  lemma SecondRead(c: Config)
    requires c.capacity >= 2
    ensures var s := Run(c, PushRead(0) + PushRead(1));
      && s.open && s.pc.Idle? && !s.entering && s.owned == map[7 := Buffer(1)] && 0 !in s.mem
      && s.k == EmptyUring().(sq := [ReuseEntry(0), ReuseEntry(1)])
  {
    FirstRead(c);
    RunThree(c, PushRead(0), Alloc(ReuseEntry(1), [0]), Push(ReuseEntry(1)), Register);
    hide Run, KUring;
  }

  /** The kernel takes the first read and writes through its pointer. */
  lemma ServeFirst(c: Config, s: State)
    requires s.open && !s.entering && s.pc.Idle? && 0 !in s.mem
    requires s.k == EmptyUring().(sq := [ReuseEntry(0), ReuseEntry(1)])
    ensures var s' := Step(c, s, BeginEnter); Step(c, Step(c, s', Env(Consume)), Env(KStep.Write(0, 0, [1]))).k.fault
  {
    var s1 := Step(c, s, BeginEnter);
    assert s1.k == s.k && s1.mem == s.mem && Takes(c, s1);
    var s2 := Step(c, s1, Env(Consume));
    assert s2.mem == s.mem && 0 in s2.k.inflight && s2.k.inflight[0].op == ReuseEntry(0);
    assert KEnabled(c, s2.k, KStep.Write(0, 0, [1]));
  }

  /** The kernel writes through a pointer to memory that was already freed. */
  lemma CallerChosenIdFaults(c: Config)
    requires c.capacity >= 2
    ensures Run(c, ReuseLog()).k.fault && !Careful(c, ReuseLog())
  {
    hide Run, Issued, Careful, Step;
    SecondRead(c);
    RunThree(c, PushRead(0) + PushRead(1), BeginEnter, Env(Consume), Env(KStep.Write(0, 0, [1])));
    ServeFirst(c, Run(c, PushRead(0) + PushRead(1)));
    if Careful(c, ReuseLog()) { NeverFaults(c, ReuseLog()); }
  }

  lemma NeverFaults(c: Config, log: seq<Action>)
    requires Careful(c, log)
    ensures !Run(c, log).k.fault
  {
    RunDisciplined(c, log);
  }
}
