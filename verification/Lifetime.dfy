/** How long memory lives: what is owned when everything has settled, and after the ring was
    closed. */
module Lifetime {
  import opened Types
  import opened Kernel
  import opened Machine
  import opened Invariants
  import opened Discipline
  import opened Sharing
  import opened Futures
  import opened Reuse

  // ---- no leak ------------------------------------------------------------------------------

  predicate Quiescent(s: State) {
    |s.k.sq| == 0 && |s.k.inflight| == 0 && |s.k.cq| == 0 && |s.k.overflow| == 0 && s.pc.Idle?
  }

  lemma {:induction false} RunSilenceAsked(c: Config, log: seq<Action>)
    ensures SilenceAsked(Run(c, log).k)
  {
    if |log| > 0 {
      RunSilenceAsked(c, log[..|log| - 1]);
      RunAnyLog(c, log[..|log| - 1]);
      StepSilenceAsked(c, Run(c, log[..|log| - 1]), log[|log| - 1]);
    }
  }

  lemma QuiescentPlaces(c: Config, s: State, t: nat)
    requires AnyLog(c, s) && Quiescent(s) && t < |s.h.accepted|
    ensures Done(s, t) || t in s.k.silenced
    ensures t in s.k.silenced ==> !Done(s, t)
  {
    assert Placed(s.k.inflight, s.k.postedAt, s.k.silenced, t);
    assert s.k.posted == s.h.reaped;
  }

  /** The ids of the entries with data that ended without a completion. */
  ghost function SilencedIds(s: State): set<nat> {
    set t: nat | t in s.k.silenced && HasData(s, t) :: s.h.accepted[t].id
  }

  /** No entry with data comes after one that skips success in its chain. */
  ghost predicate NoDataChained(s: State) {
    forall t: nat :: HasData(s, t) ==> !ChainedAfter(s.h.accepted, t)
  }

  /** Once everything submitted has completed and been reaped, what is still owned is exactly
      the data of the requests the kernel dropped without a completion. If no entry with data
      follows one that skips success in its chain there are none: every entry with a pointer has
      had its one completion handed out, and all memory is back. */
  lemma NoLeakAtQuiescence(c: Config, log: seq<Action>)
    requires Careful(c, log) && Quiescent(Run(c, log))
    ensures var s := Run(c, log);
      && s.owned.Keys == SilencedIds(s)
      && (forall t: nat :: HasData(s, t) ==> (Done(s, t) <==> t !in s.k.silenced))
      && (NoDataChained(s) ==> s.owned == map[] && s.mem == map[])
  {
    hide Run, Disciplined;
    RunDisciplined(c, log);
    RunSilenceAsked(c, log);
    var s := Run(c, log);
    forall t: nat | HasData(s, t)
      ensures Done(s, t) <==> t !in s.k.silenced
      ensures t in s.k.silenced ==> s.h.accepted[t].id in s.owned
    {
      QuiescentEntry(c, s, t);
    }
    forall id | id in s.owned ensures id in SilencedIds(s) && !NoDataChained(s) {
      QuiescentOwned(c, s, id);
    }
    if NoDataChained(s) { NothingOwned(c, s); }
  }

  lemma NothingOwned(c: Config, s: State)
    requires Disciplined(c, s) && s.pc.Idle? && forall id :: id !in s.owned
    ensures s.owned == map[] && s.mem == map[]
  {
    assert s.mem.Keys == {};
  }

  /** On every log: a request with a pointer ends without a completion only in the chain of an
      earlier entry that skips success, because its own entry never does. */
  lemma PointersPostUnlessChained(c: Config, log: seq<Action>, t: nat)
    requires t in Run(c, log).k.silenced
    ensures var s := Run(c, log);
      t < |s.h.accepted| && (HasData(s, t) ==> !SkipsSuccess(s.h.accepted[t].flags) && ChainedAfter(s.h.accepted, t))
  {
    hide Run, ChainedAfter;
    RunAnyLog(c, log);
    RunSilenceAsked(c, log);
    var s := Run(c, log);
    SilencedChained(c, s, t);
  }

  lemma SilencedChained(c: Config, s: State, t: nat)
    requires AnyLog(c, s) && SilenceAsked(s.k) && t in s.k.silenced
    ensures t < |s.h.accepted|
    ensures HasData(s, t) ==> !SkipsSuccess(s.h.accepted[t].flags) && ChainedAfter(s.h.accepted, t)
  {
    hide Partitioned, AllFormed, Ownership, LabelTable, ChainedAfter;
    SilencedInRange(s, t);
    RequestIsAccepted(c, s, t);
    FormedAt(s, t);
    if ChainedAfter(s.k.consumed, t) { ChainAppend(s.k.consumed, s.k.sq, t); }
  }

  lemma SilencedInRange(s: State, t: nat)
    requires OnePlace(s.k) && t in s.k.silenced
    ensures t < |s.k.consumed|
  {
  }

  /** A close with IO_LINK and SKIP_SUCCESS, which no prep function refuses. */
  function LinkedClose(): Sqe {
    Sqe(Kind.Close, [5], None, 0, 68, 0)
  }

  function ChainedRead(): Sqe {
    Sqe(Kind.Read, [5, 0], Some(0), 1, 0, 1)
  }

  function ChainLog(): seq<Action> {
    CloseQueued() + [Alloc(ChainedRead(), [0]), Push(ChainedRead()), Register]
  }

  function ChainTaken(): seq<Action> {
    [BeginEnter, Env(Consume), Env(Consume), EndEnter]
  }

  /** The close fails, and the kernel drops the read linked to it without a completion. */
  function ChainEnded(): seq<Action> {
    [Env(Complete(0, -9)), Env(KStep.Cancel(1)), BeginReap, Drain(1)]
  }

  function ChainBreaks(): seq<Action> {
    ChainTaken() + ChainEnded() + [Release, EndReap]
  }

  /** Between two calls, with the read's buffer owned. */
  predicate ReadOwned(s: State) {
    s.open && !s.entering && s.owned == map[1 := Buffer(0)]
  }

  function CloseQueued(): seq<Action> {
    [NextId, NextId, Push(LinkedClose())]
  }

  lemma ChainCloseQueued(c: Config)
    requires c.capacity >= 2
    ensures var s := Run(c, CloseQueued());
      && Issued(c, CloseQueued()) && s.open && s.pc.Idle? && !s.entering && s.nextAddr == 0 && s.owned == map[]
      && s.k == EmptyUring().(sq := [LinkedClose()]) && s.h.allocs == 2 && 1 !in s.h.tokenOf
  {
    RunThree(c, [], NextId, NextId, Push(LinkedClose()));
    assert [] + CloseQueued() == CloseQueued();
    RunUnfold(c, []);
    hide Run;
  }

  lemma ChainQueued(c: Config)
    requires c.capacity >= 2
    ensures var s := Run(c, ChainLog());
      && Issued(c, ChainLog()) && ReadOwned(s) && s.pc.Idle?
      && s.k == EmptyUring().(sq := [LinkedClose(), ChainedRead()])
  {
    ChainCloseQueued(c);
    RunThree(c, CloseQueued(), Alloc(ChainedRead(), [0]), Push(ChainedRead()), Register);
    hide Run, Issued;
  }

  lemma ChainIsTaken(c: Config, log: seq<Action>)
    requires var s := Run(c, log);
      ReadOwned(s) && s.pc.Idle? && s.k == EmptyUring().(sq := [LinkedClose(), ChainedRead()])
    ensures var s := Run(c, log + ChainTaken());
      && ReadOwned(s) && s.pc.Idle?
      && s.k.consumed == [LinkedClose(), ChainedRead()] && s.k.postedAt == map[] && s.k.posted == []
      && s.k.inflight.Keys == {0, 1} && s.k.inflight[0].op == LinkedClose()
      && s.k.sq == [] && s.k.cq == [] && s.k.overflow == []
  {
    hide Run;
    RunTwo(c, log, BeginEnter, Env(Consume));
    RunTwo(c, log + [BeginEnter, Env(Consume)], Env(Consume), EndEnter);
    assert log + [BeginEnter, Env(Consume)] + [Env(Consume), EndEnter] == log + ChainTaken();
    hide JobFor;
  }

  lemma ChainIsDropped(c: Config, s: State)
    requires s.k.inflight.Keys == {0, 1} && s.k.inflight[0].op == LinkedClose()
    requires s.k.consumed == [LinkedClose(), ChainedRead()]
    requires s.k.postedAt == map[] && s.k.posted == [] && s.k.cq == [] && s.k.overflow == [] && c.cqSize > 0
    ensures var s' := Step(c, Step(c, s, Env(Complete(0, -9))), Env(KStep.Cancel(1)));
      && s'.open == s.open && s'.entering == s.entering && s'.owned == s.owned && s'.pc == s.pc
      && s'.k.inflight == map[] && s'.k.sq == s.k.sq && s'.k.overflow == []
      && |s'.k.cq| == 1 && s'.k.cq[0].job.op == LinkedClose()
  {
    var s1 := Step(c, s, Env(Complete(0, -9)));
    assert HeadFailed(s1.k, 0) && LinkedTo(s1.k.consumed, 0, 1);
    hide HeadFailed, LinkedTo;
    var s2 := Step(c, s1, Env(KStep.Cancel(1)));
    assert s2.k.inflight.Keys == {};
  }

  lemma ChainIsEnded(c: Config, log: seq<Action>)
    requires var s := Run(c, log);
      && ReadOwned(s) && s.pc.Idle? && s.k.consumed == [LinkedClose(), ChainedRead()]
      && s.k.postedAt == map[] && s.k.posted == []
      && s.k.inflight.Keys == {0, 1} && s.k.inflight[0].op == LinkedClose()
      && s.k.sq == [] && s.k.cq == [] && s.k.overflow == [] && c.cqSize > 0
    ensures var s := Run(c, log + ChainEnded());
      && ReadOwned(s) && s.k.inflight == map[] && s.k.sq == [] && s.k.cq == [] && s.k.overflow == []
      && s.pc.Reaping? && |s.pc.entries| == 1 && s.pc.entries[0].job.op == LinkedClose()
  {
    hide Run, KUring, KEnabled, LinkedClose, ChainedRead;
    RunTwo(c, log, Env(Complete(0, -9)), Env(KStep.Cancel(1)));
    ChainIsDropped(c, Run(c, log));
    RunTwo(c, log + [Env(Complete(0, -9)), Env(KStep.Cancel(1))], BeginReap, Drain(1));
    assert log + [Env(Complete(0, -9)), Env(KStep.Cancel(1))] + [BeginReap, Drain(1)] == log + ChainEnded();
  }

  lemma ChainIsReaped(c: Config, log: seq<Action>)
    requires var s := Run(c, log);
      && ReadOwned(s) && s.k.inflight == map[] && s.k.sq == [] && s.k.cq == [] && s.k.overflow == []
      && s.pc.Reaping? && |s.pc.entries| == 1 && s.pc.entries[0].job.op == LinkedClose()
    ensures var s := Run(c, log + [Release, EndReap]); Quiescent(s) && s.owned == map[1 := Buffer(0)]
  {
    hide Run;
    RunTwo(c, log, Release, EndReap);
  }

  /** A concrete run: quiescent, and a buffer is still owned. */
  lemma LinkedChainCanLeak(c: Config)
    requires c.capacity >= 2 && c.cqSize > 0
    ensures var log := ChainLog() + ChainBreaks();
      Issued(c, log) && Quiescent(Run(c, log)) && Run(c, log).owned == map[1 := Buffer(0)]
  {
    hide Run, Issued, Quiescent, ReadOwned;
    ChainQueued(c);
    ChainIsTaken(c, ChainLog());
    ChainIsEnded(c, ChainLog() + ChainTaken());
    ChainIsReaped(c, ChainLog() + ChainTaken() + ChainEnded());
    assert ChainLog() + ChainTaken() + ChainEnded() + [Release, EndReap] == ChainLog() + ChainBreaks();
    IssuedMore(c, ChainLog(), ChainBreaks());
  }

  /** What belongs to a request that ended without a completion is never given back. */
  lemma SilencedIsKept(c: Config, log: seq<Action>, t: nat)
    requires Careful(c, log) && t in Run(c, log).k.silenced && HasData(Run(c, log), t) && !Run(c, log).pc.Pushed?
    ensures var s := Run(c, log); var e := s.h.accepted[t];
      e.id in s.owned && s.owned[e.id] == DataFor(e) && e.ptr.value in s.mem
  {
    RunDisciplined(c, log);
    var s := Run(c, log);
    SilencedPending(c, s, t);
    PendingIsOwned(s, t);
    PendingIsLive(c, s, t);
  }

  lemma SilencedPending(c: Config, s: State, t: nat)
    requires InOrder(c, s) && OnePlace(s.k) && t in s.k.silenced && t < |s.h.accepted| && s.h.accepted[t].ptr.Some?
    ensures Pending(s, t)
  {
  }

  lemma QuiescentEntry(c: Config, s: State, t: nat)
    requires Disciplined(c, s) && Quiescent(s) && HasData(s, t)
    ensures Done(s, t) <==> t !in s.k.silenced
    ensures t in s.k.silenced ==> s.h.accepted[t].id in s.owned
  {
    hide Ordered, Partitioned, Ownership, AllFormed, OwnedTable, LabelTable, Sized, UnmixedIds;
    QuiescentPlaces(c, s, t);
    if !Done(s, t) { PendingIsOwned(s, t); }
  }

  lemma QuiescentOwned(c: Config, s: State, id: nat)
    requires Disciplined(c, s) && SilenceAsked(s.k) && Quiescent(s) && id in s.owned
    ensures id in SilencedIds(s) && !NoDataChained(s)
  {
    hide Ordered, Partitioned, Ownership, AllFormed, OwnedTable, LabelTable, Sized, UnmixedIds, ChainedAfter;
    OwnedIsWaitedFor(s, id);
    var t := s.h.tokenAt[s.owned[id].addr];
    QuiescentPlaces(c, s, t);
    SilencedChained(c, s, t);
    assert t in s.k.silenced && HasData(s, t) && s.h.accepted[t].id == id;
  }

  // ---- when a leak can happen ---------------------------------------------------------------

  /** An earlier entry of its chain skips success, and can still fail or has failed. */
  ghost predicate CanBeDropped(s: State, t: nat) {
    exists u: nat ::
      u < t && t < |s.h.accepted| && SkipsSuccess(s.h.accepted[u].flags) && LinkedTo(s.h.accepted, u, t) &&
      (AtKernel(s, u) || HeadFailed(s.k, u))
  }

  /** Everything has settled, the t-th entry got no completion, and its data is still owned. */
  ghost predicate Leaked(s: State, t: nat) {
    && Quiescent(s) && t in s.k.silenced && HasData(s, t)
    && s.h.accepted[t].id in s.owned && s.owned[s.h.accepted[t].id] == DataFor(s.h.accepted[t])
  }

  lemma StepHeadFailed(c: Config, s: State, a: Action, u: nat)
    requires InOrder(c, s) && OnePlace(s.k) && HeadFailed(Step(c, s, a).k, u)
    ensures HeadFailed(s.k, u) || AtKernel(s, u)
  {
    if a.Env? && Enabled(c, s, a) {
      if u in s.k.postedAt { PostedInRange(s, u); KernelPosts(c, s.k, s.mem, s.h.initial, a.step); }
      KernelPostedAt(c, s.k, s.mem, s.h.initial, a.step);
      if a.step.Complete? { InFlightAtKernel(c, s, a.step.req); }
    }
    hide Ordered, Partitioned;
  }

  lemma StepCanBeDropped(c: Config, s: State, a: Action, t: nat)
    requires InOrder(c, s) && OnePlace(s.k) && !a.Push? && CanBeDropped(Step(c, s, a), t)
    ensures CanBeDropped(s, t)
  {
    hide Step, Ordered, Partitioned, HeadFailed;
    var s' := Step(c, s, a);
    SettlingStep(c, s, a);
    var u: nat :| u < t && t < |s'.h.accepted| && SkipsSuccess(s'.h.accepted[u].flags) &&
                  LinkedTo(s'.h.accepted, u, t) && (AtKernel(s', u) || HeadFailed(s'.k, u));
    if AtKernel(s', u) { StepAtKernel(c, s, a, u); } else { StepHeadFailed(c, s, a, u); }
  }

  lemma KernelNewlySilenced(c: Config, k: Uring, mem: Memory, initial: Memory, step: KStep, t: nat)
    requires KEnabled(c, k, step) && t !in k.silenced && t in KUring(c, k, mem, initial, step).silenced
    ensures t in k.inflight && (SkipsSuccess(k.inflight[t].op.flags) || Droppable(k, t))
  {
    hide Droppable, JobFor, Splice, InMemory, SkipsSuccess;
  }

  lemma StepNewlySilenced(c: Config, s: State, a: Action, t: nat)
    requires t !in s.k.silenced && t in Step(c, s, a).k.silenced
    ensures t in s.k.inflight && (SkipsSuccess(s.k.inflight[t].op.flags) || Droppable(s.k, t))
  {
    hide Droppable, EventFor, Without, KUring, KMemory, KEnabled, SkipsSuccess, WellBuilt, Plain, PushHistory;
    if a.Env? { KernelNewlySilenced(c, s.k, s.mem, s.h.initial, a.step, t); }
  }

  /** Only a request that can be dropped is. */
  lemma StepSilences(c: Config, s: State, a: Action, t: nat)
    requires AnyLog(c, s) && HasData(s, t) && t !in s.k.silenced && t in Step(c, s, a).k.silenced
    ensures CanBeDropped(s, t)
  {
    hide Step, Ordered, Partitioned, AllFormed, Ownership, LabelTable, Sized;
    FormedAt(s, t);
    StepNewlySilenced(c, s, a, t);
    InFlightAtKernel(c, s, t);
    var u: nat :| u < t && HeadFailed(s.k, u) && LinkedTo(s.k.consumed, u, t);
    TakenLinks(c, s, u, t);
  }

  lemma TakenLinks(c: Config, s: State, u: nat, t: nat)
    requires InOrder(c, s) && LinkedTo(s.k.consumed, u, t)
    ensures t <= |s.h.accepted| && LinkedTo(s.h.accepted, u, t) && s.h.accepted[u] == s.k.consumed[u]
  {
    forall i | u <= i < t ensures s.h.accepted[i] == s.k.consumed[i] {
      assert (s.k.consumed + s.k.sq)[i] == s.k.consumed[i];
    }
  }

  lemma SettlingStep(c: Config, s: State, a: Action)
    requires !a.Push?
    ensures Step(c, s, a).h.accepted == s.h.accepted
  {
  }

  /** What cannot be dropped never will be, unless something else is prepared. */
  lemma {:induction false} NeverDropped(c: Config, log: seq<Action>, more: seq<Action>, t: nat)
    requires Settling(more) && HasData(Run(c, log), t)
    requires !CanBeDropped(Run(c, log), t) && t !in Run(c, log).k.silenced
    ensures var s' := Run(c, log + more); HasData(s', t) && !CanBeDropped(s', t) && t !in s'.k.silenced
  {
    hide Run, Step, CanBeDropped, AnyLog, Settling;
    if |more| == 0 {
      assert log + more == log;
    } else {
      var n := |more| - 1;
      SettlingLast(more);
      NeverDropped(c, log, more[..n], t);
      var s := Run(c, log + more[..n]);
      assert log + more == log + more[..n] + [more[n]];
      RunAppend(c, log + more[..n], more[n]);
      RunAnyLog(c, log + more[..n]);
      RunInOrder(c, log + more[..n]);
      SettlingStep(c, s, more[n]);
      if CanBeDropped(Step(c, s, more[n]), t) { StepCanBeDropped(c, s, more[n], t); }
      if t in Step(c, s, more[n]).k.silenced { StepSilences(c, s, more[n], t); }
    }
  }

  lemma SettlingLast(more: seq<Action>)
    requires Settling(more) && |more| > 0
    ensures Settling(more[..|more| - 1]) && !more[|more| - 1].Push?
  {
    assert more[|more| - 1] in more;
  }

  lemma CancelShape(c: Config, s: State, t: nat)
    requires t in s.k.inflight && Droppable(s.k, t)
    ensures var s' := Step(c, s, Env(KStep.Cancel(t)));
      && s'.open == s.open && s'.pc == s.pc && s'.entering == s.entering && s'.h == s.h
      && s'.k.sq == s.k.sq && s'.k.silenced == s.k.silenced + {t}
  {
  }

  /** The head of the chain fails, if it has not already. */
  lemma FailHead(c: Config, log: seq<Action>, u: nat, t: nat) returns (more: seq<Action>)
    requires var s := Run(c, log);
      && OpenAtRest(s) && s.k.sq == [] && u < t && t in s.k.inflight && AtKernel(s, t)
      && SkipsSuccess(s.h.accepted[u].flags) && LinkedTo(s.h.accepted, u, t)
      && (AtKernel(s, u) || HeadFailed(s.k, u))
    ensures Settling(more)
    ensures var s, s' := Run(c, log), Run(c, log + more);
      OpenAtRest(s') && s'.k.sq == [] && t in s'.k.inflight && Droppable(s'.k, t) && s'.h == s.h
  {
    hide Run, Step;
    var s := Run(c, log);
    AllTakenInFlight(c, log, t);
    if HeadFailed(s.k, u) {
      more := [];
      assert log + more == log;
    } else {
      AllTakenInFlight(c, log, u);
      FailShape(c, s, u);
      After(c, log, Env(Complete(u, -1)), []);
      more := [Env(Complete(u, -1))];
      assert HeadFailed(Run(c, log + more).k, u);
    }
  }

  lemma TookCanDrop(s: State, s': State, u: nat)
    requires OnlyTook(s, s') && (AtKernel(s, u) || HeadFailed(s.k, u)) && s'.k.consumed == s'.h.accepted
    requires u < |s.h.accepted| && SkipsSuccess(s.h.accepted[u].flags)
    ensures AtKernel(s', u) || HeadFailed(s'.k, u)
  {
  }

  /** The head of t's chain fails, the kernel drops t, and everything else settles. */
  lemma DropAndSettle(c: Config, log: seq<Action>, t: nat) returns (more: seq<Action>)
    requires OpenAtRest(Run(c, log)) && c.cqSize > 0 && AtKernel(Run(c, log), t) && CanBeDropped(Run(c, log), t)
    ensures Settling(more)
    ensures var s, s' := Run(c, log), Run(c, log + more);
      Quiescent(s') && t in s'.k.silenced && s'.h.accepted == s.h.accepted
  {
    hide Run, Step, Settling;
    var s := Run(c, log);
    var u: nat :| u < t && t < |s.h.accepted| && SkipsSuccess(s.h.accepted[u].flags) &&
                  LinkedTo(s.h.accepted, u, t) && (AtKernel(s, u) || HeadFailed(s.k, u));
    hide LinkedTo, HeadFailed, Droppable;
    var taken := TakeAll(c, log);
    var log1 := log + taken;
    AllTakenInFlight(c, log1, t);
    TookCanDrop(s, Run(c, log1), u);
    var head := FailHead(c, log1, u, t);
    var log2 := log1 + head;
    CancelShape(c, Run(c, log2), t);
    var cancel := Env(KStep.Cancel(t));
    After(c, log2, cancel, []);
    var log3 := log2 + [cancel];
    var failed := FailAll(c, log3);
    var reaped := ReapAll(c, log3 + failed);
    more := taken + head + [cancel] + failed + reaped;
    assert log + more == log3 + failed + reaped;
    OneSettles(KStep.Cancel(t));
    SettlingThen(taken, head);
    SettlingThen(taken + head, [cancel]);
    SettlingThen(taken + head + [cancel], failed);
    SettlingThen(taken + head + [cancel] + failed, reaped);
  }

  /** From a state in which no call is running, for an entry with data that is with the kernel:
      unless something else is prepared, everything can settle with its data leaked if and only
      if an earlier entry of its chain skips success and can still fail or has failed. */
  lemma LeakPossibleIff(c: Config, log: seq<Action>, t: nat)
    requires Careful(c, log) && OpenAtRest(Run(c, log)) && c.cqSize > 0
    requires AtKernel(Run(c, log), t) && HasData(Run(c, log), t)
    ensures (exists more :: Settling(more) && Leaked(Run(c, log + more), t)) <==> CanBeDropped(Run(c, log), t)
  {
    hide Run, Step, Careful, CanBeDropped, Settling, Quiescent;
    if CanBeDropped(Run(c, log), t) {
      var more := DropAndSettle(c, log, t);
      SettlingIsCareful(c, log, more);
      QuiescentIdle(Run(c, log + more));
      SilencedIsKept(c, log + more, t);
      assert Leaked(Run(c, log + more), t);
    } else {
      forall more | Settling(more) ensures !Leaked(Run(c, log + more), t) {
        NeverDropped(c, log, more, t);
      }
    }
  }

  lemma QuiescentIdle(s: State)
    requires Quiescent(s)
    ensures s.pc.Idle?
  {
  }

  // ---- closing --------------------------------------------------------------------------------

  ghost predicate Shut(s: State) {
    !s.open && !s.entering && (s.pc.Idle? || s.pc.Holding?)
  }

  /** Closing is absorbing and frees nothing: whatever is called afterwards, nothing more is
      accepted, taken, reaped or handed out, and `owned` never changes again, so with
      `MemorySafe` the memory of what is still in the kernel stays alive. */
  lemma {:induction false} ClosedForGood(c: Config, log: seq<Action>, more: seq<Action>)
    requires Shut(Run(c, log))
    ensures var s, s' := Run(c, log), Run(c, log + more);
      && Shut(s') && s'.owned == s.owned && s'.h.accepted == s.h.accepted && s'.k.consumed == s.k.consumed
      && s'.h.reaped == s.h.reaped && s'.h.events == s.h.events
      && OwnedAddrs(s.owned) <= s'.mem.Keys
  {
    if |more| == 0 {
      assert log + more == log;
    } else {
      var n := |more| - 1;
      ClosedForGood(c, log, more[..n]);
      assert log + more == log + more[..n] + [more[n]];
      RunAppend(c, log + more[..n], more[n]);
      StepShut(c, Run(c, log + more[..n]), more[n]);
    }
    RunAnyLog(c, log + more);
  }

  lemma StepShut(c: Config, s: State, a: Action)
    requires Shut(s)
    ensures var s' := Step(c, s, a);
      && Shut(s') && s'.owned == s.owned && s'.h.accepted == s.h.accepted && s'.k.consumed == s.k.consumed
      && s'.h.reaped == s.h.reaped && s'.h.events == s.h.events
  {
  }

  // ---- dropping the object --------------------------------------------------------------------

  /** The object is dropped between two calls: the ring is closed and everything owned is freed,
      while the kernel keeps what it took. */
  function DropObject(s: State): State {
    s.(open := false, owned := map[], mem := map[])
  }

  /** The kernel alone, from then on. */
  function KernelRun(c: Config, s: State, steps: seq<KStep>): State {
    if |steps| == 0 then s else Step(c, KernelRun(c, s, steps[..|steps| - 1]), Env(steps[|steps| - 1]))
  }

  ghost predicate NoDataInFlight(s: State) {
    forall req :: req in s.k.inflight ==> s.k.inflight[req].op.ptr.None?
  }

  lemma IdleKernelStep(c: Config, s: State, step: KStep)
    requires !s.open && NoDataInFlight(s) && !s.k.fault
    ensures var s' := Step(c, s, Env(step)); !s'.open && NoDataInFlight(s') && !s'.k.fault
  {
    hide Droppable, Splice, JobFor, InMemory;
  }

  lemma {:induction false} IdleKernelRun(c: Config, s: State, steps: seq<KStep>)
    requires !s.open && NoDataInFlight(s) && !s.k.fault
    ensures var s' := KernelRun(c, s, steps); !s'.open && NoDataInFlight(s') && !s'.k.fault
  {
    hide Step, NoDataInFlight;
    if |steps| > 0 {
      IdleKernelRun(c, s, steps[..|steps| - 1]);
      IdleKernelStep(c, KernelRun(c, s, steps[..|steps| - 1]), steps[|steps| - 1]);
    }
  }

  lemma TouchAfterDrop(c: Config, s: State, req: nat)
    requires req in s.k.inflight && s.k.inflight[req].op.ptr.Some?
    ensures KernelRun(c, DropObject(s), [Touch(req)]).k.fault
  {
    assert [Touch(req)][..0] == [];
    assert KernelRun(c, DropObject(s), []) == DropObject(s);
  }

  /** `close` frees nothing, but dropping the object frees everything: then the kernel can touch
      freed memory if and only if a request with data is still in flight. */
  lemma DropIsUnsafeIff(c: Config, log: seq<Action>)
    requires NeverClashes(c, log) && Run(c, log).pc.Idle? && !Run(c, log).entering
    ensures var s := Run(c, log);
      (exists steps :: KernelRun(c, DropObject(s), steps).k.fault) <==> !NoDataInFlight(s)
  {
    RunGuarded(c, log);
    var s := Run(c, log);
    hide Run, NeverClashes, KernelRun;
    if NoDataInFlight(s) {
      forall steps ensures !KernelRun(c, DropObject(s), steps).k.fault {
        IdleKernelRun(c, DropObject(s), steps);
      }
    } else {
      var req :| req in s.k.inflight && s.k.inflight[req].op.ptr.Some?;
      TouchAfterDrop(c, s, req);
    }
  }
}
