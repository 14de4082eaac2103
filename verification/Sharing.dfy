/** What callers who choose their own ids may do: two entries that share an id put memory at
    risk exactly when they clash. */
module Sharing {
  import opened Types
  import opened Kernel
  import opened Machine
  import opened Invariants
  import opened Discipline

  /** The t-th accepted entry is queued or in flight. */
  predicate AtKernel(s: State, t: nat) {
    t < |s.h.accepted| && t !in s.k.postedAt && t !in s.k.silenced
  }

  /** Its completion is still to be reaped. */
  predicate Awaited(s: State, u: nat) {
    u < |s.h.accepted| && !Done(s, u) && u !in s.k.silenced
  }

  predicate HasData(s: State, t: nat) {
    t < |s.h.accepted| && s.h.accepted[t].ptr.Some?
  }

  /** An entry with data is with the kernel while another one's completion is still to be
      reaped under its id: reaping that one frees the data. */
  ghost predicate Clash(s: State) {
    exists t: nat, u: nat ::
      t != u && AtKernel(s, t) && HasData(s, t) && Awaited(s, u) && s.h.accepted[u].id == s.h.accepted[t].id
  }

  ghost predicate NeverClashes(c: Config, log: seq<Action>) {
    !Clash(Run(c, log)) && (|log| > 0 ==> NeverClashes(c, log[..|log| - 1]))
  }

  /** No entry with the kernel has data under the id of the one the running call just pushed. */
  ghost predicate PushedAlone(s: State) {
    s.pc.Pushed? ==>
      forall t: nat :: AtKernel(s, t) && HasData(s, t) && t < |s.h.accepted| - 1 ==> s.h.accepted[t].id != s.pc.e.id
  }

  ghost predicate KernelKept(s: State) {
    forall t: nat :: AtKernel(s, t) && HasData(s, t) ==> KeptAlive(s.owned, PushedEntry(s.pc), s.h.accepted[t])
  }

  /** What keeps the kernel's memory alive, whoever chose the ids. */
  ghost predicate Guarded(s: State) {
    PushedAlone(s) && KernelKept(s) && !s.k.fault
  }

  lemma NoClashHere(s: State, t: nat, u: nat)
    requires !Clash(s) && t != u && AtKernel(s, t) && HasData(s, t) && Awaited(s, u)
    ensures s.h.accepted[u].id != s.h.accepted[t].id
  {
  }

  lemma KernelSilences(c: Config, k: Uring, mem: Memory, initial: Memory, step: KStep)
    requires KEnabled(c, k, step)
    ensures k.silenced <= KUring(c, k, mem, initial, step).silenced
  {
    hide Splice, JobFor, InMemory;
  }

  lemma StepAtKernel(c: Config, s: State, a: Action, t: nat)
    requires AtKernel(Step(c, s, a), t)
    ensures t < |s.h.accepted| ==> AtKernel(s, t) && Step(c, s, a).h.accepted[t] == s.h.accepted[t]
    ensures t >= |s.h.accepted| ==> a.Push? && Enabled(c, s, a) && t == |s.h.accepted|
  {
    hide KUring, KMemory, EventFor, Without;
    if a.Env? && Enabled(c, s, a) {
      KernelPostedAt(c, s.k, s.mem, s.h.initial, a.step);
      KernelSilences(c, s.k, s.mem, s.h.initial, a.step);
    }
  }

  lemma PushGuarded(c: Config, s: State, e: Sqe)
    requires AnyLog(c, s) && Guarded(s) && Enabled(c, s, Push(e)) && !Clash(Step(c, s, Push(e)))
    ensures Guarded(Step(c, s, Push(e)))
  {
    hide Ordered, Partitioned, Ownership, AllFormed, LabelTable, Sized, Clash;
    NewTokenNotPosted(c, s);
    var s', n := Step(c, s, Push(e)), |s.h.accepted|;
    assert Awaited(s', n);
    forall t: nat | AtKernel(s', t) && HasData(s', t)
      ensures KeptAlive(s'.owned, PushedEntry(s'.pc), s'.h.accepted[t])
      ensures t < n ==> s'.h.accepted[t].id != e.id
    {
      if t < n {
        assert AtKernel(s, t) && HasData(s, t);
        NoClashHere(s', t, n);
      }
    }
  }

  lemma RegisterGuarded(c: Config, s: State)
    requires AnyLog(c, s) && Guarded(s) && Enabled(c, s, Register)
    ensures Guarded(Step(c, s, Register))
  {
    hide Ordered, Partitioned, Ownership, AllFormed, LabelTable, Sized;
    var s' := Step(c, s, Register);
    forall t: nat | AtKernel(s', t) && HasData(s', t)
      ensures KeptAlive(s'.owned, PushedEntry(s'.pc), s'.h.accepted[t])
    {
      assert AtKernel(s, t) && HasData(s, t);
    }
  }

  lemma PostedNotSilenced(s: State, t: nat)
    requires OnePlace(s.k) && t in s.k.postedAt
    ensures t !in s.k.silenced
  {
  }

  lemma ReleaseGuarded(c: Config, s: State)
    requires AnyLog(c, s) && Guarded(s) && !Clash(s) && Enabled(c, s, Release)
    ensures Guarded(Step(c, s, Release))
  {
    hide Ordered, Partitioned, Ownership, AllFormed, LabelTable, Sized, Clash, EventFor, Without;
    NextToRelease(c, s);
    var s', r := Step(c, s, Release), s.pc.entries[0].req;
    PostedNotSilenced(s, r);
    assert Awaited(s, r);
    forall t: nat | AtKernel(s', t) && HasData(s', t)
      ensures KeptAlive(s'.owned, PushedEntry(s'.pc), s'.h.accepted[t])
    {
      assert AtKernel(s, t) && HasData(s, t);
      NoClashHere(s, t, r);
    }
  }

  /** Every request in flight that has a pointer has its memory. */
  lemma InFlightIsKept(c: Config, s: State, req: nat)
    requires AnyLog(c, s) && KernelKept(s) && req in s.k.inflight && s.k.inflight[req].op.ptr.Some?
    ensures InMemory(s.mem, s.k.inflight[req].op.ptr.value, s.k.inflight[req].op.extent)
  {
    InFlightAtKernel(c, s, req);
    hide Ordered, Partitioned, Ownership, AllFormed, LabelTable;
    assert HasData(s, req);
    KeptIsLive(s, s.h.accepted[req]);
    FormedAt(s, req);
  }

  lemma InFlightAtKernel(c: Config, s: State, req: nat)
    requires InOrder(c, s) && OnePlace(s.k) && req in s.k.inflight
    ensures AtKernel(s, req) && s.k.inflight[req].op == s.h.accepted[req]
  {
    RequestIsAccepted(c, s, req);
  }

  lemma KeptNoFault(c: Config, s: State, step: KStep)
    requires AnyLog(c, s) && Guarded(s) && Enabled(c, s, Env(step))
    ensures !KUring(c, s.k, s.mem, s.h.initial, step).fault
  {
    hide AnyLog, PushedAlone, KernelKept, Splice, JobFor, InMemory;
    if step.Write? {
      InFlightIsKept(c, s, step.req);
      var op := s.k.inflight[step.req].op;
      MemoryReaches(s.mem, op.ptr.value, step.at + |step.data|, op.extent);
    } else if step.Touch? {
      InFlightIsKept(c, s, step.req);
    }
  }

  lemma MemoryReaches(mem: Memory, a: Addr, n: nat, extent: nat)
    requires InMemory(mem, a, extent) && n <= extent
    ensures InMemory(mem, a, n)
  {
  }

  lemma KernelGuarded(c: Config, s: State, step: KStep)
    requires AnyLog(c, s) && Guarded(s) && Enabled(c, s, Env(step))
    ensures Guarded(Step(c, s, Env(step)))
  {
    hide AnyLog, KUring, KEnabled, AtKernel;
    KeptNoFault(c, s, step);
    var s' := Step(c, s, Env(step));
    forall t: nat | AtKernel(s', t) && HasData(s', t) ensures AtKernel(s, t) && HasData(s, t) {
      AtKernelAccepted(s', t);
      StepAtKernel(c, s, Env(step), t);
    }
  }

  lemma AtKernelAccepted(s: State, t: nat)
    requires AtKernel(s, t)
    ensures t < |s.h.accepted|
  {
  }

  lemma StepGuarded(c: Config, s: State, a: Action)
    requires AnyLog(c, s) && Guarded(s) && !Clash(s) && !Clash(Step(c, s, a))
    ensures Guarded(Step(c, s, a))
  {
    hide Ordered, Partitioned, Ownership, AllFormed, LabelTable, Sized, Clash, EventFor, Without, KUring;
    if Enabled(c, s, a) {
      match a {
        case Push(e) => PushGuarded(c, s, e);
        case Register => RegisterGuarded(c, s);
        case Release => ReleaseGuarded(c, s);
        case Env(step) => KernelGuarded(c, s, step);
        case _ =>
          var s' := Step(c, s, a);
          assert forall t: nat :: AtKernel(s', t) <==> AtKernel(s, t);
          assert forall t: nat :: HasData(s', t) <==> HasData(s, t);
      }
    }
  }

  lemma NeverClashesUnfold(c: Config, log: seq<Action>)
    ensures NeverClashes(c, log) <==> !Clash(Run(c, log)) && (|log| > 0 ==> NeverClashes(c, log[..|log| - 1]))
  {
  }

  lemma InitGuarded()
    ensures Guarded(Init())
  {
  }

  lemma {:induction false} RunGuarded(c: Config, log: seq<Action>)
    requires NeverClashes(c, log)
    ensures Guarded(Run(c, log))
  {
    hide Run, Issued, Step, Init, Guarded, AnyLog, NeverClashes, Clash;
    RunUnfold(c, log);
    NeverClashesUnfold(c, log);
    if |log| == 0 {
      InitGuarded();
    } else {
      var n := |log| - 1;
      RunGuarded(c, log[..n]);
      NeverClashesUnfold(c, log[..n]);
      RunAnyLog(c, log[..n]);
      StepGuarded(c, Run(c, log[..n]), log[n]);
    }
  }

  lemma UnmixedNeverClashes(s: State)
    requires Unmixed(s)
    ensures !Clash(s)
  {
    forall t: nat, u: nat | t != u && AtKernel(s, t) && HasData(s, t) && Awaited(s, u)
      ensures s.h.accepted[u].id != s.h.accepted[t].id
    {
      assert Pending(s, t);
    }
  }

  /** Care with ids is enough. */
  lemma {:induction false} CarefulNeverClashes(c: Config, log: seq<Action>)
    requires Careful(c, log)
    ensures NeverClashes(c, log)
  {
    hide Run, Careful, NeverClashes, Clash, AnyLog, OwnedIsPending, MemoryFaithful, EventsPaired, UnmixedIds;
    RunDisciplined(c, log);
    UnmixedNeverClashes(Run(c, log));
    NeverClashesUnfold(c, log);
    CarefulUnfold(c, log);
    if |log| > 0 { CarefulNeverClashes(c, log[..|log| - 1]); }
  }
}
