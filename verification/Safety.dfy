/** What the layers mean for a whole run: memory safety, conservation and order. Each lemma is
    about every log, hence about every interleaving of the ring's statements with kernel steps. */
module Safety {
  import opened Types
  import opened Kernel
  import opened Machine
  import opened Invariants
  import opened Discipline
  import opened Sharing

  // ---- memory safety ------------------------------------------------------------------

  /** While no two ids clash, the kernel touches no memory that is not there, and every request
      it still works on points at live memory of at least the size it was told. Careful callers
      (`CarefulNeverClashes`), and so the wrappers (`IssuedIsCareful`), never let ids clash. */
  lemma MemorySafe(c: Config, log: seq<Action>)
    requires NeverClashes(c, log)
    ensures var s := Run(c, log);
      && !s.k.fault
      && forall req :: req in s.k.inflight && s.k.inflight[req].op.ptr.Some? ==>
           InMemory(s.mem, s.k.inflight[req].op.ptr.value, s.k.inflight[req].op.extent)
  {
    RunGuarded(c, log);
    RunAnyLog(c, log);
    var s := Run(c, log);
    forall req | req in s.k.inflight && s.k.inflight[req].op.ptr.Some?
      ensures InMemory(s.mem, s.k.inflight[req].op.ptr.value, s.k.inflight[req].op.extent)
    {
      InFlightIsKept(c, s, req);
    }
  }

  /** The ids of the accepted entries with a pointer whose completion was not handed out. */
  ghost function PendingIds(s: State): set<nat> {
    set t: nat | t < |s.h.accepted| && Pending(s, t) :: s.h.accepted[t].id
  }

  /** The id under which the running call has yet to register its memory. */
  function HeldId(s: State): set<nat> {
    if s.pc.Pushed? then {s.pc.e.id} else {}
  }

  lemma OwnedExact(c: Config, s: State)
    requires Disciplined(c, s)
    ensures s.owned.Keys == PendingIds(s) - HeldId(s) && HeldId(s) <= PendingIds(s)
  {
    hide Ordered, Partitioned, Ownership, AllFormed, LabelTable, Sized, UnmixedIds, MemoryFaithful, EventsPaired;
    forall id ensures id in s.owned <==> id in PendingIds(s) - HeldId(s) {
      if id in s.owned { OwnedIdPending(c, s, id); }
      if id in PendingIds(s) - HeldId(s) {
        var t: nat :| t < |s.h.accepted| && Pending(s, t) && s.h.accepted[t].id == id;
        assert KeptAlive(s.owned, PushedEntry(s.pc), s.h.accepted[t]);
      }
    }
    if s.pc.Pushed? { assert Pending(s, |s.h.accepted| - 1); }
  }

  lemma OwnedIdPending(c: Config, s: State, id: nat)
    requires Disciplined(c, s) && id in s.owned
    ensures id in PendingIds(s) - HeldId(s)
  {
    hide Ordered, Partitioned, Ownership, AllFormed, LabelTable, Sized, UnmixedIds, MemoryFaithful, EventsPaired;
    OwnedIsWaitedFor(s, id);
    if s.pc.Pushed? { PushedNotOwned(s); }
  }

  /** `owned` is exact: nothing pending is missing, and nothing else is in it. */
  lemma OwnedExactly(c: Config, log: seq<Action>)
    requires Careful(c, log)
    ensures var s := Run(c, log); s.owned.Keys == PendingIds(s) - HeldId(s) && HeldId(s) <= PendingIds(s)
  {
    RunDisciplined(c, log);
    OwnedExact(c, Run(c, log));
  }

  // ---- conservation and order -----------------------------------------------------------

  predicate IsQueued(s: State, t: nat) { |s.k.consumed| <= t < |s.k.consumed| + |s.k.sq| }
  predicate IsInFlight(s: State, t: nat) { t in s.k.inflight }
  predicate IsPosted(s: State, t: nat) { t in s.k.postedAt }
  predicate IsSilenced(s: State, t: nat) { t in s.k.silenced }

  function One(b: bool): nat { if b then 1 else 0 }

  /** Every accepted entry is in exactly one place; a place holds only accepted entries; no
      request is posted twice; completions keep their order; and the sizes add up. */
  ghost predicate Conserved(s: State) {
    && (forall t: nat :: t < |s.h.accepted| ==>
         One(IsQueued(s, t)) + One(IsInFlight(s, t)) + One(IsPosted(s, t)) + One(IsSilenced(s, t)) == 1)
    && (forall t: nat :: t < |s.h.accepted| && IsQueued(s, t) ==> s.k.sq[t - |s.k.consumed|] == s.h.accepted[t])
    && (forall t :: t in s.k.inflight ==> t < |s.h.accepted| && s.k.inflight[t].op == s.h.accepted[t])
    && (forall t :: t in s.k.silenced ==> t < |s.h.accepted|)
    && (forall i :: 0 <= i < |s.k.posted| ==>
         s.k.posted[i].req < |s.h.accepted| && s.k.posted[i].job.op == s.h.accepted[s.k.posted[i].req])
    && (forall i, j :: 0 <= i < j < |s.k.posted| ==> s.k.posted[i].req != s.k.posted[j].req)
    && s.k.posted == s.h.reaped + Entries(s.pc) + s.k.cq + s.k.overflow
    && |s.h.accepted| == |s.k.sq| + |s.k.inflight| + |s.k.cq| + |s.k.overflow| + |Entries(s.pc)|
                         + |s.h.reaped| + |s.k.silenced|
  }

  lemma PlacedOnce(c: Config, s: State, t: nat)
    requires InOrder(c, s) && OnePlace(s.k) && t < |s.h.accepted|
    ensures One(IsQueued(s, t)) + One(IsInFlight(s, t)) + One(IsPosted(s, t)) + One(IsSilenced(s, t)) == 1
    ensures IsQueued(s, t) ==> s.k.sq[t - |s.k.consumed|] == s.h.accepted[t]
  {
    assert s.h.accepted[t] == (s.k.consumed + s.k.sq)[t];
    assert t < |s.k.consumed| ==> Placed(s.k.inflight, s.k.postedAt, s.k.silenced, t);
  }

  lemma SizesAddUp(c: Config, s: State)
    requires InOrder(c, s) && OnePlace(s.k)
    ensures |s.h.accepted| == |s.k.sq| + |s.k.inflight| + |s.k.cq| + |s.k.overflow| + |Entries(s.pc)|
                              + |s.h.reaped| + |s.k.silenced|
    ensures forall i, j :: 0 <= i < j < |s.k.posted| ==> s.k.posted[i].req != s.k.posted[j].req
    ensures forall t :: t in s.k.silenced ==> t < |s.h.accepted|
    ensures s.k.posted == s.h.reaped + Entries(s.pc) + s.k.cq + s.k.overflow
  {
  }

  lemma RequestInRange(s: State, i: nat)
    requires OnePlace(s.k) && i < |s.k.posted|
    ensures s.k.posted[i].req < |s.k.consumed|
    ensures s.k.posted[i].req in s.k.postedAt && s.k.postedAt[s.k.posted[i].req] == i
  {
  }

  /** The i-th completion reaped is the i-th one posted. */
  lemma ReapedAt(c: Config, s: State, i: nat)
    requires InOrder(c, s) && OnePlace(s.k) && i < |s.h.reaped|
    ensures i < |s.k.posted| && s.k.posted[i] == s.h.reaped[i] && s.h.reaped[i].req < |s.k.consumed|
    ensures s.h.reaped[i].req in s.k.postedAt && s.k.postedAt[s.h.reaped[i].req] == i
  {
    assert s.k.posted[i] == (s.h.reaped + Entries(s.pc) + s.k.cq + s.k.overflow)[i];
    RequestInRange(s, i);
  }

  lemma StateConserved(c: Config, s: State)
    requires InOrder(c, s) && OnePlace(s.k)
    ensures Conserved(s)
  {
    SizesAddUp(c, s);
    forall t | t in s.k.inflight ensures t < |s.h.accepted| && s.k.inflight[t].op == s.h.accepted[t] {
      InFlightInRange(s, t);
      RequestIsAccepted(c, s, t);
    }
    hide Ordered, Partitioned;
    forall t: nat | t < |s.h.accepted|
      ensures One(IsQueued(s, t)) + One(IsInFlight(s, t)) + One(IsPosted(s, t)) + One(IsSilenced(s, t)) == 1
      ensures IsQueued(s, t) ==> s.k.sq[t - |s.k.consumed|] == s.h.accepted[t]
    {
      PlacedOnce(c, s, t);
    }
    forall i | 0 <= i < |s.k.posted|
      ensures s.k.posted[i].req < |s.h.accepted| && s.k.posted[i].job.op == s.h.accepted[s.k.posted[i].req]
    {
      RequestInRange(s, i);
      RequestIsAccepted(c, s, s.k.posted[i].req);
    }
  }

  lemma InFlightInRange(s: State, t: nat)
    requires OnePlace(s.k) && t in s.k.inflight
    ensures t < |s.k.consumed|
  {
  }

  /** Nothing is lost and nothing is doubled, on any log. */
  lemma Conservation(c: Config, log: seq<Action>)
    ensures Conserved(Run(c, log))
  {
    RunAnyLog(c, log);
    StateConserved(c, Run(c, log));
  }

  /** Whatever the capacity and wherever the submits fell, the ring is an unbounded FIFO:
      a push appends one entry, the kernel takes the oldest one it has not taken, and no
      other action moves an entry. The bounded queue is the part not yet taken. */
  lemma RefinesUnboundedFifo(c: Config, log: seq<Action>, a: Action)
    ensures var s, s' := Run(c, log), Run(c, log + [a]);
      && s.h.accepted == s.k.consumed + s.k.sq && |s.k.sq| <= c.capacity
      && (s'.h.accepted == s.h.accepted || (a.Push? && s'.h.accepted == s.h.accepted + [a.e]))
      && (s'.k.consumed == s.k.consumed ||
          (a == Env(Consume) && |s.k.consumed| < |s.h.accepted| &&
           s'.k.consumed == s.k.consumed + [s.h.accepted[|s.k.consumed|]]))
  {
    RunAnyLog(c, log);
    RunAppend(c, log, a);
    StepFifo(c, Run(c, log), a);
  }

  lemma StepFifo(c: Config, s: State, a: Action)
    requires InOrder(c, s)
    ensures var s' := Step(c, s, a);
      && (s'.h.accepted == s.h.accepted || (a.Push? && s'.h.accepted == s.h.accepted + [a.e]))
      && (s'.k.consumed == s.k.consumed ||
          (a == Env(Consume) && |s.k.consumed| < |s.h.accepted| &&
           s'.k.consumed == s.k.consumed + [s.h.accepted[|s.k.consumed|]]))
  {
    if a == Env(Consume) && |s.k.sq| > 0 {
      assert s.k.sq[0] == (s.k.consumed + s.k.sq)[|s.k.consumed|];
    }
  }

  /** The history only grows along a run. */
  ghost predicate Extends(s: State, s': State) {
    && s.h.accepted <= s'.h.accepted
    && s.k.posted <= s'.k.posted
    && s.h.events <= s'.h.events
    && (forall a :: a in s.h.initial ==> a in s'.h.initial && s'.h.initial[a] == s.h.initial[a])
  }

  lemma StepExtends(c: Config, s: State, a: Action)
    requires WellFormed(s)
    ensures Extends(s, Step(c, s, a))
  {
    hide KUring, KMemory, EventFor, Formed;
    if a.Env? && Enabled(c, s, a) { KernelPosts(c, s.k, s.mem, s.h.initial, a.step); }
  }

  lemma {:induction false} HistoryGrows(c: Config, log: seq<Action>, more: seq<Action>)
    ensures Extends(Run(c, log), Run(c, log + more))
  {
    if |more| == 0 {
      assert log + more == log;
    } else {
      var n := |more| - 1;
      HistoryGrows(c, log, more[..n]);
      assert log + more == log + more[..n] + [more[n]];
      RunAppend(c, log + more[..n], more[n]);
      RunAnyLog(c, log + more[..n]);
      StepExtends(c, Run(c, log + more[..n]), more[n]);
    }
  }
}
