/** What the kernel can still do from a state in which no call is running: it can take all that
    is queued, complete what is in flight, and have everything reaped. Each lemma builds such a
    continuation. */
module Futures {
  import opened Kernel
  import opened Machine
  import opened Invariants
  import opened Discipline
  import opened Sharing

  /** The ring is open and no call is running. */
  predicate OpenAtRest(s: State) {
    s.open && s.pc.Idle? && !s.entering
  }

  /** Nothing is prepared: the ring is only entered and reaped, and the kernel runs. */
  ghost predicate Settling(more: seq<Action>) {
    forall a :: a in more ==> a.Env? || Enters(a) || Reaps(a)
  }

  lemma SettlingThen(first: seq<Action>, second: seq<Action>)
    requires Settling(first) && Settling(second)
    ensures Settling(first + second)
  {
  }

  lemma OneSettles(step: KStep)
    ensures Settling([Env(step)])
  {
  }

  lemma SettlingIsCareful(c: Config, log: seq<Action>, more: seq<Action>)
    requires Careful(c, log) && Settling(more)
    ensures Careful(c, log + more)
  {
    forall i | 0 <= i < |more| ensures !more[i].Push? { assert more[i] in more; }
    CarefulMore(c, log, more);
  }

  lemma After(c: Config, log: seq<Action>, a: Action, rest: seq<Action>)
    ensures Run(c, log + [a]) == Step(c, Run(c, log), a)
    ensures log + ([a] + rest) == log + [a] + rest
  {
    hide Run, Issued;
    RunAppend(c, log, a);
    assert log + ([a] + rest) == log + [a] + rest;
  }

  /** Only the kernel's side changed, and there only as far as taking entries goes. */
  ghost predicate OnlyTook(s: State, s': State) {
    && s'.open == s.open && s'.pc == s.pc && s'.owned == s.owned && s'.h.accepted == s.h.accepted
    && s'.h.reaped == s.h.reaped
    && s'.k.cq == s.k.cq && s'.k.overflow == s.k.overflow && s'.k.posted == s.k.posted
    && s'.k.postedAt == s.k.postedAt && s'.k.silenced == s.k.silenced
  }

  lemma ConsumeShape(c: Config, s: State)
    requires s.open && s.entering && |s.k.sq| > 0
    ensures var s' := Step(c, s, Env(Consume)); OnlyTook(s, s') && s'.entering && s'.k.sq == s.k.sq[1..]
  {
  }

  lemma {:induction false} TakeInside(c: Config, log: seq<Action>) returns (more: seq<Action>)
    requires Run(c, log).open && Run(c, log).entering
    ensures Settling(more)
    ensures var s, s' := Run(c, log), Run(c, log + more); OnlyTook(s, s') && s'.entering && s'.k.sq == []
    decreases |Run(c, log).k.sq|
  {
    hide Run, Step;
    if Run(c, log).k.sq == [] {
      more := [];
      assert log + more == log;
    } else {
      ConsumeShape(c, Run(c, log));
      After(c, log, Env(Consume), []);
      var rest := TakeInside(c, log + [Env(Consume)]);
      After(c, log, Env(Consume), rest);
      more := [Env(Consume)] + rest;
    }
  }

  lemma EnterShape(c: Config, s: State)
    requires OpenAtRest(s)
    ensures var s' := Step(c, s, BeginEnter); OnlyTook(s, s') && s'.entering && s'.k == s.k
  {
  }

  lemma LeaveShape(c: Config, s: State)
    requires s.entering
    ensures var s' := Step(c, s, EndEnter); OnlyTook(s, s') && !s'.entering && s'.k == s.k
  {
  }

  /** The kernel takes all that is queued. */
  lemma TakeAll(c: Config, log: seq<Action>) returns (more: seq<Action>)
    requires OpenAtRest(Run(c, log))
    ensures Settling(more)
    ensures var s, s' := Run(c, log), Run(c, log + more); OnlyTook(s, s') && OpenAtRest(s') && s'.k.sq == []
  {
    hide Run, Step;
    var s := Run(c, log);
    EnterShape(c, s);
    After(c, log, BeginEnter, []);
    var taken := TakeInside(c, log + [BeginEnter]);
    var inside := log + [BeginEnter] + taken;
    LeaveShape(c, Run(c, inside));
    After(c, inside, EndEnter, []);
    more := [BeginEnter] + taken + [EndEnter];
    assert log + more == inside + [EndEnter];
  }

  lemma AllTakenInFlight(c: Config, log: seq<Action>, t: nat)
    requires Run(c, log).k.sq == [] && AtKernel(Run(c, log), t)
    ensures var s := Run(c, log); t in s.k.inflight && s.k.inflight[t].op == s.h.accepted[t]
    ensures Run(c, log).k.consumed == Run(c, log).h.accepted
  {
    RunAnyLog(c, log);
    hide Run;
    var s := Run(c, log);
    assert Placed(s.k.inflight, s.k.postedAt, s.k.silenced, t);
  }

  /** Only completions were posted and queues moved; nothing the ring has changed. */
  ghost predicate OnlyPosted(s: State, s': State) {
    && s'.open == s.open && s'.entering == s.entering && s'.owned == s.owned && s'.h == s.h
    && s'.k.sq == s.k.sq && s'.k.consumed == s.k.consumed && s'.k.silenced == s.k.silenced
  }

  lemma FailShape(c: Config, s: State, req: nat)
    requires req in s.k.inflight
    ensures var s' := Step(c, s, Env(Complete(req, -1)));
      && OnlyPosted(s, s') && s'.pc == s.pc && s'.k.inflight == s.k.inflight - {req} && req in s'.k.postedAt
      && (forall t :: t in s.k.postedAt && t != req ==> t in s'.k.postedAt && s'.k.postedAt[t] == s.k.postedAt[t])
      && s'.k.postedAt[req] == |s.k.posted| && s'.k.posted == s.k.posted + [Cqe(req, s.k.inflight[req], -1)]
  {
  }

  lemma Fewer(inflight: map<nat, Job>, req: nat)
    requires req in inflight
    ensures |inflight - {req}| < |inflight|
  {
    assert (inflight - {req}).Keys == inflight.Keys - {req};
    assert |inflight| == |inflight.Keys| && |inflight - {req}| == |(inflight - {req}).Keys|;
  }

  /** The kernel fails all that is in flight. */
  lemma {:induction false} FailAll(c: Config, log: seq<Action>) returns (more: seq<Action>)
    ensures Settling(more)
    ensures var s, s' := Run(c, log), Run(c, log + more);
      OnlyPosted(s, s') && s'.pc == s.pc && s'.k.inflight == map[]
    decreases |Run(c, log).k.inflight|
  {
    hide Run, Step;
    var s := Run(c, log);
    if s.k.inflight == map[] {
      more := [];
      assert log + more == log;
    } else {
      var req :| req in s.k.inflight;
      FailShape(c, s, req);
      Fewer(s.k.inflight, req);
      After(c, log, Env(Complete(req, -1)), []);
      var rest := FailAll(c, log + [Env(Complete(req, -1))]);
      After(c, log, Env(Complete(req, -1)), rest);
      more := [Env(Complete(req, -1))] + rest;
    }
  }

  ghost predicate SamePlaces(s: State, s': State) {
    s'.k.inflight == s.k.inflight && s'.k.posted == s.k.posted && s'.k.postedAt == s.k.postedAt
  }

  lemma DrainStep(c: Config, s: State)
    requires s.pc.Reaping? && c.cqSize > 0 && (|s.k.cq| > 0 || |s.k.overflow| > 0)
    ensures var a := if |s.k.cq| > 0 then Drain(|s.k.cq|) else Env(Flush);
      var s' := Step(c, s, a);
      && OnlyPosted(s, s') && SamePlaces(s, s') && s'.pc.Reaping?
      && 2 * |s'.k.overflow| + |s'.k.cq| < 2 * |s.k.overflow| + |s.k.cq|
  {
  }

  /** The call takes all that is posted, while the kernel flushes what did not fit. */
  lemma {:induction false} DrainAll(c: Config, log: seq<Action>) returns (more: seq<Action>)
    requires Run(c, log).pc.Reaping? && c.cqSize > 0
    ensures Settling(more)
    ensures var s, s' := Run(c, log), Run(c, log + more);
      OnlyPosted(s, s') && SamePlaces(s, s') && s'.pc.Reaping? && s'.k.cq == [] && s'.k.overflow == []
    decreases 2 * |Run(c, log).k.overflow| + |Run(c, log).k.cq|
  {
    hide Run, Step;
    var s := Run(c, log);
    if |s.k.cq| == 0 && |s.k.overflow| == 0 {
      more := [];
      assert log + more == log;
    } else {
      var a := if |s.k.cq| > 0 then Drain(|s.k.cq|) else Env(Flush);
      DrainStep(c, s);
      After(c, log, a, []);
      var rest := DrainAll(c, log + [a]);
      After(c, log, a, rest);
      more := [a] + rest;
    }
  }

  /** Completions were processed and data released. */
  ghost predicate OnlyReleased(s: State, s': State, entries: seq<Cqe>) {
    && s'.open == s.open && s'.entering == s.entering && s'.h.accepted == s.h.accepted && s'.k == s.k
    && s'.h.reaped == s.h.reaped + entries && s'.owned.Keys <= s.owned.Keys
    && forall i :: 0 <= i < |entries| ==> entries[i].job.op.id !in s'.owned
  }

  lemma ReleaseFirst(c: Config, s: State)
    requires s.pc.Reaping? && |s.pc.entries| > 0
    ensures var s' := Step(c, s, Release);
      OnlyReleased(s, s', [s.pc.entries[0]]) && s'.pc == Reaping(s.pc.entries[1..])
  {
  }

  lemma ReleasedThen(s: State, s1: State, s': State, p: Cqe, entries: seq<Cqe>)
    requires OnlyReleased(s, s1, [p]) && OnlyReleased(s1, s', entries)
    ensures OnlyReleased(s, s', [p] + entries)
  {
    assert s.h.reaped + [p] + entries == s.h.reaped + ([p] + entries);
    assert [p][0].job.op.id !in s1.owned;
  }

  lemma {:induction false} ReleaseAll(c: Config, log: seq<Action>) returns (more: seq<Action>)
    requires Run(c, log).pc.Reaping?
    ensures Settling(more)
    ensures var s, s' := Run(c, log), Run(c, log + more);
      OnlyReleased(s, s', s.pc.entries) && s'.pc == Reaping([])
    decreases |Run(c, log).pc.entries|
  {
    hide Run, Step, OnlyReleased;
    var s := Run(c, log);
    if |s.pc.entries| == 0 {
      more := [];
      assert log + more == log;
      NothingReleased(s);
    } else {
      ReleaseFirst(c, s);
      After(c, log, Release, []);
      var s1 := Run(c, log + [Release]);
      var rest := ReleaseAll(c, log + [Release]);
      After(c, log, Release, rest);
      more := [Release] + rest;
      ReleasedThen(s, s1, Run(c, log + more), s.pc.entries[0], s1.pc.entries);
      assert s.pc.entries == [s.pc.entries[0]] + s.pc.entries[1..];
    }
  }

  lemma NothingReleased(s: State)
    ensures OnlyReleased(s, s, [])
  {
  }

  /** Everything posted is reaped; what is with the kernel stays there. */
  ghost predicate AllReaped(s: State, s': State) {
    && OpenAtRest(s') && s'.h.accepted == s.h.accepted && SamePlaces(s, s')
    && s'.k.sq == s.k.sq && s'.k.consumed == s.k.consumed && s'.k.silenced == s.k.silenced
    && s'.k.cq == [] && s'.k.overflow == [] && s'.h.reaped == s'.k.posted
    && forall i :: |s.h.reaped| <= i < |s.k.posted| ==> s.k.posted[i].job.op.id !in s'.owned
  }

  lemma BeginReapShape(c: Config, s: State)
    requires OpenAtRest(s)
    ensures var s' := Step(c, s, BeginReap); OnlyPosted(s, s') && s'.k == s.k && s'.pc == Reaping([])
  {
  }

  lemma EndReapShape(c: Config, s: State)
    requires s.pc == Reaping([])
    ensures var s' := Step(c, s, EndReap);
      s'.pc.Idle? && s'.open == s.open && s'.entering == s.entering && s'.k == s.k && s'.h == s.h && s'.owned == s.owned
  {
  }

  lemma QueuesEmpty(c: Config, s: State)
    requires InOrder(c, s) && s.pc.Idle? && s.k.cq == [] && s.k.overflow == []
    ensures s.h.reaped == s.k.posted
  {
  }

  lemma ReapAll(c: Config, log: seq<Action>) returns (more: seq<Action>)
    requires OpenAtRest(Run(c, log)) && c.cqSize > 0
    ensures Settling(more)
    ensures AllReaped(Run(c, log), Run(c, log + more))
  {
    hide Run, Step, AnyLog, InOrder;
    var s := Run(c, log);
    BeginReapShape(c, s);
    After(c, log, BeginReap, []);
    var drained := DrainAll(c, log + [BeginReap]);
    var log2 := log + [BeginReap] + drained;
    var released := ReleaseAll(c, log2);
    var log3 := log2 + released;
    EndReapShape(c, Run(c, log3));
    After(c, log3, EndReap, []);
    more := [BeginReap] + drained + released + [EndReap];
    assert log + more == log3 + [EndReap];
    RunInOrder(c, log + more);
    QueuesEmpty(c, Run(c, log + more));
    ReapedTail(s, Run(c, log2), Run(c, log3), Run(c, log + more));
  }

  lemma ReapedTail(s: State, s2: State, s3: State, s4: State)
    requires s2.h == s.h && s2.k.posted == s.k.posted && s2.pc.Reaping? && OnlyReleased(s2, s3, s2.pc.entries)
    requires s4.h == s3.h && s4.k == s3.k && s4.owned == s3.owned && s4.h.reaped == s4.k.posted
    ensures forall i :: |s.h.reaped| <= i < |s.k.posted| ==> s.k.posted[i].job.op.id !in s4.owned
  {
    forall i | |s.h.reaped| <= i < |s.k.posted| ensures s.k.posted[i].job.op.id !in s4.owned {
      assert s.k.posted[i] == s2.pc.entries[i - |s.h.reaped|];
    }
  }

  lemma RunInOrder(c: Config, log: seq<Action>)
    ensures InOrder(c, Run(c, log)) && OnePlace(Run(c, log).k)
  {
    RunAnyLog(c, log);
  }
}
