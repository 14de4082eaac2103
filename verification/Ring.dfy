/** `TheIoRing` (src/ring.rs). Each method is one of its methods, and the kernel may run
    (`Interfere`) before and after each of its statements. `Valid` says that the object's state
    is the one the machine reaches on the log of what was done to it, so every theorem about
    `Run(config, log)` is one about the object. */
module Ring {
  import opened Types
  import opened Kernel
  import opened Machine
  import opened Invariants
  import opened Discipline

  /** What one io_uring_enter does: whether it reports success, and how many entries it takes
      at the least. */
  datatype Enter = Enter(ok: bool, takes: nat)

  // ---- what the contracts speak about -------------------------------------------------------

  /** The ring's own actions, without the kernel's steps between them. */
  function Api(log: seq<Action>): seq<Action> {
    if |log| == 0 then []
    else Api(log[..|log| - 1]) + if log[|log| - 1].Env? then [] else [log[|log| - 1]]
  }

  lemma ApiAppend(log: seq<Action>, a: Action)
    ensures Api(log + [a]) == Api(log) + if a.Env? then [] else [a]
  {
    assert (log + [a])[..|log + [a]| - 1] == log;
  }

  /** Since `before`, only the kernel ran, and the ring entered it or reaped as allowed. */
  ghost predicate Only(before: seq<Action>, now: seq<Action>, enters: bool, reaps: bool) {
    && before <= now
    && forall i :: |before| <= i < |now| ==> now[i].Env? || (enters && Enters(now[i])) || (reaps && Reaps(now[i]))
  }

  /** A call that pushes nothing keeps whatever discipline the log had. */
  ghost predicate KeepsIds(c: Config, before: seq<Action>, now: seq<Action>) {
    && (Issued(c, before) ==> Issued(c, now))
    && (Careful(c, before) ==> Careful(c, now))
  }

  /** One that pushes e keeps it if the id was right at the call. */
  ghost predicate PushKeepsIds(c: Config, before: seq<Action>, s: State, pushed: bool, e: Sqe, now: seq<Action>) {
    && (Issued(c, before) && (pushed ==> IdStep(s, Push(e))) ==> Issued(c, now))
    && (Careful(c, before) && (pushed ==> IdFree(s, e)) ==> Careful(c, now))
  }

  /** The log of an attempt that pushed: the kernel's steps, the push, the kernel's steps. */
  lemma AttemptLogs(c: Config, before: seq<Action>, s0: State, mid: seq<Action>, s1: State, pushed: seq<Action>,
                    after: seq<Action>, e: Sqe)
    requires Only(before, mid, false, false) && KeepsIds(c, before, mid)
    requires AnyLog(c, s0) && AnyLog(c, s1) && s1.h == s0.h
    requires pushed == mid + [Push(e)]
    requires Issued(c, pushed) <==> Issued(c, mid) && IdStep(s1, Push(e))
    requires Careful(c, pushed) <==> Careful(c, mid) && IdFree(s1, e)
    requires Only(pushed, after, false, false) && KeepsIds(c, pushed, after)
    ensures PushKeepsIds(c, before, s0, true, e, after) && NeverReaps(before, after)
  {
    hide Issued, Careful, Only, AnyLog, IdFree;
    SameIdFree(c, s0, s1, e);
    OnlyNeverReaps(before, mid, false);
    NeverReapsStep(before, mid, Push(e));
    OnlyNeverReaps(pushed, after, false);
    NeverReapsThen(before, pushed, after);
    hide NeverReaps;
  }

  lemma AttemptLogsFailed(c: Config, before: seq<Action>, s0: State, mid: seq<Action>, e: Sqe)
    requires Only(before, mid, false, false) && KeepsIds(c, before, mid)
    ensures PushKeepsIds(c, before, s0, false, e, mid) && NeverReaps(before, mid)
  {
    hide Issued, Careful, IdFree, IdStep;
    OnlyNeverReaps(before, mid, false);
  }

  /** The check of an id looks only at what was accepted and what was handed out. */
  lemma SameIdFree(c: Config, s: State, s': State, e: Sqe)
    requires AnyLog(c, s) && AnyLog(c, s') && s'.h.accepted == s.h.accepted && s'.h.reaped == s.h.reaped
    ensures IdFree(s, e) ==> IdFree(s', e)
  {
    hide Ordered, Partitioned, AllFormed, Ownership, LabelTable, Sized;
    forall t: nat ensures Done(s, t) == Done(s', t) {
      DoneIsReaped(c, s, t);
      DoneIsReaped(c, s', t);
    }
  }

  lemma OnlyStep(before: seq<Action>, now: seq<Action>, a: Action, enters: bool, reaps: bool)
    requires Only(before, now, enters, reaps) && (a.Env? || (enters && Enters(a)) || (reaps && Reaps(a)))
    ensures Only(before, now + [a], enters, reaps)
  {
  }

  lemma OnlyThen(before: seq<Action>, mid: seq<Action>, now: seq<Action>, enters: bool, reaps: bool)
    requires Only(before, mid, enters, reaps) && Only(mid, now, false, false)
    ensures Only(before, now, enters, reaps)
  {
  }

  /** The log only grew, and nothing was reaped. */
  ghost predicate NeverReaps(before: seq<Action>, now: seq<Action>) {
    && before <= now
    && forall i :: |before| <= i < |now| ==> !Reaps(now[i])
  }

  lemma OnlyNeverReaps(before: seq<Action>, now: seq<Action>, enters: bool)
    requires Only(before, now, enters, false)
    ensures NeverReaps(before, now)
  {
  }

  lemma NeverReapsThen(first: seq<Action>, second: seq<Action>, third: seq<Action>)
    requires NeverReaps(first, second) && NeverReaps(second, third)
    ensures NeverReaps(first, third)
  {
  }

  lemma NeverReapsStep(before: seq<Action>, now: seq<Action>, a: Action)
    requires NeverReaps(before, now) && !Reaps(a)
    ensures NeverReaps(before, now + [a])
  {
  }

  lemma NeverReapsNothing(log: seq<Action>)
    ensures NeverReaps(log, log)
  {
  }

  lemma OnlyAround(first: seq<Action>, second: seq<Action>, third: seq<Action>, last: seq<Action>,
                   enters: bool, reaps: bool)
    requires Only(first, second, false, false) && Only(second, third, enters, reaps) && Only(third, last, false, false)
    ensures Only(first, last, enters, reaps)
  {
  }

  lemma OnlyNothing(log: seq<Action>)
    ensures Only(log, log, true, false) && Only(log, log, false, true) && Only(log, log, false, false)
  {
  }

  /** How much the kernel still has to do or to hand over. */
  function Load(k: Uring): nat {
    |k.sq| + |k.inflight| + |k.cq| + |k.overflow|
  }

  /** The kernel took a prefix of the queue, and posted without losing or reordering. */
  ghost predicate Progress(k: Uring, k': Uring) {
    var n := |k'.consumed| - |k.consumed|;
    && 0 <= n <= |k.sq|
    && k'.consumed == k.consumed + k.sq[..n] && k'.sq == k.sq[n..]
    && k.posted <= k'.posted
    && k.cq <= k'.cq
    && Load(k') <= Load(k)
  }

  /** Neither the counter nor anything the ring owns is touched. */
  ghost predicate SameRest(s: State, s': State) {
    s'.open == s.open && s'.entering == s.entering && OwnsSame(s, s')
  }

  ghost predicate OwnsSame(s: State, s': State) {
    s'.counter == s.counter && s'.owned == s.owned && s'.nextAddr == s.nextAddr && s'.mem.Keys == s.mem.Keys
  }

  /** The only effect the kernel has on the process. */
  ghost predicate Rely(c: Config, s: State, s': State) {
    && SameRest(s, s') && s'.pc == s.pc && s'.h == s.h
    && Progress(s.k, s'.k)
    && (!Takes(c, s) ==> s'.k.sq == s.k.sq)
  }

  lemma TakeTwice<T>(q: seq<T>, n: nat, m: nat)
    requires n + m <= |q|
    ensures q[..n + m] == q[..n] + q[n..][..m] && q[n..][m..] == q[n + m..]
  {
  }

  lemma ProgressTransitive(k: Uring, k': Uring, k'': Uring)
    requires Progress(k, k') && Progress(k', k'')
    ensures Progress(k, k'')
  {
    hide Load;
    var n, m := |k'.consumed| - |k.consumed|, |k''.consumed| - |k'.consumed|;
    TakeTwice(k.sq, n, m);
    assert k.consumed + k.sq[..n] + k.sq[n..][..m] == k.consumed + (k.sq[..n] + k.sq[n..][..m]);
  }

  /** One request leaves the in-flight set, or only its image changes. */
  lemma InFlightSizes(inflight: map<nat, Job>, req: nat, j: Job)
    ensures req in inflight ==> |inflight - {req}| == |inflight| - 1 && |inflight[req := j]| == |inflight|
    ensures req !in inflight ==> |inflight[req := j]| == |inflight| + 1
    ensures req in inflight ==> inflight[req := j].Keys == inflight.Keys
  {
    assert (inflight - {req}).Keys == inflight.Keys - {req};
    assert inflight[req := j].Keys == inflight.Keys + {req};
    assert |inflight| == |inflight.Keys| && |inflight - {req}| == |(inflight - {req}).Keys|;
    assert |inflight[req := j]| == |inflight[req := j].Keys|;
  }

  lemma KernelLoad(c: Config, k: Uring, mem: Memory, initial: Memory, step: KStep)
    requires KEnabled(c, k, step) && |k.consumed| !in k.inflight
    ensures Load(KUring(c, k, mem, initial, step)) <= Load(k)
  {
    match step {
      case Consume => InFlightSizes(k.inflight, |k.consumed|, JobFor(k.sq[0], initial));
      case Write(req, at, data) =>
        InFlightSizes(k.inflight, req, k.inflight[req].(image := Splice(k.inflight[req].image, at, data)));
      case Touch(req) =>
      case Complete(req, result) => InFlightSizes(k.inflight, req, k.inflight[req]);
      case Cancel(req) => InFlightSizes(k.inflight, req, k.inflight[req]);
      case Flush =>
    }
  }

  lemma NothingTaken<T>(q: seq<T>, done: seq<T>)
    ensures q[..0] == [] && q[0..] == q && done + q[..0] == done
  {
  }

  lemma KernelProgress(c: Config, k: Uring, mem: Memory, initial: Memory, step: KStep)
    requires KEnabled(c, k, step) && |k.consumed| !in k.inflight
    ensures Progress(k, KUring(c, k, mem, initial, step))
    ensures !step.Consume? ==> KUring(c, k, mem, initial, step).sq == k.sq
  {
    hide Load, KUring;
    KernelLoad(c, k, mem, initial, step);
    KernelPosts(c, k, mem, initial, step);
    NothingTaken(k.sq, k.consumed);
    if step.Consume? { assert k.sq[..1] == [k.sq[0]]; }
  }

  lemma KernelKeepsKeys(k: Uring, mem: Memory, step: KStep)
    ensures KMemory(k, mem, step).Keys == mem.Keys
  {
  }

  lemma StepRely(c: Config, s: State, step: KStep)
    requires AnyLog(c, s)
    ensures Rely(c, s, Step(c, s, Env(step)))
  {
    hide Ordered, Partitioned, Ownership, AllFormed, Progress, Load, KUring, KMemory, KEnabled;
    if Enabled(c, s, Env(step)) {
      NextRequestFresh(s);
      KernelProgress(c, s.k, s.mem, s.h.initial, step);
      KernelKeepsKeys(s.k, s.mem, step);
    } else {
      NoProgress(s.k);
    }
  }

  lemma ProgressSizes(k: Uring, k': Uring)
    requires Progress(k, k')
    ensures |k'.consumed| - |k.consumed| == |k.sq| - |k'.sq| >= 0
    ensures Load(k') <= Load(k)
  {
  }

  lemma NextRequestFresh(s: State)
    requires OnePlace(s.k)
    ensures |s.k.consumed| !in s.k.inflight
  {
  }

  /** A failed prep call leaves everything but the queue's head where it was, and its copy of
      the caller's data is gone again. */
  ghost predicate Rejected(s: State, s': State) {
    && s'.owned == s.owned && s'.h.accepted == s.h.accepted && s'.mem.Keys == s.mem.Keys
    && s'.open == s.open && s'.counter == s.counter && s'.pc.Idle? && !s'.entering
    && s'.h.reaped == s.h.reaped && s'.h.events == s.h.events && s'.h.allocs == s.h.allocs
    && s'.h.tokenOf == s.h.tokenOf
    && Progress(s.k, s'.k)
  }

  /** A prep call pushed exactly e. */
  ghost predicate Accepted(s: State, s': State, e: Sqe) {
    && s'.h.accepted == s.h.accepted + [e]
    && s'.open == s.open && s'.counter == s.counter && s'.pc.Idle? && !s'.entering
    && s'.h.reaped == s.h.reaped && s'.h.events == s.h.events && s'.h.allocs == s.h.allocs
  }

  /** It pushed e with a pointer to a copy, of its own, of `bytes`, and the ring now owns it. */
  ghost predicate AcceptedWith(s: State, s': State, e: Sqe, bytes: seq<Byte>) {
    && Accepted(s, s', e) && e.ptr.Some? && e.ptr.value !in s.mem
    && e.ptr.value in s'.h.initial && s'.h.initial[e.ptr.value] == bytes
    && s'.owned == s.owned[e.id := DataFor(e)]
  }

  /** It pushed e, which needs no memory. */
  ghost predicate AcceptedPlain(s: State, s': State, e: Sqe) {
    Accepted(s, s', e) && s'.owned == s.owned && s'.mem.Keys == s.mem.Keys
  }

  /** The entry accepted last, spelled out: what it asks for, with which flags, under which id. */
  ghost predicate Asked(s: State, kind: Kind, args: seq<int>, flags: nat, id: nat) {
    && |s.h.accepted| > 0
    && var e := s.h.accepted[|s.h.accepted| - 1];
       e.kind == kind && e.args == args && e.flags == flags && e.id == id
  }

  /** It carries no pointer. */
  ghost predicate AskedPlain(s: State, kind: Kind, args: seq<int>, flags: nat, id: nat) {
    Asked(s, kind, args, flags, id) && s.h.accepted[|s.h.accepted| - 1].ptr.None?
  }

  /** It points at `data`, of which the kernel may touch `extent` bytes and which is owned. */
  ghost predicate AskedWith(s: State, kind: Kind, args: seq<int>, flags: nat, id: nat, extent: nat, data: OwnedData) {
    && Asked(s, kind, args, flags, id)
    && s.h.accepted[|s.h.accepted| - 1].ptr == Some(data.addr) && s.h.accepted[|s.h.accepted| - 1].extent == extent
    && id in s.owned && s.owned[id] == data
  }

  /** When pushing through `autosubmit` succeeds, and which error it gives otherwise. */
  ghost predicate QueueOutcome(c: Config, s: State, s': State, env: Enter, r: Result<()>) {
    && (r == Err(RingClosed) <==> !s.open)
    && (r.Err? ==> r.error == RingClosed || r.error == QueueFull || r.error == SubmitFailed)
    // a queue with room never makes the call enter the kernel, and a full one at most once
    && s.h.enters <= s'.h.enters <= s.h.enters + 1
    && (s'.h.enters > s.h.enters ==> c.autosubmit && |s.k.sq| == c.capacity)
    && (s.open && |s.k.sq| < c.capacity ==> r.Ok?)
    // progress: one entry taken is enough
    && (s.open && c.autosubmit && env.ok && env.takes > 0 ==> r.Ok?)
    && (r == Err(SubmitFailed) ==> c.autosubmit && !env.ok && |s.k.sq| == c.capacity)
    && (r == Err(QueueFull) ==> |s.k.sq| == c.capacity && s'.k.consumed == s.k.consumed)
    && (r == Err(QueueFull) ==> !c.autosubmit || env.ok)
    // a call that does not enter the kernel gives it nothing, unless it polls
    && (!c.sqpoll && s'.h.enters == s.h.enters ==> |s'.k.consumed| == |s.k.consumed|)
    // a full queue takes nothing unless the kernel took something
    && (r.Ok? ==> |s.k.sq| < c.capacity || |s'.k.consumed| > |s.k.consumed|)
    // and a kernel that does not poll takes only what autosubmit hands it
    && (s.open && !c.sqpoll ==>
         && (r.Ok? <==>
              |s.k.sq| < c.capacity || (c.autosubmit && env.ok && |s'.k.consumed| > |s.k.consumed|))
         && (r == Err(SubmitFailed) <==> |s.k.sq| == c.capacity && c.autosubmit && !env.ok)
         && (r == Err(QueueFull) <==>
              |s.k.sq| == c.capacity && (!c.autosubmit || (env.ok && s'.k.consumed == s.k.consumed))))
  }

  /** What waiting with a timeout does: nothing that is owned or was reaped is touched, and an
      error comes before the timeout is pushed or after it. */
  ghost predicate TimedWait(c: Config, s: State, s': State, timeout: Sqe, first: Enter, second: Enter, r: Result<nat>) {
    && (!s.open ==> r == Err(RingClosed) && s' == s)
    && s'.open == s.open && s'.owned == s.owned && s'.counter == s.counter
    && s'.mem.Keys == s.mem.Keys && s'.h.reaped == s.h.reaped && s'.h.events == s.h.events
    && (s'.h.accepted == s.h.accepted || s'.h.accepted == s.h.accepted + [timeout])
    && (r.Ok? ==> first.ok && second.ok && s'.h.accepted == s.h.accepted + [timeout])
    && (r.Err? ==> r.error == RingClosed || r.error == QueueFull || r.error == SubmitFailed)
    && (r == Err(RingClosed) <==> !s.open)
    // the first submit fails; or the queue is still full; or the second submit fails
    && (s.open && !first.ok ==> r == Err(SubmitFailed) && s'.h.accepted == s.h.accepted)
    && (s.open && first.ok ==>
         (r == Err(QueueFull) <==> |s.k.sq| == c.capacity && s'.k.consumed == s.k.consumed))
    && (r == Err(QueueFull) ==> first.ok && s'.h.accepted == s.h.accepted)
    && (first.ok && r == Err(SubmitFailed) ==> !second.ok && s'.h.accepted == s.h.accepted + [timeout])
    && (s.open && first.ok && second.ok && first.takes > 0 ==> r.Ok?)
    // the count is that of the first submit
    && (r.Ok? && !c.sqpoll ==>
         && r.value <= |s.k.sq| && (first.takes <= |s.k.sq| ==> first.takes <= r.value)
         && (first.takes >= |s.k.sq| ==> r.value == |s.k.sq|)
         && |s.k.sq| - r.value < c.capacity && r.value <= |s'.k.consumed| - |s.k.consumed|)
    && (r.Ok? && c.sqpoll ==> r.value <= |s.k.sq| <= r.value + |s'.k.consumed| - |s.k.consumed|)
    // the promise to callers that do not poll and whose kernel takes what it is given
    && (s.open && !c.sqpoll && first.ok && first.takes >= |s.k.sq| && second.ok && second.takes > 0 ==>
         && r == Ok(|s.k.sq|) && s'.k.sq == []
         && s'.k.consumed == s.k.consumed + s.k.sq + [timeout])
  }

  function Ids(entries: seq<Cqe>): set<nat> {
    set i | 0 <= i < |entries| :: entries[i].job.op.id
  }

  lemma IdsAppend(entries: seq<Cqe>, p: Cqe)
    ensures Ids(entries + [p]) == Ids(entries) + {p.job.op.id}
  {
    var all := entries + [p];
    forall id | id in Ids(entries) + {p.job.op.id} ensures id in Ids(all) {
      if id in Ids(entries) {
        var i :| 0 <= i < |entries| && entries[i].job.op.id == id;
        assert all[i].job.op.id == id;
      } else {
        assert all[|entries|].job.op.id == id;
      }
    }
  }

  /** `entries` have been reaped, in order, into `events`, and the data under exactly their
      ids is no longer owned. */
  ghost predicate Processed(s: State, s': State, entries: seq<Cqe>, events: seq<CompletionEvent>) {
    && s'.open == s.open && s'.counter == s.counter && s'.nextAddr == s.nextAddr && s'.entering == s.entering
    && s'.h == s.h.(reaped := s.h.reaped + entries, events := s.h.events + events)
    && |events| == |entries|
    && (forall i :: 0 <= i < |entries| ==>
         events[i].userData == entries[i].job.op.id && events[i].result == entries[i].result)
    && s'.owned == s.owned - Ids(entries)
  }

  lemma ProcessNone(s: State)
    ensures Processed(s, s, [], [])
  {
    assert s.h.reaped + [] == s.h.reaped && s.h.events + [] == s.h.events;
  }

  lemma ProcessMore(c: Config, s: State, s1: State, s2: State, s3: State, entries: seq<Cqe>,
                    events: seq<CompletionEvent>, p: Cqe, event: CompletionEvent)
    requires Processed(s, s1, entries, events) && SameRest(s1, s2) && s2.pc == s1.pc && s2.h == s1.h
    requires s2.pc.Reaping? && |s2.pc.entries| > 0 && s2.pc.entries[0] == p
    requires s3 == Step(c, s2, Release) && s3.h.events == s2.h.events + [event]
    ensures Processed(s, s3, entries + [p], events + [event])
  {
    ReleaseShape(c, s2);
    IdsAppend(entries, p);
    hide Step;
    assert s.h.events + events + [event] == s.h.events + (events + [event]);
    assert s.h.reaped + entries + [p] == s.h.reaped + (entries + [p]);
    assert s.owned - Ids(entries) - {p.job.op.id} == s.owned - Ids(entries + [p]);
    assert event == s3.h.events[|s2.h.events|];
  }

  lemma RelyCompletions(c: Config, s: State, s': State)
    requires Rely(c, s, s')
    ensures SameRest(s, s') && s'.pc == s.pc && s'.h == s.h && s.k.cq <= s'.k.cq && Load(s'.k) <= Load(s.k)
  {
  }

  lemma ReleaseShape(c: Config, s: State)
    requires s.pc.Reaping? && |s.pc.entries| > 0
    ensures var s', p := Step(c, s, Release), s.pc.entries[0];
      && s'.pc == Reaping(s.pc.entries[1..]) && s'.owned == s.owned - {p.job.op.id}
      && s'.open == s.open && s'.counter == s.counter && s'.nextAddr == s.nextAddr && s'.entering == s.entering
      && s'.h == s.h.(reaped := s.h.reaped + [p], events := s'.h.events)
      && |s'.h.events| == |s.h.events| + 1
      && s'.h.events[|s.h.events|].userData == p.job.op.id && s'.h.events[|s.h.events|].result == p.result
  {
  }

  lemma DrainShape(c: Config, s: State, n: nat)
    requires s.pc.Reaping? && n <= |s.k.cq|
    ensures var s' := Step(c, s, Drain(n));
      && s'.pc == Reaping(s.pc.entries + s.k.cq[..n]) && s'.k.cq == s.k.cq[n..]
      && SameRest(s, s') && s'.h == s.h && Load(s'.k) + n == Load(s.k)
  {
  }

  lemma OwnedIsLive(c: Config, s: State)
    requires AnyLog(c, s)
    ensures forall id :: id in s.owned ==> s.owned[id].addr in s.mem
  {
    forall id | id in s.owned ensures s.owned[id].addr in s.mem {
      assert s.owned[id].addr in OwnedAddrs(s.owned);
    }
  }

  /** Opcode TIMEOUT with SKIP_SUCCESS under the reserved id. */
  function TimeoutEntry(sec: nat, nsec: nat): Sqe {
    Sqe(Timeout, [sec, nsec], None, 0, 64, TIMEOUT_ID)
  }

  lemma EnteredAll(c: Config, s: State, s': State, takes: nat)
    requires Entered(c, s, s', takes)
    ensures SameRest(s, s') && s'.pc == s.pc && s'.h == s.h.(enters := s.h.enters + 1)
    ensures |s'.k.consumed| - |s.k.consumed| == |s.k.sq| - |s'.k.sq| >= 0
    ensures takes >= |s.k.sq| ==> s'.k.sq == []
    ensures |s'.k.sq| == |s.k.sq| ==> s'.k.consumed == s.k.consumed
    ensures takes > 0 && |s.k.sq| > 0 ==> |s'.k.sq| < |s.k.sq|
    ensures takes <= |s.k.sq| ==> |s'.k.consumed| - |s.k.consumed| >= takes
  {
    TakenSizes(s.k, s'.k, takes);
    SameWhenFull(s.k, s'.k);
  }

  // ---- how the steps of `autosubmit` compose ------------------------------------------------

  ghost predicate Attempted(c: Config, s: State, s': State, e: Sqe, ok: bool) {
    && SameRest(s, s')
    && (|s.k.sq| < c.capacity ==> ok)
    && |s'.k.consumed| >= |s.k.consumed|
    && (ok ==> |s.k.sq| < c.capacity || |s'.k.consumed| > |s.k.consumed|)
    && (!c.sqpoll && !s.entering ==> |s'.k.consumed| == |s.k.consumed|)
    && if ok then s'.pc == AfterPush(s.pc, e) && s'.h == PushHistory(s.h, e) && |s'.k.sq| <= |s.k.sq| + 1
       else s'.pc == s.pc && s'.h == s.h && Progress(s.k, s'.k) && s'.k.sq == s.k.sq &&
            |s.k.sq| == c.capacity && s'.k.consumed == s.k.consumed
  }

  ghost predicate Entered(c: Config, s: State, s': State, takes: nat) {
    SameRest(s, s') && s'.pc == s.pc && s'.h == OneMoreEnter(s.h) && Taken(s.k, s'.k, takes)
  }

  function OneMoreEnter(h: History): History {
    h.(enters := h.enters + 1)
  }

  /** The kernel took at least `takes` entries, or all there are. */
  ghost predicate Taken(k: Uring, k': Uring, takes: nat) {
    && Progress(k, k')
    && (k'.sq == [] || |k'.consumed| - |k.consumed| >= takes)
  }

  lemma TakenSizes(k: Uring, k': Uring, takes: nat)
    requires Taken(k, k', takes)
    ensures |k'.consumed| - |k.consumed| == |k.sq| - |k'.sq| >= 0
    ensures takes >= |k.sq| ==> k'.sq == []
    ensures takes > 0 && |k.sq| > 0 ==> |k'.sq| < |k.sq|
    ensures takes <= |k.sq| ==> |k'.consumed| - |k.consumed| >= takes
  {
    ProgressSizes(k, k');
  }

  lemma TakenBetween(k: Uring, k1: Uring, k2: Uring, k': Uring, takes: nat)
    requires Progress(k, k1) && Taken(k1, k2, takes) && Progress(k2, k')
    ensures Taken(k, k', takes)
  {
    hide Progress, Load;
    ProgressSizes(k, k1);
    ProgressSizes(k1, k2);
    ProgressSizes(k2, k');
    ProgressTransitive(k, k1, k2);
    ProgressTransitive(k, k2, k');
  }

  ghost predicate Autosubmitted(c: Config, s: State, s': State, env: Enter, e: Sqe, r: Result<()>) {
    && QueueOutcome(c, s, s', env, r)
    && SameRest(s, s')
    && if r.Ok? then s'.pc == AfterPush(s.pc, e) && s'.h == PushHistory(s.h, e).(enters := s'.h.enters)
       else s'.pc == s.pc && s'.h == s.h.(enters := s'.h.enters) && Progress(s.k, s'.k)
  }

  lemma BeginEnterShape(c: Config, s: State)
    requires Enabled(c, s, BeginEnter)
    ensures var s' := Step(c, s, BeginEnter);
      && s'.k == s.k && s'.pc == s.pc && s'.h == OneMoreEnter(s.h)
      && s'.open == s.open && s'.entering && OwnsSame(s, s')
  {
  }

  lemma EndEnterShape(c: Config, s: State)
    requires s.entering
    ensures var s' := Step(c, s, EndEnter);
      && s'.k == s.k && s'.pc == s.pc && s'.h == s.h && s'.open == s.open && !s'.entering && OwnsSame(s, s')
  {
  }

  lemma SyscallShape(c: Config, s1: State, s2: State, s3: State, s4: State, takes: nat)
    requires !s1.entering && Rely(c, s2, s3) && Taken(s1.k, s3.k, takes)
    requires s2.k == s1.k && s2.pc == s1.pc && s2.h == OneMoreEnter(s1.h) && s2.open == s1.open && OwnsSame(s1, s2)
    requires s4.k == s3.k && s4.pc == s3.pc && s4.h == s3.h && s4.open == s3.open && !s4.entering && OwnsSame(s3, s4)
    ensures Entered(c, s1, s4, takes)
  {
    hide Progress, Rely, Load, Taken, OneMoreEnter;
    RelyProgress(c, s2, s3);
  }

  lemma EnteredBetween(c: Config, s0: State, s1: State, s2: State, s3: State, takes: nat)
    requires !s0.entering && Rely(c, s0, s1) && Entered(c, s1, s2, takes) && Rely(c, s2, s3)
    ensures Entered(c, s0, s3, takes)
    ensures !c.sqpoll ==> |s2.k.consumed| - |s1.k.consumed| == |s3.k.consumed| - |s0.k.consumed|
    ensures |s3.k.sq| <= |s1.k.sq| <= |s0.k.sq|
  {
    EnteredAll(c, s1, s2, takes);
    hide Progress, Rely, Load, Taken, OneMoreEnter;
    RelyProgress(c, s0, s1);
    RelyProgress(c, s2, s3);
    TakenBetween(s0.k, s1.k, s2.k, s3.k, takes);
    ProgressSizes(s0.k, s1.k);
    ProgressSizes(s2.k, s3.k);
  }

  lemma RelyReady(c: Config, s: State, s': State)
    requires Rely(c, s, s')
    ensures s'.open == s.open && s'.entering == s.entering && s'.pc == s.pc
  {
  }

  lemma SyscallCount(c: Config, s: State, s': State, takes: nat)
    requires Entered(c, s, s', takes)
    ensures |s'.k.consumed| >= |s.k.consumed|
  {
    EnteredAll(c, s, s', takes);
  }

  lemma KeepsIdsAround(c: Config, first: seq<Action>, second: seq<Action>, third: seq<Action>, last: seq<Action>)
    requires KeepsIds(c, first, second) && KeepsIds(c, second, third) && KeepsIds(c, third, last)
    ensures KeepsIds(c, first, last)
  {
    hide Issued, Careful;
  }

  lemma PushShape(c: Config, s: State, e: Sqe)
    requires Enabled(c, s, Push(e))
    ensures var s' := Step(c, s, Push(e));
      && SameRest(s, s') && s'.pc == AfterPush(s.pc, e) && s'.h == PushHistory(s.h, e) && |s'.k.sq| == |s.k.sq| + 1
      && s'.k.consumed == s.k.consumed && |s.k.sq| < c.capacity
  {
  }

  lemma AttemptSucceeds(c: Config, s0: State, s1: State, s2: State, s3: State, e: Sqe)
    requires |s0.k.sq| <= c.capacity
    requires Rely(c, s0, s1) && s2 == Step(c, s1, Push(e)) && Enabled(c, s1, Push(e)) && Rely(c, s2, s3)
    ensures Attempted(c, s0, s3, e, true)
  {
    hide Progress, Rely, Load, Step, PushHistory, AfterPush;
    PushShape(c, s1, e);
    RelyProgress(c, s0, s1);
    RelyProgress(c, s2, s3);
    ProgressSizes(s0.k, s1.k);
    ProgressSizes(s2.k, s3.k);
  }

  lemma AttemptFails(c: Config, s0: State, s1: State, e: Sqe)
    requires Rely(c, s0, s1) && |s0.k.sq| <= c.capacity && |s1.k.sq| >= c.capacity
    ensures Attempted(c, s0, s1, e, false)
  {
    ProgressSizes(s0.k, s1.k);
    SameWhenFull(s0.k, s1.k);
    hide Progress;
  }

  lemma AttemptedKeeps(c: Config, s: State, s': State, e: Sqe)
    requires Attempted(c, s, s', e, false)
    ensures s'.open == s.open && s'.entering == s.entering && s'.pc == s.pc && s'.h == s.h && s'.k.sq == s.k.sq
  {
  }

  /** Without polling an attempt succeeds only on a queue with room, and takes nothing off it. */
  lemma AttemptedRoom(c: Config, s: State, s': State, e: Sqe)
    requires Attempted(c, s, s', e, true)
    ensures |s'.k.consumed| >= |s.k.consumed|
    ensures !c.sqpoll && !s.entering ==> |s.k.sq| < c.capacity && |s'.k.consumed| == |s.k.consumed|
  {
  }

  lemma TimeoutAttempt(c: Config, s0: State, s1: State, s2: State, first: Enter, e: Sqe, ok: bool)
    requires c.capacity > 0 && |s0.k.sq| <= c.capacity && s1.pc.Idle?
    requires Entered(c, s0, s1, first.takes) && Attempted(c, s1, s2, e, ok)
    ensures SameRest(s0, s2) && s2.pc.Idle?
    ensures s2.h.reaped == s0.h.reaped && s2.h.events == s0.h.events
    ensures s2.h.accepted == if ok then s0.h.accepted + [e] else s0.h.accepted
    ensures !ok ==> |s0.k.sq| == c.capacity && s2.k.consumed == s0.k.consumed
    ensures |s2.k.consumed| >= |s0.k.consumed|
    ensures ok ==> |s0.k.sq| < c.capacity || |s2.k.consumed| > |s0.k.consumed|
    ensures first.takes > 0 ==> ok
    ensures first.takes >= |s0.k.sq| && ok ==> |s2.k.sq| <= 1
  {
    hide Entered, Progress, Load;
    EnteredAll(c, s0, s1, first.takes);
  }

  /** Everything that was queued, then the timeout, is what the kernel has taken. */
  lemma TimeoutTaken(c: Config, s0: State, s1: State, s2: State, s3: State, first: Enter, second: Enter, e: Sqe)
    requires AnyLog(c, s0) && AnyLog(c, s3) && c.capacity > 0
    requires Entered(c, s0, s1, first.takes) && Attempted(c, s1, s2, e, true) && Entered(c, s2, s3, second.takes)
    ensures s3.h.accepted == s0.h.accepted + [e]
    ensures s3.h.reaped == s0.h.reaped && s3.h.events == s0.h.events && s3.pc == s2.pc && SameRest(s2, s3)
    ensures s3.k.sq == [] ==> s3.k.consumed == s0.k.consumed + s0.k.sq + [e]
  {
    hide Progress, Partitioned, Ownership, AllFormed;
  }

  lemma TimedClosed(c: Config, s: State, e: Sqe, first: Enter, second: Enter)
    requires !s.open
    ensures TimedWait(c, s, s, e, first, second, Err(RingClosed))
  {
  }

  lemma TimedUnsent(c: Config, s0: State, s1: State, e: Sqe, first: Enter, second: Enter)
    requires s0.open && Entered(c, s0, s1, first.takes) && !first.ok
    ensures TimedWait(c, s0, s1, e, first, second, Err(SubmitFailed))
  {
    hide Entered;
    EnteredAll(c, s0, s1, first.takes);
  }

  lemma TimedFull(c: Config, s0: State, s1: State, s2: State, e: Sqe, first: Enter, second: Enter)
    requires s0.open && c.capacity > 0 && |s0.k.sq| <= c.capacity && s1.pc.Idle? && first.ok
    requires Entered(c, s0, s1, first.takes) && Attempted(c, s1, s2, e, false)
    ensures TimedWait(c, s0, s2, e, first, second, Err(QueueFull))
  {
    hide Entered, Attempted;
    TimeoutAttempt(c, s0, s1, s2, first, e, false);
  }

  lemma TimedSent(c: Config, s0: State, s1: State, s2: State, s3: State, e: Sqe, first: Enter, second: Enter,
                  count: Result<nat>)
    requires s0.open && !s0.entering && c.capacity > 0 && |s0.k.sq| <= c.capacity && s1.pc.Idle?
    requires first.ok && count.Ok?
    requires AnyLog(c, s0) && AnyLog(c, s3)
    requires Entered(c, s0, s1, first.takes) && Attempted(c, s1, s2, e, true) && Entered(c, s2, s3, second.takes)
    requires !c.sqpoll ==> count.value == |s1.k.consumed| - |s0.k.consumed|
    requires c.sqpoll ==> |s1.k.sq| <= count.value <= |s0.k.sq|
    ensures TimedWait(c, s0, s3, e, first, second, if second.ok then count else Err(SubmitFailed))
  {
    hide Entered, Attempted, AnyLog;
    TimeoutAttempt(c, s0, s1, s2, first, e, true);
    EnteredAll(c, s0, s1, first.takes);
    EnteredAll(c, s2, s3, second.takes);
    AttemptedRoom(c, s1, s2, e);
    TimeoutTaken(c, s0, s1, s2, s3, first, second, e);
  }

  lemma EnteredKeeps(c: Config, s: State, s': State, takes: nat)
    requires Entered(c, s, s', takes)
    ensures s'.open == s.open && s'.entering == s.entering && s'.pc == s.pc
    ensures s'.h.allocs == s.h.allocs && s'.h.tokenOf == s.h.tokenOf
    ensures s'.h.accepted == s.h.accepted && s'.h.reaped == s.h.reaped
  {
  }

  lemma ClosedFails(c: Config, s: State, env: Enter, e: Sqe)
    requires !s.open
    ensures Autosubmitted(c, s, s, env, e, Err(RingClosed))
  {
    NoProgress(s.k);
  }

  lemma FirstAttempt(c: Config, s: State, s': State, env: Enter, e: Sqe, ok: bool)
    requires s.open && !s.entering && c.capacity > 0 && Attempted(c, s, s', e, ok) && (ok || !c.autosubmit)
    ensures Autosubmitted(c, s, s', env, e, if ok then Ok(()) else Err(QueueFull)) && s'.h.enters == s.h.enters
  {
  }

  lemma SubmitFails(c: Config, s: State, s1: State, s2: State, env: Enter, e: Sqe)
    requires s.open && !s.entering && c.autosubmit && !env.ok
    requires Attempted(c, s, s1, e, false) && Entered(c, s1, s2, env.takes)
    ensures Autosubmitted(c, s, s2, env, e, Err(SubmitFailed)) && s2.h.enters == s.h.enters + 1
  {
    hide Progress;
    ProgressTransitive(s.k, s1.k, s2.k);
  }

  lemma SecondAttempt(c: Config, s: State, s1: State, s2: State, s3: State, env: Enter, e: Sqe, ok: bool)
    requires s.open && !s.entering && c.capacity > 0 && c.autosubmit && env.ok
    requires Attempted(c, s, s1, e, false) && Entered(c, s1, s2, env.takes) && Attempted(c, s2, s3, e, ok)
    ensures Autosubmitted(c, s, s3, env, e, if ok then Ok(()) else Err(QueueFull)) && s3.h.enters == s.h.enters + 1
  {
    hide Progress;
    EnteredAll(c, s1, s2, env.takes);
    if !ok {
      SameWhenFull(s1.k, s2.k);
      ProgressTransitive(s.k, s1.k, s2.k);
      ProgressTransitive(s.k, s2.k, s3.k);
    } else {
      assert PushHistory(s2.h, e) == PushHistory(s.h, e).(enters := s2.h.enters);
    }
  }

  function AfterPush(pc: Pc, e: Sqe): Pc {
    if pc.Holding? then Pushed(e) else pc
  }

  function AutosubmitScript(entered: bool, pushed: bool, e: Sqe): seq<Action> {
    (if entered then [BeginEnter, EndEnter] else []) + (if pushed then [Push(e)] else [])
  }

  lemma NoProgress(k: Uring)
    ensures Progress(k, k)
  {
    assert k.sq[..0] == [] && k.sq[0..] == k.sq;
  }

  lemma QueueBound(c: Config, s: State)
    requires AnyLog(c, s)
    ensures |s.k.sq| <= c.capacity
  {
  }

  lemma RelyProgress(c: Config, s: State, s': State)
    requires Rely(c, s, s')
    ensures Progress(s.k, s'.k) && SameRest(s, s') && s'.pc == s.pc && s'.h == s.h
    ensures !Takes(c, s) ==> s'.k.sq == s.k.sq
  {
  }

  /** If the queue is as long as it was, the kernel took nothing. */
  lemma SameWhenFull(k: Uring, k': Uring)
    requires Progress(k, k')
    ensures |k'.sq| == |k.sq| ==> k'.consumed == k.consumed && k'.sq == k.sq
  {
  }

  lemma ConsumeShortens(c: Config, s: State)
    requires Takes(c, s) && |s.k.sq| > 0
    ensures |Step(c, s, Env(Consume)).k.sq| < |s.k.sq|
  {
  }

  lemma ReflexiveRely(c: Config, s: State)
    ensures Rely(c, s, s)
  {
    assert s.k.sq[..0] == [] && s.k.sq[0..] == s.k.sq;
  }

  lemma RelyTransitive(c: Config, s: State, s': State, s'': State)
    requires Rely(c, s, s') && Rely(c, s', s'')
    ensures Rely(c, s, s'')
  {
    ProgressTransitive(s.k, s'.k, s''.k);
  }

  // ---- the object -----------------------------------------------------------------------------

  class TheIoRing {
    const config: Config
    const supported: set<Kind>           // the opcode probe

    var open: bool                       // `the_io_uring` is Some
    var userDataCounter: nat
    var ownedData: map<nat, OwnedData>
    var mem: Memory                      // the live allocations behind `ownedData` and locals
    var nextAddr: nat
    var uring: Uring                     // the io_uring instance, shared with the kernel

    // auxiliary: where the running call is, and what happened; no branch reads them
    var pc: Pc
    var entering: bool
    var h: History
    ghost var log: seq<Action>

    function View(): State
      reads this
    {
      State(open, userDataCounter, ownedData, mem, nextAddr, uring, pc, entering, h)
    }

    ghost predicate Valid()
      reads this
    {
      View() == Run(config, log) && config.capacity > 0 && config.cqSize > 0
    }

    /** Between two calls. */
    ghost predicate Ready()
      reads this
    {
      Valid() && pc.Idle? && !entering
    }

    constructor (config: Config, supported: set<Kind>)
      requires config.capacity > 0 && config.cqSize > 0
      ensures Ready() && this.config == config && this.supported == supported
      ensures View() == Init() && log == []
      ensures open && userDataCounter == 0 && ownedData == map[] && uring.sq == [] && uring.cq == []
    {
      this.config := config;
      this.supported := supported;
      open := true;
      userDataCounter := 0;
      ownedData := map[];
      mem := map[];
      nextAddr := 0;
      uring := EmptyUring();
      pc := Idle;
      entering := false;
      h := Init().h;
      log := [];
    }

    /** A statement that only calls into the io_uring library, the allocator or the kernel. */
    method Perform(a: Action)
      requires Valid()
      modifies this
      ensures Valid() && log == old(log) + [a] && View() == Step(config, old(View()), a)
      ensures Issued(config, log) <==> Issued(config, old(log)) && IdStep(old(View()), a)
      ensures Careful(config, log) <==> Careful(config, old(log)) && CarefulStep(config, old(View()), a)
    {
      var s := Step(config, View(), a);
      open, userDataCounter, ownedData := s.open, s.counter, s.owned;
      mem, nextAddr, uring, pc, entering, h := s.mem, s.nextAddr, s.k, s.pc, s.entering, s.h;
      log := log + [a];
      RunAppend(config, old(log), a);
      CarefulAppend(config, old(log), a);
    }

    /** The kernel runs for any number of steps of its choice. */
    method Interfere()
      requires Valid()
      modifies this
      ensures Valid() && Rely(config, old(View()), View())
      ensures Api(log) == Api(old(log)) && KeepsIds(config, old(log), log)
      ensures Only(old(log), log, false, false)
    {
      hide Run, AnyLog, Rely, Only, Api, Issued, Careful;
      var steps: seq<KStep> := *;
      ReflexiveRely(config, View());
      OnlyNothing(log);
      for i := 0 to |steps|
        invariant Valid() && Rely(config, old(View()), View())
        invariant Api(log) == Api(old(log)) && KeepsIds(config, old(log), log)
        invariant Only(old(log), log, false, false)
      {
        ghost var s := View();
        RunAnyLog(config, log);
        StepRely(config, s, steps[i]);
        ApiAppend(log, Env(steps[i]));
        OnlyStep(old(log), log, Env(steps[i]), false, false);
        Perform(Env(steps[i]));
        RelyTransitive(config, old(View()), s, View());
      }
    }

    /** Inside io_uring_enter the kernel takes at least `takes` entries, or all there are. */
    method Take(takes: nat)
      requires Valid() && open && entering
      modifies this
      ensures Valid() && Rely(config, old(View()), View()) && Taken(old(uring), uring, takes)
      ensures Api(log) == Api(old(log)) && KeepsIds(config, old(log), log)
      ensures Only(old(log), log, false, false)
    {
      hide Progress, Run, AnyLog, Load, Only, Api, Issued, Careful;
      var before := |uring.consumed|;
      Interfere();
      ProgressSizes(old(uring), uring);
      while |uring.consumed| - before < takes && |uring.sq| > 0
        invariant Valid() && Rely(config, old(View()), View()) && |uring.consumed| >= before
        invariant Api(log) == Api(old(log)) && KeepsIds(config, old(log), log)
        invariant Only(old(log), log, false, false)
        decreases |uring.sq|
      {
        ghost var s := View();
        RunAnyLog(config, log);
        StepRely(config, s, Consume);
        ConsumeShortens(config, s);
        ApiAppend(log, Env(Consume));
        OnlyStep(old(log), log, Env(Consume), false, false);
        Perform(Env(Consume));
        ghost var s' := View();
        ghost var mid := log;
        RelyTransitive(config, old(View()), s, s');
        ProgressSizes(s.k, s'.k);
        Interfere();
        RelyTransitive(config, old(View()), s', View());
        OnlyThen(old(log), mid, log, false, false);
        ProgressSizes(s'.k, uring);
      }
      ProgressSizes(old(uring), uring);
    }

    /** The system call itself: the kernel takes at least `takes` entries or all there are. */
    method Syscall(takes: nat)
      requires Valid() && open && !entering && (pc.Idle? || pc.Holding?)
      modifies this
      ensures Valid() && Entered(config, old(View()), View(), takes)
      ensures Api(log) == Api(old(log)) + [BeginEnter, EndEnter]
      ensures KeepsIds(config, old(log), log) && Only(old(log), log, true, false)
    {
      hide Progress, Taken, Run, Api, Issued, Careful, Load, Only, Rely, Entered, Step, OneMoreEnter;
      ghost var s1 := View();
      OnlyNothing(log);
      ApiAppend(log, BeginEnter);
      OnlyStep(log, log, BeginEnter, true, false);
      BeginEnterShape(config, s1);
      Perform(BeginEnter);
      ghost var s2, mid := View(), log;
      Take(takes);
      OnlyThen(old(log), mid, log, true, false);
      ghost var s3 := View();
      ApiAppend(log, EndEnter);
      OnlyStep(old(log), log, EndEnter, true, false);
      RelyProgress(config, s2, s3);
      EndEnterShape(config, s3);
      Perform(EndEnter);
      SyscallShape(config, s1, s2, s3, View(), takes);
    }

    /** `io_uring_enter` as `submit` and `submit_and_wait` make it: the kernel runs, takes at
        least `env.takes` entries or all there are, and reports how many it took. With SQPOLL
        the library reports the queue's length instead. */
    method EnterKernel(env: Enter) returns (n: nat)
      requires Valid() && open && !entering && (pc.Idle? || pc.Holding?)
      modifies this
      ensures Valid()
      ensures Entered(config, old(View()), View(), env.takes)
      ensures !config.sqpoll ==> n == |uring.consumed| - |old(uring).consumed|
      ensures config.sqpoll ==> |uring.sq| <= n <= |old(uring).sq|
      ensures Api(log) == Api(old(log)) + [BeginEnter, EndEnter]
      ensures KeepsIds(config, old(log), log) && Only(old(log), log, true, false)
    {
      hide Progress, Taken, SameRest, Run, Api, Issued, Careful, KeepsIds, Load, Only, Rely, Entered, Step, Takes,
        OneMoreEnter;
      ghost var s0, first := View(), log;
      Interfere();
      ghost var s1, second := View(), log;
      RelyReady(config, s0, s1);
      n := |uring.sq|;
      var before := |uring.consumed|;
      Syscall(env.takes);
      ghost var s2, third := View(), log;
      SyscallCount(config, s1, s2, env.takes);
      if !config.sqpoll { n := |uring.consumed| - before; }
      Interfere();
      OnlyAround(first, second, third, log, true, false);
      KeepsIdsAround(config, first, second, third, log);
      EnteredBetween(config, s0, s1, s2, View(), env.takes);
    }

    /** `ring.submission().push(entry)`. */
    method TryPush(e: Sqe) returns (ok: bool)
      requires Valid() && open && !entering && (pc == Holding(e) || (pc.Idle? && Plain(e)))
      modifies this
      ensures Valid() && (ok <==> |old(uring).sq| < config.capacity)
      ensures ok <==> Enabled(config, old(View()), Push(e))
      ensures View() == if ok then Step(config, old(View()), Push(e)) else old(View())
      ensures log == if ok then old(log) + [Push(e)] else old(log)
      ensures Issued(config, log) <==> Issued(config, old(log)) && (ok ==> IdStep(old(View()), Push(e)))
      ensures Careful(config, log) <==> Careful(config, old(log)) && (ok ==> IdFree(old(View()), e))
    {
      ok := |uring.sq| < config.capacity;
      if ok { Perform(Push(e)); }
    }

    /** One attempt to push, with the kernel running before and after it. */
    method Attempt(e: Sqe) returns (ok: bool)
      requires Valid() && open && !entering && (pc == Holding(e) || (pc.Idle? && Plain(e)))
      modifies this
      ensures Valid() && Attempted(config, old(View()), View(), e, ok)
      ensures Api(log) == Api(old(log)) + if ok then [Push(e)] else []
      ensures NeverReaps(old(log), log)
      ensures PushKeepsIds(config, old(log), old(View()), ok, e, log)
    {
      hide Progress, Run, Load, Rely, Only, NeverReaps, KeepsIds, PushKeepsIds, AnyLog, IdFree, IdStep, Attempted,
        Step, Enabled, Plain, Takes, Api, Issued, Careful;
      ghost var s0 := View();
      RunAnyLog(config, log);
      QueueBound(config, s0);
      Interfere();
      ghost var s1, mid := View(), log;
      RelyProgress(config, s0, s1);
      RunAnyLog(config, log);
      ok := TryPush(e);
      if !ok {
        AttemptLogsFailed(config, old(log), s0, mid, e);
        AttemptFails(config, s0, s1, e);
        return;
      }
      ghost var s2, pushed := View(), log;
      Interfere();
      ApiAppend(mid, Push(e));
      AttemptLogs(config, old(log), s0, mid, s1, pushed, log, e);
      AttemptSucceeds(config, s0, s1, s2, View(), e);
    }

    /** Pushes one entry, submitting first if the queue is full: at most two attempts to push,
        and at most one submit between them. */
    method Autosubmit(e: Sqe, env: Enter) returns (r: Result<()>, ghost pushes: nat)
      requires Valid() && !entering && (pc == Holding(e) || (pc.Idle? && Plain(e)))
      modifies this
      ensures Valid() && pushes <= 2
      ensures Autosubmitted(config, old(View()), View(), env, e, r)
      ensures Api(log) == Api(old(log)) + AutosubmitScript(h.enters > old(h).enters, r.Ok?, e)
      ensures NeverReaps(old(log), log)
      ensures PushKeepsIds(config, old(log), old(View()), r.Ok?, e, log)
    {
      hide Attempted, Autosubmitted, Entered, Run, AnyLog, IdFree, Rely, Only, NeverReaps, Step, Api, Issued, Careful;
      ghost var s0 := View();
      RunAnyLog(config, log);
      NeverReapsNothing(log);
      pushes := 0;
      if !open {
        ClosedFails(config, s0, env, e);
        return Err(RingClosed), pushes;
      }
      var needsSubmit := false;
      while true
        invariant Valid() && pushes == (if needsSubmit then 1 else 0)
        invariant needsSubmit ==> config.autosubmit && Attempted(config, s0, View(), e, false)
        invariant !needsSubmit ==> View() == s0
        invariant Api(log) == Api(old(log)) && KeepsIds(config, old(log), log)
        invariant NeverReaps(old(log), log)
        decreases !needsSubmit
      {
        ghost var s1 := View();
        RunAnyLog(config, log);
        if needsSubmit {
          AttemptedKeeps(config, s0, s1, e);
          ghost var mid := log;
          var n := EnterKernel(env);
          OnlyNeverReaps(mid, log, true);
          NeverReapsThen(old(log), mid, log);
          EnteredKeeps(config, s1, View(), env.takes);
          if !env.ok {
            SubmitFails(config, s0, s1, View(), env, e);
            return Err(SubmitFailed), pushes;
          }
        }
        ghost var s2 := View();
        RunAnyLog(config, log);
        SameIdFree(config, s0, s2, e);
        ghost var mid := log;
        var ok := Attempt(e);
        NeverReapsThen(old(log), mid, log);
        pushes := pushes + 1;
        if ok {
          if needsSubmit { SecondAttempt(config, s0, s1, s2, View(), env, e, ok); }
          else { FirstAttempt(config, s0, View(), env, e, ok); }
          return Ok(()), pushes;
        } else if needsSubmit || !config.autosubmit {
          if needsSubmit { SecondAttempt(config, s0, s1, s2, View(), env, e, ok); }
          else { FirstAttempt(config, s0, View(), env, e, ok); }
          return Err(QueueFull), pushes;
        }
        needsSubmit := true;
      }
    }

    /** `add_owned_path`, `add_owned_buffer` and `add_owned_sockaddr`: the memory the running
        call holds becomes the ring's, and a value stored under the id before is dropped. */
    method AddOwned(userData: nat, data: OwnedData)
      requires Valid() && !entering && pc.Pushed? && pc.e.ptr.Some? && pc.e.id == userData && data == DataFor(pc.e)
      modifies this
      ensures Valid() && log == old(log) + [Register] && View() == Step(config, old(View()), Register)
      ensures Issued(config, log) <==> Issued(config, old(log))
      ensures Careful(config, log) <==> Careful(config, old(log))
    {
      if userData in ownedData { mem := mem - {ownedData[userData].addr}; }
      ownedData := ownedData[userData := data];
      pc := Idle;
      log := log + [Register];
      RunAppend(config, old(log), Register);
      CarefulAppend(config, old(log), Register);
    }

    // ---- what Python calls ------------------------------------------------------------------

    /** `user_data_counter.fetch_add(1)`. */
    method GetNextUserData() returns (id: nat)
      requires Ready()
      modifies this
      ensures Ready() && id == old(userDataCounter) && userDataCounter == (id + 1) % U64_LIMIT
      ensures View() == Step(config, old(View()), NextId) && log == old(log) + [NextId]
      ensures Issued(config, log) <==> Issued(config, old(log)) && old(h).allocs < TIMEOUT_ID
      ensures Careful(config, log) <==> Careful(config, old(log))
    {
      id := userDataCounter;
      userDataCounter := (userDataCounter + 1) % U64_LIMIT;
      h := h.(allocs := h.allocs + 1);
      log := log + [NextId];
      RunAppend(config, old(log), NextId);
      CarefulAppend(config, old(log), NextId);
    }

    /** Submits the queue, without waiting or waiting for `want` completions. */
    method Submit(env: Enter) returns (r: Result<nat>)
      requires Ready()
      modifies this
      ensures Ready()
      ensures !old(open) ==> r == Err(RingClosed) && View() == old(View()) && log == old(log)
      ensures old(open) ==> Entered(config, old(View()), View(), env.takes)
      ensures old(open) ==> (r.Err? <==> !env.ok) && (r.Err? ==> r.error == SubmitFailed)
      ensures r.Ok? && !config.sqpoll ==> r.value == |uring.consumed| - |old(uring).consumed|
      ensures r.Ok? && config.sqpoll ==> |uring.sq| <= r.value <= |old(uring).sq|
      ensures r.Ok? && !config.sqpoll && env.takes >= |old(uring).sq| ==> r.value == |old(uring).sq|
      ensures KeepsIds(config, old(log), log) && Only(old(log), log, true, false)
    {
      if !open {
        return Err(RingClosed);
      }
      ghost var s := View();
      var n := EnterKernel(env);
      EnteredAll(config, s, View(), env.takes);
      r := if env.ok then Ok(n) else Err(SubmitFailed);
    }

    /** Submits everything, then a timeout, then waits for one completion. */
    method WaitWithTimeout(sec: nat, nsec: U32, first: Enter, second: Enter) returns (r: Result<nat>)
      requires Ready()
      modifies this
      ensures Ready()
      ensures TimedWait(config, old(View()), View(), TimeoutEntry(sec, nsec), first, second, r)
      ensures r.Ok? ==> AskedPlain(View(), Timeout, [sec, nsec], 64, 0xFFFF_FFFF_FFFF_FF00)
      ensures NeverReaps(old(log), log)
      ensures PushKeepsIds(config, old(log), old(View()), true, TimeoutEntry(sec, nsec), log)
    {
      hide Run, Rely, Only, NeverReaps, Attempted, Entered, Api, Issued, Careful, IdFree, TimedWait, AnyLog;
      ghost var s0 := View();
      NeverReapsNothing(log);
      if !open {
        TimedClosed(config, s0, TimeoutEntry(sec, nsec), first, second);
        return Err(RingClosed);
      }
      RunAnyLog(config, log);
      QueueBound(config, s0);
      var count := Submit(first);
      OnlyNeverReaps(old(log), log, true);
      ghost var s1 := View();
      EnteredKeeps(config, s0, s1, first.takes);
      if count.Err? {
        TimedUnsent(config, s0, s1, TimeoutEntry(sec, nsec), first, second);
        return count;
      }
      var timeout := TimeoutEntry(sec, nsec);
      RunAnyLog(config, log);
      SameIdFree(config, s0, s1, timeout);
      ghost var mid := log;
      var ok := Attempt(timeout);
      NeverReapsThen(old(log), mid, log);
      ghost var s2 := View();
      TimeoutAttempt(config, s0, s1, s2, first, timeout, ok);
      if !ok {
        TimedFull(config, s0, s1, s2, timeout, first, second);
        return Err(QueueFull);
      }
      mid := log;
      var waited := EnterKernel(second);
      OnlyNeverReaps(mid, log, true);
      NeverReapsThen(old(log), mid, log);
      EnteredKeeps(config, s2, View(), second.takes);
      RunAnyLog(config, log);
      TimedSent(config, s0, s1, s2, View(), timeout, first, second, count);
      if !second.ok {
        return Err(SubmitFailed);
      }
      return count;
    }

    /** Gets the number of pending entries in the submission queue. */
    method PendingSqEntries() returns (r: Result<nat>)
      requires Ready()
      ensures r == if open then Ok(|h.accepted| - |uring.consumed|) else Err(RingClosed)
    {
      RunAnyLog(config, log);
      if !open {
        return Err(RingClosed);
      }
      return Ok(|uring.sq|);
    }

    /** Takes completions off the queue until it is seen empty. The kernel may post more at any
        moment; the loop ends because what it has left to do only shrinks. */
    method DrainQueue() returns (entries: seq<Cqe>)
      requires Valid() && open && !entering && pc == Reaping([])
      modifies this
      ensures Valid() && pc == Reaping(entries) && SameRest(old(View()), View()) && h == old(h)
      // all that was there at the call is taken, and then the queue was seen empty
      ensures old(uring).cq <= entries && uring.cq == []
      ensures KeepsIds(config, old(log), log) && Only(old(log), log, false, true)
    {
      hide Run, Rely, Only, Issued, Careful, Api, Load, Step;
      entries := [];
      OnlyNothing(log);
      while true
        invariant Valid() && pc == Reaping(entries) && SameRest(old(View()), View()) && h == old(h)
        invariant old(uring).cq <= entries + uring.cq
        invariant KeepsIds(config, old(log), log) && Only(old(log), log, false, true)
        decreases Load(uring)
      {
        ghost var s, mid := View(), log;
        Interfere();
        OnlyThen(old(log), mid, log, false, true);
        RelyCompletions(config, s, View());
        // `completion()` is a snapshot: what is posted from here on is for the next round
        var n := |uring.cq|;
        if n == 0 {
          break;
        }
        s, mid := View(), log;
        Interfere();
        OnlyThen(old(log), mid, log, false, true);
        RelyCompletions(config, s, View());
        entries := entries + uring.cq[..n];
        OnlyStep(old(log), log, Drain(n), false, true);
        DrainShape(config, View(), n);
        Perform(Drain(n));
      }
    }

    /** The buffer handed back for `result` with the data owned under `id`: cut or padded to
        the result unless that is an error or already its length. */
    method TakeBuffer(id: nat, result: int) returns (buffer: Option<seq<Byte>>)
      requires id in ownedData ==> ownedData[id].addr in mem
      ensures buffer == EventFor(ownedData, mem, id, result).buffer
      ensures buffer.Some? <==> id in ownedData && ownedData[id].Buffer?
      // unchanged on an error; else of the length reported, what was there followed by zeros
      ensures buffer.Some? && result < 0 ==> buffer.value == mem[ownedData[id].addr]
      ensures buffer.Some? && result >= 0 ==>
        && |buffer.value| == result
        && forall i :: 0 <= i < result ==>
             buffer.value[i] == if i < |mem[ownedData[id].addr]| then mem[ownedData[id].addr][i] else 0
    {
      buffer := None;
      if id in ownedData {
        match ownedData[id] {
          case Buffer(addr) =>
            var buf := mem[addr];
            if result < 0 || |buf| == result {
              buffer := Some(buf);
            } else if result < |buf| {
              buffer := Some(buf[..result]);
            } else {
              buffer := Some(buf + Zeros(result - |buf|));
            }
          case _ =>
        }
      }
    }

    /** Processes one completion: removes the data owned under its id and hands it out. */
    method ReleaseOne(entry: Cqe) returns (event: CompletionEvent)
      requires Valid() && pc.Reaping? && |pc.entries| > 0 && pc.entries[0] == entry
      modifies this
      ensures Valid() && log == old(log) + [Release] && View() == Step(config, old(View()), Release)
      ensures h.events == old(h).events + [event]
      ensures Issued(config, log) <==> Issued(config, old(log))
      ensures Careful(config, log) <==> Careful(config, old(log))
    {
      hide Run, AnyLog, Issued, Careful;
      RunAnyLog(config, log);
      OwnedIsLive(config, View());
      var id := entry.job.op.id;
      var buffer := TakeBuffer(id, entry.result);
      event := CompletionEvent(id, entry.result, buffer);
      assert event == EventFor(ownedData, mem, id, entry.result);
      hide EventFor;
      if id in ownedData { mem := mem - {ownedData[id].addr}; }
      ownedData := ownedData - {id};
      pc := Reaping(pc.entries[1..]);
      h := h.(reaped := h.reaped + [entry], events := h.events + [event]);
      log := log + [Release];
      RunAppend(config, old(log), Release);
      CarefulAppend(config, old(log), Release);
    }

    /** The second loop: one event for each entry taken, in order. */
    method ProcessEntries(entries: seq<Cqe>) returns (completed: seq<CompletionEvent>)
      requires Valid() && pc == Reaping(entries) && !entering
      modifies this
      ensures Valid() && pc == Reaping([])
      ensures Processed(old(View()), View(), entries, completed)
      ensures KeepsIds(config, old(log), log) && Only(old(log), log, false, true)
    {
      hide Run, Rely, Processed, Only, Issued, Careful;
      completed := [];
      ghost var s := View();
      OnlyNothing(log);
      ProcessNone(s);
      for i := 0 to |entries|
        invariant Valid() && pc == Reaping(entries[i..])
        invariant Processed(s, View(), entries[..i], completed)
        invariant KeepsIds(config, old(log), log) && Only(old(log), log, false, true)
      {
        ghost var s1, mid := View(), log;
        Interfere();
        OnlyThen(old(log), mid, log, false, true);
        ghost var s2 := View();
        RelyCompletions(config, s1, s2);
        ReleaseShape(config, s2);
        OnlyStep(old(log), log, Release, false, true);
        var event := ReleaseOne(entries[i]);
        ProcessMore(config, s, s1, s2, View(), entries[..i], completed, entries[i], event);
        completed := completed + [event];
        assert entries[..i + 1] == entries[..i] + [entries[i]];
      }
      assert entries[..|entries|] == entries;
    }

    /** Gets the completion entries, if there are any to process: first all are taken off the
        queue, then each is processed. */
    method GetCompletionEntries() returns (r: Result<seq<CompletionEvent>>, ghost entries: seq<Cqe>)
      requires Ready()
      modifies this
      ensures Ready()
      ensures !old(open) ==> r == Err(RingClosed) && View() == old(View()) && log == old(log)
      ensures old(open) ==> r.Ok? && old(uring).cq <= entries && Processed(old(View()), View(), entries, r.value)
      ensures KeepsIds(config, old(log), log) && Only(old(log), log, false, true)
    {
      hide Run, Rely;
      entries := [];
      if !open {
        return Err(RingClosed), entries;
      }
      Perform(BeginReap);
      var drained := DrainQueue();
      entries := drained;
      var completed := ProcessEntries(drained);
      Perform(EndReap);
      r := Ok(completed);
    }

    /** `the_io_uring = None`. */
    method Close()
      requires Ready()
      modifies this
      ensures Ready() && View() == Step(config, old(View()), CloseRing) && !open && ownedData == old(ownedData)
      ensures log == old(log) + [CloseRing] && (Issued(config, log) <==> Issued(config, old(log)))
      ensures Careful(config, log) <==> Careful(config, old(log))
    {
      open := false;
      log := log + [CloseRing];
      RunAppend(config, old(log), CloseRing);
      CarefulAppend(config, old(log), CloseRing);
    }
  }
}
