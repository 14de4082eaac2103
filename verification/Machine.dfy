/** The ring and the kernel as one state machine. Every statement of the ring's code that
    touches shared state is one action, and so is every kernel step; an action log is one
    interleaving. A disabled action changes nothing, so `Run` is defined on every log, and a
    statement about `Run(c, log)` for all logs is one about every interleaving, including the
    states in the middle of a call. */
module Machine {
  import opened Types
  import opened Kernel

  /** Where the one running call of the ring's code is. */
  datatype Pc =
    | Idle
    | Holding(e: Sqe)                  // memory copied, entry built, not yet pushed
    | Pushed(e: Sqe)                   // entry pushed, memory not yet in `owned`
    | Reaping(entries: seq<Cqe>)       // entries taken from the queue, not yet processed

  /** What the ring's code did so far; no guard looks at it. */
  datatype History = History(
    accepted: seq<Sqe>,                // pushed entries, in push order
    reaped: seq<Cqe>,                  // completions processed, in order
    events: seq<CompletionEvent>,      // what was handed out for them
    initial: Memory,                   // every allocation's first contents
    tokenOf: map<nat, nat>,            // user id to its position in `accepted`
    tokenAt: map<Addr, nat>,           // address to its position in `accepted`
    allocs: nat,                       // calls of get_next_user_data
    enters: nat)                       // calls of io_uring_enter

  datatype State = State(
    open: bool,
    counter: nat,
    owned: map<nat, OwnedData>,
    mem: Memory,
    nextAddr: nat,
    k: Uring,
    pc: Pc,
    entering: bool,
    h: History)

  datatype Action =
    | NextId
    | Alloc(e: Sqe, bytes: seq<Byte>)
    | Drop
    | Push(e: Sqe)
    | Register
    | BeginEnter
    | EndEnter
    | BeginReap
    | Drain(n: nat)
    | Release
    | EndReap
    | CloseRing
    | Env(step: KStep)

  predicate Enters(a: Action) {
    a.BeginEnter? || a.EndEnter?
  }

  predicate Reaps(a: Action) {
    a.BeginReap? || a.Drain? || a.Release? || a.EndReap?
  }

  function Init(): State {
    State(true, 0, map[], map[], 0, EmptyUring(), Idle, false,
          History([], [], [], map[], map[], map[], 0, 0))
  }

  function Entries(pc: Pc): seq<Cqe> {
    if pc.Reaping? then pc.entries else []
  }

  /** An entry with a pointer as the code builds it: only for a kind that carries one, never
      with SKIP_SUCCESS, never claiming more bytes than were allocated. */
  predicate WellBuilt(e: Sqe, bytes: seq<Byte>) {
    e.ptr.Some? && Carries(e.kind) && e.kind != Timeout && !SkipsSuccess(e.flags) && e.extent <= |bytes|
  }

  predicate Plain(e: Sqe) {
    e.ptr.None? && !Carries(e.kind) && (e.kind == Timeout ==> e.id == TIMEOUT_ID)
  }

  /** The kernel takes entries inside io_uring_enter, or at any moment when it polls. */
  predicate Takes(c: Config, s: State) {
    s.open && (s.entering || c.sqpoll)
  }

  predicate Enabled(c: Config, s: State, a: Action) {
    match a
    case NextId => s.pc.Idle? && !s.entering
    case Alloc(e, bytes) => s.pc.Idle? && !s.entering && WellBuilt(e, bytes) && e.ptr.value == s.nextAddr
    case Drop => s.pc.Holding? && !s.entering
    case Push(e) =>
      s.open && !s.entering && |s.k.sq| < c.capacity &&
      (s.pc == Holding(e) || (s.pc.Idle? && Plain(e)))
    case Register => s.pc.Pushed? && s.pc.e.ptr.Some? && !s.entering
    case BeginEnter => s.open && !s.entering && (s.pc.Idle? || s.pc.Holding?)
    case EndEnter => s.entering
    case BeginReap => s.open && s.pc.Idle? && !s.entering
    case Drain(n) => s.pc.Reaping? && n <= |s.k.cq|
    case Release => s.pc.Reaping? && |s.pc.entries| > 0
    case EndReap => s.pc.Reaping? && |s.pc.entries| == 0
    case CloseRing => s.pc.Idle? && !s.entering
    case Env(step) => KEnabled(c, s.k, step) && (step.Consume? ==> Takes(c, s))
  }

  /** `HashMap::insert` and `HashMap::remove` drop the value that was stored under `id`. */
  function Without(owned: map<nat, OwnedData>, mem: Memory, id: nat): Memory {
    if id in owned then mem - {owned[id].addr} else mem
  }

  /** What the ring hands out for a completion, from the data it owns under that id. */
  function EventFor(owned: map<nat, OwnedData>, mem: Memory, id: nat, result: int): CompletionEvent {
    CompletionEvent(id, result,
      if id in owned && owned[id].Buffer? && owned[id].addr in mem
      then Some(Trim(mem[owned[id].addr], result))
      else None)
  }

  function PushHistory(h: History, e: Sqe): History {
    h.(accepted := h.accepted + [e],
       tokenOf := if e.kind == Timeout then h.tokenOf else h.tokenOf[e.id := |h.accepted|],
       tokenAt := if e.ptr.Some? then h.tokenAt[e.ptr.value := |h.accepted|] else h.tokenAt)
  }

  function Apply(c: Config, s: State, a: Action): State
    requires Enabled(c, s, a)
  {
    match a
    case NextId => s.(counter := (s.counter + 1) % U64_LIMIT, h := s.h.(allocs := s.h.allocs + 1))
    case Alloc(e, bytes) =>
      s.(mem := s.mem[e.ptr.value := bytes], nextAddr := s.nextAddr + 1, pc := Holding(e),
         h := s.h.(initial := s.h.initial[e.ptr.value := bytes]))
    case Drop => s.(mem := if s.pc.e.ptr.Some? then s.mem - {s.pc.e.ptr.value} else s.mem, pc := Idle)
    case Push(e) =>
      s.(k := s.k.(sq := s.k.sq + [e]), pc := if s.pc.Holding? then Pushed(e) else s.pc, h := PushHistory(s.h, e))
    case Register =>
      s.(mem := Without(s.owned, s.mem, s.pc.e.id), owned := s.owned[s.pc.e.id := DataFor(s.pc.e)], pc := Idle)
    case BeginEnter => s.(entering := true, h := s.h.(enters := s.h.enters + 1))
    case EndEnter => s.(entering := false)
    case BeginReap => s.(pc := Reaping([]))
    case Drain(n) => s.(k := s.k.(cq := s.k.cq[n..]), pc := Reaping(s.pc.entries + s.k.cq[..n]))
    case Release =>
      var p := s.pc.entries[0];
      var id := p.job.op.id;
      s.(mem := Without(s.owned, s.mem, id), owned := s.owned - {id}, pc := Reaping(s.pc.entries[1..]),
         h := s.h.(reaped := s.h.reaped + [p], events := s.h.events + [EventFor(s.owned, s.mem, id, p.result)]))
    case EndReap => s.(pc := Idle)
    case CloseRing => s.(open := false)
    case Env(step) => s.(k := KUring(c, s.k, s.mem, s.h.initial, step), mem := KMemory(s.k, s.mem, step))
  }

  function Step(c: Config, s: State, a: Action): State {
    if Enabled(c, s, a) then Apply(c, s, a) else s
  }

  function Run(c: Config, log: seq<Action>): State {
    if |log| == 0 then Init() else Step(c, Run(c, log[..|log| - 1]), log[|log| - 1])
  }

  /** The ids the wrappers use: handed out by the counter, each pushed at most once, and
      fewer of them than there are ids below the one reserved for timeouts. */
  predicate IdStep(s: State, a: Action) {
    && (a.NextId? ==> s.h.allocs < TIMEOUT_ID)
    && (a.Push? && a.e.kind != Timeout ==> a.e.id < s.h.allocs && a.e.id !in s.h.tokenOf)
  }

  predicate Issued(c: Config, log: seq<Action>) {
    |log| == 0 || (Issued(c, log[..|log| - 1]) && IdStep(Run(c, log[..|log| - 1]), log[|log| - 1]))
  }

  lemma RunUnfold(c: Config, log: seq<Action>)
    ensures |log| == 0 ==> Run(c, log) == Init()
    ensures |log| > 0 ==>
      var before := Run(c, log[..|log| - 1]); var last := log[|log| - 1];
      Run(c, log) == Step(c, before, last) && (Issued(c, log) <==> Issued(c, log[..|log| - 1]) && IdStep(before, last))
  {
  }

  lemma RunAppend(c: Config, log: seq<Action>, a: Action)
    ensures Run(c, log + [a]) == Step(c, Run(c, log), a)
    ensures Issued(c, log + [a]) <==> Issued(c, log) && IdStep(Run(c, log), a)
  {
    assert (log + [a])[..|log + [a]| - 1] == log;
  }

  /** Every prefix of a disciplined log is disciplined. */
  lemma {:induction false} IssuedPrefix(c: Config, log: seq<Action>, n: nat)
    requires n <= |log| && Issued(c, log)
    ensures Issued(c, log[..n])
  {
    if n < |log| {
      IssuedPrefix(c, log[..|log| - 1], n);
      assert log[..|log| - 1][..n] == log[..n];
    } else {
      assert log[..n] == log;
    }
  }

  /** Only taking ids and pushing entries is bound by the discipline. */
  lemma {:induction false} IssuedMore(c: Config, log: seq<Action>, more: seq<Action>)
    requires Issued(c, log) && forall i :: 0 <= i < |more| ==> !more[i].NextId? && !more[i].Push?
    ensures Issued(c, log + more)
  {
    if |more| == 0 {
      assert log + more == log;
    } else {
      var n := |more| - 1;
      IssuedMore(c, log, more[..n]);
      assert log + more == log + more[..n] + [more[n]];
      RunAppend(c, log + more[..n], more[n]);
    }
  }

  lemma RunTwo(c: Config, log: seq<Action>, a: Action, b: Action)
    ensures Run(c, log + [a, b]) == Step(c, Step(c, Run(c, log), a), b)
    ensures Issued(c, log + [a, b]) <==> Issued(c, log) && IdStep(Run(c, log), a) && IdStep(Step(c, Run(c, log), a), b)
  {
    RunAppend(c, log, a);
    RunAppend(c, log + [a], b);
    assert log + [a] + [b] == log + [a, b];
  }

  lemma RunThree(c: Config, log: seq<Action>, a: Action, b: Action, d: Action)
    ensures Run(c, log + [a, b, d]) == Step(c, Step(c, Step(c, Run(c, log), a), b), d)
    ensures Issued(c, log + [a, b, d]) <==>
      && Issued(c, log) && IdStep(Run(c, log), a) && IdStep(Step(c, Run(c, log), a), b)
      && IdStep(Step(c, Step(c, Run(c, log), a), b), d)
  {
    RunTwo(c, log, a, b);
    RunAppend(c, log + [a, b], d);
    assert log + [a, b] + [d] == log + [a, b, d];
  }

  lemma RunFour(c: Config, log: seq<Action>, a: Action, b: Action, d: Action, e: Action)
    ensures Run(c, log + [a, b, d, e]) == Step(c, Step(c, Step(c, Step(c, Run(c, log), a), b), d), e)
  {
    RunTwo(c, log, a, b);
    RunTwo(c, log + [a, b], d, e);
    assert log + [a, b] + [d, e] == log + [a, b, d, e];
  }
}
