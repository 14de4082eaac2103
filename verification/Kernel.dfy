/** The kernel's side of an io_uring instance: the two bounded queues it shares with the ring,
    the requests it works on, and the steps it takes on its own. */
module Kernel {
  import opened Types

  datatype Config = Config(capacity: nat, cqSize: nat, sqpoll: bool, autosubmit: bool)

  type Memory = map<Addr, seq<Byte>>

  /** An operation the kernel works on. `image` is the operation's memory as the kernel has
      left it: the bytes it was submitted with, overlaid with the kernel's writes. */
  datatype Job = Job(op: Sqe, image: seq<Byte>)

  /** A completion queue entry. The ring's code reads only the operation's id and `result`;
      `req` (the kernel's request number) and `job` tie it to its submission in the proofs. */
  datatype Cqe = Cqe(req: nat, job: Job, result: int)

  /** The first four fields are the instance; the others record what the kernel did. Requests
      are numbered in the order the kernel took them. */
  datatype Uring = Uring(
    sq: seq<Sqe>,
    inflight: map<nat, Job>,
    cq: seq<Cqe>,
    overflow: seq<Cqe>,
    consumed: seq<Sqe>,                // entries taken, in order
    posted: seq<Cqe>,                  // completions posted, in order
    postedAt: map<nat, nat>,           // request number to its position in `posted`
    silenced: set<nat>,                // requests that ended without a completion
    fault: bool)                       // the kernel touched memory that was not there

  datatype KStep =
    | Consume
    | Write(req: nat, at: nat, data: seq<Byte>)
    | Touch(req: nat)
    | Complete(req: nat, result: int)
    | Cancel(req: nat)
    | Flush

  function EmptyUring(): Uring {
    Uring([], map[], [], [], [], [], map[], {}, false)
  }

  /** Each entry from the t-th up to the one before the u-th is linked to its successor. */
  predicate LinkedTo(entries: seq<Sqe>, t: nat, u: nat) {
    t < u <= |entries| && forall i :: t <= i < u ==> Links(entries[i].flags)
  }

  /** The t-th request asked for no completion on success, and failed. */
  predicate HeadFailed(k: Uring, t: nat) {
    && t < |k.consumed| && SkipsSuccess(k.consumed[t].flags)
    && t in k.postedAt && k.postedAt[t] < |k.posted| && k.posted[k.postedAt[t]].result < 0
  }

  predicate Droppable(k: Uring, req: nat) {
    exists t: nat :: t < req && HeadFailed(k, t) && LinkedTo(k.consumed, t, req)
  }

  predicate KEnabled(c: Config, k: Uring, step: KStep) {
    match step
    case Consume => |k.sq| > 0
    case Write(req, at, data) =>
      req in k.inflight && KernelFills(k.inflight[req].op.kind) && k.inflight[req].op.ptr.Some? &&
      at + |data| <= k.inflight[req].op.extent
    case Touch(req) => req in k.inflight && k.inflight[req].op.ptr.Some?
    case Complete(req, result) => req in k.inflight && -0x8000_0000 <= result < 0x8000_0000
    // when a request with SKIP_SUCCESS fails, the rest of its chain ends without completions
    case Cancel(req) => req in k.inflight && Droppable(k, req)
    case Flush => |k.overflow| > 0 && |k.cq| < c.cqSize
  }

  /** Of the requests in flight, reads and receives are the ones whose memory the kernel writes:
      any bytes, anywhere within the length it was told. */
  lemma WhatTheKernelFills(c: Config, k: Uring, req: nat, at: nat, data: seq<Byte>)
    requires req in k.inflight && k.inflight[req].op.ptr.Some? && at + |data| <= k.inflight[req].op.extent
    ensures KEnabled(c, k, KStep.Write(req, at, data)) <==>
      k.inflight[req].op.kind == Kind.Read || k.inflight[req].op.kind == Recv
  {
  }

  function Splice(buf: seq<Byte>, at: nat, data: seq<Byte>): (r: seq<Byte>)
    ensures |r| == |buf|
    ensures at + |data| <= |buf| ==> forall i :: 0 <= i < |buf| ==>
      r[i] == if at <= i < at + |data| then data[i - at] else buf[i]
  {
    if at + |data| <= |buf| then buf[..at] + data + buf[at + |data|..] else buf
  }

  predicate InMemory(mem: Memory, a: Addr, n: nat) {
    a in mem && n <= |mem[a]|
  }

  /** The job of a fresh request: the kernel sees the memory as it was submitted. */
  function JobFor(e: Sqe, initial: Memory): Job {
    Job(e, if e.ptr.Some? && e.ptr.value in initial then initial[e.ptr.value] else [])
  }

  /** With NODROP a completion that finds the queue full waits in the kernel, in order. */
  function Post(c: Config, k: Uring, p: Cqe): Uring {
    var fits := |k.overflow| == 0 && |k.cq| < c.cqSize;
    k.(inflight := k.inflight - {p.req},
       cq := if fits then k.cq + [p] else k.cq,
       overflow := if fits then k.overflow else k.overflow + [p],
       posted := k.posted + [p],
       postedAt := k.postedAt[p.req := |k.posted|])
  }

  function Silence(k: Uring, req: nat): Uring {
    k.(inflight := k.inflight - {req}, silenced := k.silenced + {req})
  }

  function KUring(c: Config, k: Uring, mem: Memory, initial: Memory, step: KStep): Uring
    requires KEnabled(c, k, step)
  {
    match step
    case Consume =>
      k.(sq := k.sq[1..], inflight := k.inflight[|k.consumed| := JobFor(k.sq[0], initial)],
         consumed := k.consumed + [k.sq[0]])
    case Write(req, at, data) =>
      var j := k.inflight[req];
      k.(inflight := k.inflight[req := j.(image := Splice(j.image, at, data))],
         fault := k.fault || !InMemory(mem, j.op.ptr.value, at + |data|))
    case Touch(req) =>
      var op := k.inflight[req].op;
      k.(fault := k.fault || !InMemory(mem, op.ptr.value, op.extent))
    case Complete(req, result) =>
      var j := k.inflight[req];
      if SkipsSuccess(j.op.flags) && result >= 0 then Silence(k, req) else Post(c, k, Cqe(req, j, result))
    case Cancel(req) => Silence(k, req)
    case Flush => k.(cq := k.cq + [k.overflow[0]], overflow := k.overflow[1..])
  }

  /** The only step that changes the process's memory is a write through a request's pointer. */
  function KMemory(k: Uring, mem: Memory, step: KStep): Memory {
    if step.Write? && step.req in k.inflight && k.inflight[step.req].op.ptr.Some? then
      var a := k.inflight[step.req].op.ptr.value;
      if InMemory(mem, a, step.at + |step.data|) then mem[a := Splice(mem[a], step.at, step.data)] else mem
    else mem
  }
}
