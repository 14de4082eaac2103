/** A caller of the wrappers, with two operations under way at once: what the contracts of the
    calls in between promise is enough to know what each of them hands back. */
module Client {
  import opened Types
  import opened Kernel
  import opened Machine
  import opened Invariants
  import opened Ring
  import opened PyRing
  import Files

  /** An event of `data`, written from its start: what it reports on is what it carries. */
  predicate HandsBack(ev: CompletionEvent, id: nat, data: seq<Byte>) {
    ev.userData == id && 0 <= ev.result <= |data| ==> ev.buffer == Some(data[..ev.result])
  }

  /** A `prep_write` of all of `data` that returned `id`, seen from a later log. */
  lemma WrittenLater(c: Config, s: State, log: seq<Action>, now: seq<Action>, env: Enter, file: Result<int>,
                     supported: set<Kind>, data: seq<Byte>, e: Sqe, r: Result<nat>, i: nat)
    requires |data| < BIT_63 && e.kind == Kind.Write && r.Ok?
    requires OwnedCall(c, s, Run(c, log), env, file, Files.WriteRefusal(supported, Kind.Write, 0, |data|, |data|, 0), e,
                       Files.Slice(data, |data|, 0), r)
    requires log <= now && Issued(c, now) && i < |Run(c, now).h.events|
    ensures HandsBack(Run(c, now).h.events[i], r.value, data)
  {
    hide Run, Issued, OwnedCall, Files.WriteRefusal, Files.Slice;
    var more := now[|log|..];
    assert log + more == now;
    var ev := Run(c, now).h.events[i];
    if ev.userData == r.value && 0 <= ev.result <= |data| {
      WriteEndToEnd(c, s, log, more, env, file, supported, 0, data, |data|, 0, e, r, i);
    }
  }

  /** Prepares two writes, submits, and reaps once. `count` is what the submit reported. */
  method WriteBoth(ring: IoUring, file: AcceptableFile, first: seq<Byte>, second: seq<Byte>,
                   env1: Enter, env2: Enter, env3: Enter)
    returns (ids: Result<(nat, nat)>, count: nat, events: seq<CompletionEvent>)
    requires ring.Valid() && |first| < BIT_63 && |second| < BIT_63 && ring.ring.h.allocs + 2 <= TIMEOUT_ID
    modifies ring.ring
    ensures ring.Valid()
    ensures ids.Ok? ==> ids.value.0 != ids.value.1
    ensures ids.Ok? ==> forall i :: 0 <= i < |events| ==>
      HandsBack(events[i], ids.value.0, first) && HandsBack(events[i], ids.value.1, second)
    // on an idle ring, a kernel that takes what it is given takes both
    ensures
      ids.Ok? && old(ring.ring.uring).sq == [] && ring.ring.config.capacity >= 2 && !ring.ring.config.sqpoll ==>
        env3.takes >= 2 ==> count == 2
  {
    hide Run, Issued, OwnedCall, Processed, NeverReaps, Only, Entered, AskedWith, AnyLog, Files.WriteRefusal,
      Files.Slice;
    events, count := [], 0;
    ghost var c, supported := ring.ring.config, ring.ring.supported;
    ghost var s0, unwrapped := ring.ring.View(), UnwrapFile(file);
    RunAnyLog(c, ring.ring.log);
    var r1 := ring.PrepWrite(file, first, -1, None, None, 0, env1);
    ghost var s1, log1 := ring.ring.View(), ring.ring.log;
    RunAnyLog(c, log1);
    ghost var e1 := Files.WriteEntry(Descriptor(file), |first|, AsU64(-1), s0.nextAddr, 0, s0.counter);
    QueuedOne(c, s0, s1, env1, unwrapped, supported, first, e1, r1);
    if r1.Err? {
      return Err(r1.error), count, events;
    }
    var r2 := ring.PrepWrite(file, second, -1, None, None, 0, env2);
    ghost var s2, log2 := ring.ring.View(), ring.ring.log;
    RunAnyLog(c, log2);
    ghost var e2 := Files.WriteEntry(Descriptor(file), |second|, AsU64(-1), s1.nextAddr, 0, s1.counter);
    QueuedOne(c, s1, s2, env2, unwrapped, supported, second, e2, r2);
    NeverReapsGrows(log1, log2);
    if r2.Err? {
      return Err(r2.error), count, events;
    }
    var submitted := ring.Submit(env3);
    ghost var log3 := ring.ring.log;
    OnlyGrows(log2, log3, true, false);
    if submitted.Err? {
      return Err(submitted.error), count, events;
    }
    count := submitted.value;
    ghost var s3 := ring.ring.View();
    var reaped, entries := ring.GetCompletionEntries();
    ghost var now := ring.ring.log;
    OnlyGrows(log3, now, false, true);
    if reaped.Err? {
      return Err(reaped.error), count, events;
    }
    events := reaped.value;
    ids := Ok((r1.value, r2.value));
    HandedOut(s3, ring.ring.View(), entries, events);
    AllHandBack(c, s0, log1, now, env1, unwrapped, supported, first, e1, r1, |s3.h.events|);
    AllHandBack(c, s1, log2, now, env2, unwrapped, supported, second, e2, r2, |s3.h.events|);
  }

  lemma AllHandBack(c: Config, s: State, log: seq<Action>, now: seq<Action>, env: Enter, file: Result<int>,
                    supported: set<Kind>, data: seq<Byte>, e: Sqe, r: Result<nat>, from: nat)
    requires |data| < BIT_63 && e.kind == Kind.Write && r.Ok?
    requires OwnedCall(c, s, Run(c, log), env, file, Files.WriteRefusal(supported, Kind.Write, 0, |data|, |data|, 0), e,
                       Files.Slice(data, |data|, 0), r)
    requires log <= now && Issued(c, now) && from <= |Run(c, now).h.events|
    ensures var events := Run(c, now).h.events[from..];
      forall i :: 0 <= i < |events| ==> HandsBack(events[i], r.value, data)
  {
    hide Run, Issued, OwnedCall, HandsBack, Files.WriteRefusal, Files.Slice;
    var events := Run(c, now).h.events;
    forall i | 0 <= i < |events[from..]| ensures HandsBack(events[from..][i], r.value, data) {
      WrittenLater(c, s, log, now, env, file, supported, data, e, r, from + i);
    }
  }

  lemma NeverReapsGrows(before: seq<Action>, now: seq<Action>)
    requires NeverReaps(before, now)
    ensures before <= now
  {
  }

  lemma OnlyGrows(before: seq<Action>, now: seq<Action>, enters: bool, reaps: bool)
    requires Only(before, now, enters, reaps)
    ensures before <= now
  {
  }

  lemma HandedOut(s: State, s': State, entries: seq<Cqe>, events: seq<CompletionEvent>)
    requires Processed(s, s', entries, events)
    ensures |s.h.events| <= |s'.h.events| && s'.h.events[|s.h.events|..] == events
  {
  }

  /** A wrapper takes exactly one id, whatever becomes of the call; and if it succeeds on a queue
      with room, of a ring that does not poll, it queues exactly one entry. */
  lemma QueuedOne(c: Config, s: State, s': State, env: Enter, file: Result<int>, supported: set<Kind>,
                  data: seq<Byte>, e: Sqe, r: Result<nat>)
    requires |data| < BIT_63 && s.pc.Idle? && !s.entering && AnyLog(c, s) && AnyLog(c, s')
    requires OwnedCall(c, s, s', env, file, Files.WriteRefusal(supported, Kind.Write, 0, |data|, |data|, 0), e,
                       Files.Slice(data, |data|, 0), r)
    ensures s'.h.allocs == s.h.allocs + 1 && s'.counter == (s.counter + 1) % U64_LIMIT
    ensures r.Ok? ==> r.value == s.counter
    ensures r.Ok? && !c.sqpoll && |s.k.sq| < c.capacity ==> |s'.k.sq| == |s.k.sq| + 1
  {
    hide Files.WriteRefusal, Files.Slice, Partitioned, AllFormed, Ownership, LabelTable, Sized;
  }
}
