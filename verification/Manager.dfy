/** `UringIoManager` (pysrc/century_ring/aio/manager.py). Each method is what one task does
    between two awaits, and is one event of the dispatcher's state machine. */
module Manager {
  import opened Types
  import opened Kernel
  import opened Machine
  import opened Dispatcher
  import Ring
  import opened PyRing

  lemma SameEvents(c: Config, m: Sys, m': Sys)
    requires SysOk(c, m) && m'.hub == m.hub && Run(c, m'.log).h.events == Run(c, m.log).h.events
    ensures SysOk(c, m')
  {
  }

  /** What other tasks did to the ring between two awaits, through calls that do not reap, is a
      run of the machine. */
  lemma OthersRun(c: Config, m: Sys, now: seq<Action>)
    requires SysOk(c, m) && Ring.NeverReaps(m.log, now)
    ensures Sys(now, m.hub) == SysRun(c, m, RingActions(now[|m.log|..])) && SysOk(c, Sys(now, m.hub))
  {
    hide SysOk;
    assert m.log + now[|m.log|..] == now;
    RingActionsRun(c, m, now[|m.log|..]);
    RunSysOkFrom(c, m, RingActions(now[|m.log|..]));
  }

  /** Every parked waiter for whose id a completion was queued has received an event of its id,
      one that was handed out in this turn, and has left the dictionary. */
  ghost predicate Woken(queued: seq<Cqe>, before: Hub, now: Hub, events: seq<CompletionEvent>) {
    forall j :: 0 <= j < |queued| ==>
      var id := queued[j].job.op.id;
      !ShouldBeIgnored(id) && id in before.waiters && Waits(before, id, before.waiters[id]) ==>
        Served(now, id, before.waiters[id], events)
  }

  lemma TurnWakes(queued: seq<Cqe>, entries: seq<Cqe>, before: Hub, events: seq<CompletionEvent>)
    requires HubOk(before) && queued <= entries && |events| == |entries|
    requires forall i :: 0 <= i < |entries| ==> events[i].userData == entries[i].job.op.id
    ensures Woken(queued, before, DeliverAll(before, events), events)
  {
    hide HubOk, DeliverAll, Waits, Served;
    forall j | 0 <= j < |queued|
      ensures var id := queued[j].job.op.id;
        !ShouldBeIgnored(id) && id in before.waiters && Waits(before, id, before.waiters[id]) ==>
          Served(DeliverAll(before, events), id, before.waiters[id], events)
    {
      var id := queued[j].job.op.id;
      if !ShouldBeIgnored(id) && id in before.waiters && Waits(before, id, before.waiters[id]) {
        assert events[j].userData == id;
        DeliverAllServes(before, events, id, before.waiters[id]);
      }
    }
  }

  lemma SubmitTakes(c: Config, s: State, s': State, takes: nat)
    requires Ring.Entered(c, s, s', takes)
    ensures takes >= |s.k.sq| ==> s'.k.sq == []
  {
    Ring.EnteredAll(c, s, s', takes);
  }

  lemma HubIsOk(c: Config, m: Sys)
    requires SysOk(c, m)
    ensures HubOk(m.hub) && |m.hub.streams| == |m.hub.idOf|
  {
  }

  class UringIoManager {
    const ring: IoUring
    const forceSubmissions: bool
    var completionWaiters: map<nat, nat>
    var streams: seq<Stream>
    ghost var idOf: seq<nat>
    ghost var dispatched: seq<CompletionEvent>
    ghost var sentTo: map<nat, nat>

    ghost function View(): Hub
      reads this
    {
      Hub(completionWaiters, streams, idOf, dispatched, sentTo)
    }

    /** The ring and the dispatcher together: a state of the dispatcher's machine. */
    ghost function System(): Sys
      reads this, ring, ring.ring
    {
      Sys(ring.ring.log, View())
    }

    ghost predicate Valid()
      reads this, ring, ring.ring
    {
      ring.Valid() && SysOk(ring.ring.config, System())
    }

    constructor (ring: IoUring, forceSubmissions: bool)
      requires ring.Valid()
      ensures Valid() && this.ring == ring && this.forceSubmissions == forceSubmissions
      ensures View() == EmptyHub().(dispatched := ring.ring.h.events)
    {
      this.ring := ring;
      this.forceSubmissions := forceSubmissions;
      completionWaiters, streams, idOf, sentTo := map[], [], [], map[];
      // what was handed out before reached nobody here
      dispatched := ring.ring.h.events;
    }

    /** The loop over the events of one wake-up. It never awaits. */
    method DispatchEvents(events: seq<CompletionEvent>)
      requires HubOk(View())
      modifies this
      ensures HubOk(View()) && View() == DeliverAll(old(View()), events)
    {
      for i := 0 to |events|
        invariant HubOk(View()) && View() == DeliverAll(old(View()), events[..i])
      {
        var event := events[i];
        DeliverOk(View(), event);
        assert events[..i + 1][..i] == events[..i];
        ghost var position := |dispatched|;
        dispatched := dispatched + [event];
        if ShouldBeIgnored(event.userData) {
          continue;
        }
        if event.userData !in completionWaiters {
          continue;
        }
        var waiter := completionWaiters[event.userData];
        completionWaiters := completionWaiters - {event.userData};
        if !streams[waiter].Parked? {
          continue;
        }
        streams := streams[waiter := Received(event)];
        sentTo := sentTo[waiter := position];
      }
      assert events[..|events|] == events;
    }

    /** One turn of `_dispatch_event_results`, from the eventfd to the next await. */
    method DispatchOnce() returns (r: Result<()>)
      requires Valid()
      modifies this, ring.ring
      ensures Valid() && (r.Ok? <==> old(ring.ring.open))
      ensures old(ring.ring.log) <= ring.ring.log
      ensures r.Ok? ==>
        System() == SysStep(ring.ring.config, old(System()), Dispatch(ring.ring.log[|old(ring.ring.log)|..]))
      ensures r.Err? ==> r.error == RingClosed && System() == old(System())
      // everything that was queued is reaped, and whoever was parked for it is woken
      ensures r.Ok? ==> old(ring.ring.h.reaped) + old(ring.ring.uring.cq) <= ring.ring.h.reaped
      ensures r.Ok? ==>
        && |old(ring.ring.h.events)| <= |ring.ring.h.events|
        && Woken(old(ring.ring.uring.cq), old(View()), View(), ring.ring.h.events[|old(ring.ring.h.events)|..])
    {
      hide Run, SysOk, HubOk, DeliverAll, Woken;
      ghost var before := System();
      HubIsOk(ring.ring.config, before);
      var events, entries := ring.GetCompletionEntries();
      if events.Err? {
        return Err(events.error);
      }
      DispatchEvents(events.value);
      TurnWakes(old(ring.ring.uring.cq), entries, before.hub, events.value);
      assert ring.ring.h.events[|old(ring.ring.h.events)|..] == events.value;
      ghost var reap := ring.ring.log[|old(ring.ring.log)|..];
      assert old(ring.ring.log) + reap == ring.ring.log;
      assert NewEvents(ring.ring.config, old(ring.ring.log), reap) == events.value;
      StepSysOk(ring.ring.config, before, Dispatch(reap));
      r := Ok(());
    }

    /** `wait_for_completion` up to its first await: it submits if told to, and registers.
        When the submit raises, nothing is registered. */
    method BeginWait(userData: nat, env: Ring.Enter) returns (r: Result<nat>)
      requires Valid()
      modifies this, ring.ring
      ensures Valid() && old(ring.ring.log) <= ring.ring.log
      ensures !forceSubmissions ==> r.Ok? && ring.ring.log == old(ring.ring.log)
      ensures r.Ok? ==> r.value == |old(streams)|
      ensures r.Ok? ==>
        System() == SysStep(ring.ring.config, old(System()), Wait(userData, ring.ring.log[|old(ring.ring.log)|..]))
      ensures r.Err? ==> View() == old(View())
      // when told to, it submits first, and raises exactly when that does
      ensures forceSubmissions && !old(ring.ring.open) ==> r == Err(RingClosed)
      ensures forceSubmissions && old(ring.ring.open) ==>
        && Ring.Entered(ring.ring.config, old(ring.ring.View()), ring.ring.View(), env.takes)
        && (r.Err? <==> !env.ok) && (r.Err? ==> r.error == SubmitFailed)
      ensures forceSubmissions && old(ring.ring.open) && env.takes >= |old(ring.ring.uring).sq| ==>
        ring.ring.uring.sq == []
      ensures r.Ok? ==>
        && userData in completionWaiters && completionWaiters[userData] == r.value
        && r.value < |streams| && streams[r.value].Registered?
    {
      hide Run, SysOk, HubOk, DeliverAll, Ring.Taken;
      ghost var before := System();
      HubIsOk(ring.ring.config, before);
      if forceSubmissions {
        var submitted := ring.Submit(env);
        SameEvents(ring.ring.config, before, System());
        if old(ring.ring.open) { SubmitTakes(ring.ring.config, old(ring.ring.View()), ring.ring.View(), env.takes); }
        if submitted.Err? {
          return Err(submitted.error);
        }
      }
      ghost var submit := ring.ring.log[|old(ring.ring.log)|..];
      assert old(ring.ring.log) + submit == ring.ring.log;
      StepSysOk(ring.ring.config, before, Wait(userData, submit));
      r := Ok(|streams|);
      completionWaiters := completionWaiters[userData := |streams|];
      streams := streams + [Registered];
      idOf := idOf + [userData];
    }

    /** The receiver suspends in `receive`. */
    method ParkStream(stream: nat)
      requires Valid() && stream < |streams| && streams[stream].Registered?
      modifies this
      ensures Valid() && System() == SysStep(ring.ring.config, old(System()), Park(stream))
      ensures streams == old(streams)[stream := Parked] && completionWaiters == old(completionWaiters)
    {
      hide Run, SysOk, HubOk;
      StepSysOk(ring.ring.config, System(), Park(stream));
      streams := streams[stream := Parked];
    }

    /** The waiting task is cancelled: leaving `async with` closes the receiver. The entry in
        the dictionary stays. */
    method CancelWait(stream: nat)
      requires Valid() && stream < |streams| && (streams[stream].Registered? || streams[stream].Parked?)
      modifies this
      ensures Valid() && System() == SysStep(ring.ring.config, old(System()), Event.Cancel(stream))
      ensures streams == old(streams)[stream := Cancelled] && completionWaiters == old(completionWaiters)
    {
      hide Run, SysOk, HubOk;
      StepSysOk(ring.ring.config, System(), Event.Cancel(stream));
      streams := streams[stream := Cancelled];
    }
  }
}
