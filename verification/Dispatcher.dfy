/** The completion dispatcher (pysrc/century_ring/aio/manager.py) as a state machine: any
    number of tasks waiting for ids, one dispatcher task, and the ring, interleaved only where
    the code awaits. A stream is a rendezvous without a buffer: `send_nowait` succeeds only
    while the receiver is parked in `receive`, and between registering and parking there is an
    await. Cancelling a waiter closes its receiving end. */
module Dispatcher {
  import opened Types
  import opened Kernel
  import opened Machine
  import opened Invariants
  import opened Discipline
  import opened Futures
  import opened Safety
  import opened Pairing

  datatype Stream = Registered | Parked | Received(event: CompletionEvent) | Cancelled

  /** `waiters` is the dictionary from ids to the sending ends. The rest is the streams, which
      are numbered in the order of their registration, and what happened to the events. */
  datatype Hub = Hub(
    waiters: map<nat, nat>,
    streams: seq<Stream>,
    idOf: seq<nat>,                        // the id each stream was registered for
    dispatched: seq<CompletionEvent>,      // every event the ring has handed out, in order
    sentTo: map<nat, nat>)                 // stream to the position of the event it was sent

  function EmptyHub(): Hub {
    Hub(map[], [], [], [], map[])
  }

  /** One turn of the dispatching loop. The entry is popped before the send is tried. */
  function Deliver(h: Hub, event: CompletionEvent): Hub {
    var h1 := h.(dispatched := h.dispatched + [event]);
    var id := event.userData;
    if ShouldBeIgnored(id) || id !in h.waiters then h1
    else
      var w := h.waiters[id];
      var h2 := h1.(waiters := h.waiters - {id});
      if w < |h.streams| && h.streams[w].Parked?
      then h2.(streams := h.streams[w := Received(event)], sentTo := h.sentTo[w := |h.dispatched|])
      else h2
  }

  function DeliverAll(h: Hub, events: seq<CompletionEvent>): Hub {
    if |events| == 0 then h else Deliver(DeliverAll(h, events[..|events| - 1]), events[|events| - 1])
  }

  /** Registering replaces whatever was registered for the id. */
  function RegisterWaiter(h: Hub, id: nat): Hub {
    h.(waiters := h.waiters[id := |h.streams|], streams := h.streams + [Registered], idOf := h.idOf + [id])
  }

  // ---- the machine ------------------------------------------------------------------------

  datatype Sys = Sys(log: seq<Action>, hub: Hub)

  datatype Event =
    | RingAction(a: Action)                    // a task prepares or submits, or the kernel runs
    | Wait(id: nat, submit: seq<Action>)       // wait_for_completion up to its first await
    | Park(stream: nat)                        // its receiver suspends in `receive`
    | Cancel(stream: nat)
    | Dispatch(reap: seq<Action>)              // the dispatcher from one await to the next

  predicate AtRest(s: State) {
    s.pc.Idle? && !s.entering
  }

  predicate EventEnabled(c: Config, m: Sys, x: Event) {
    match x
    case RingAction(a) => !Reaps(a)
    case Wait(id, submit) =>
      && (forall i :: 0 <= i < |submit| ==> Enters(submit[i]) || submit[i].Env?)
      && AtRest(Run(c, m.log)) && AtRest(Run(c, m.log + submit))
    case Park(stream) => stream < |m.hub.streams| && m.hub.streams[stream].Registered?
    case Cancel(stream) =>
      stream < |m.hub.streams| && (m.hub.streams[stream].Registered? || m.hub.streams[stream].Parked?)
    case Dispatch(reap) =>
      && (forall i :: 0 <= i < |reap| ==> Reaps(reap[i]) || reap[i].Env?)
      && AtRest(Run(c, m.log)) && AtRest(Run(c, m.log + reap))
  }

  /** What was handed out by the actions in `more`. */
  function NewEvents(c: Config, log: seq<Action>, more: seq<Action>): seq<CompletionEvent> {
    var before, after := Run(c, log).h.events, Run(c, log + more).h.events;
    if |before| <= |after| then after[|before|..] else []
  }

  function SysStep(c: Config, m: Sys, x: Event): Sys {
    if !EventEnabled(c, m, x) then m
    else match x
      case RingAction(a) => m.(log := m.log + [a])
      case Wait(id, submit) => Sys(m.log + submit, RegisterWaiter(m.hub, id))
      case Park(stream) => m.(hub := m.hub.(streams := m.hub.streams[stream := Parked]))
      case Cancel(stream) => m.(hub := m.hub.(streams := m.hub.streams[stream := Cancelled]))
      case Dispatch(reap) => Sys(m.log + reap, DeliverAll(m.hub, NewEvents(c, m.log, reap)))
  }

  function SysRun(c: Config, m: Sys, run: seq<Event>): Sys {
    if |run| == 0 then m else SysStep(c, SysRun(c, m, run[..|run| - 1]), run[|run| - 1])
  }

  function Start(): Sys {
    Sys([], EmptyHub())
  }

  // ---- one delivery ---------------------------------------------------------------------------

  /** What holds between any two awaits: the dictionary leads to the latest stream registered
      for the id, which has received nothing; a stream that received something received one
      dispatched event, of its own id; and no event went to two streams. */
  ghost predicate HubOk(h: Hub) {
    && |h.streams| == |h.idOf|
    && WaitersOk(h.waiters, h.streams, h.idOf)
    && SentOk(h.sentTo, h.streams, h.idOf, h.dispatched)
  }

  ghost predicate WaitersOk(waiters: map<nat, nat>, streams: seq<Stream>, idOf: seq<nat>)
    requires |streams| == |idOf|
  {
    forall id :: id in waiters ==>
      && waiters[id] < |streams| && idOf[waiters[id]] == id && !streams[waiters[id]].Received?
      && forall v :: waiters[id] < v < |idOf| ==> idOf[v] != id
  }

  ghost predicate SentOk(sentTo: map<nat, nat>, streams: seq<Stream>, idOf: seq<nat>, dispatched: seq<CompletionEvent>)
    requires |streams| == |idOf|
  {
    && (forall w :: w in sentTo ==>
         && w < |streams| && sentTo[w] < |dispatched| && streams[w] == Received(dispatched[sentTo[w]])
         && dispatched[sentTo[w]].userData == idOf[w] && !ShouldBeIgnored(idOf[w]))
    && (forall w :: 0 <= w < |streams| && streams[w].Received? ==> w in sentTo)
    && (forall v, w :: v in sentTo && w in sentTo && v != w ==> sentTo[v] != sentTo[w])
  }

  /** An event that reaches no stream. */
  lemma UnsentOk(sentTo: map<nat, nat>, streams: seq<Stream>, idOf: seq<nat>, dispatched: seq<CompletionEvent>,
                 event: CompletionEvent)
    requires |streams| == |idOf| && SentOk(sentTo, streams, idOf, dispatched)
    ensures SentOk(sentTo, streams, idOf, dispatched + [event])
  {
  }

  /** An event that reaches stream w, which had received nothing. */
  lemma SendOk(sentTo: map<nat, nat>, streams: seq<Stream>, idOf: seq<nat>, dispatched: seq<CompletionEvent>,
               event: CompletionEvent, w: nat)
    requires |streams| == |idOf| && SentOk(sentTo, streams, idOf, dispatched)
    requires w < |streams| && !streams[w].Received? && idOf[w] == event.userData && !ShouldBeIgnored(idOf[w])
    ensures SentOk(sentTo[w := |dispatched|], streams[w := Received(event)], idOf, dispatched + [event])
  {
  }

  lemma DeliverOk(h: Hub, event: CompletionEvent)
    requires HubOk(h)
    ensures HubOk(Deliver(h, event))
  {
    hide SentOk, ShouldBeIgnored;
    UnsentOk(h.sentTo, h.streams, h.idOf, h.dispatched, event);
    var id := event.userData;
    if !ShouldBeIgnored(id) && id in h.waiters && h.streams[h.waiters[id]].Parked? {
      SendOk(h.sentTo, h.streams, h.idOf, h.dispatched, event, h.waiters[id]);
    }
  }

  /** Dispatching one event reaches the latest stream registered for its id, and that one only
      if it is parked; no other stream changes and no other id's entry does. */
  lemma DeliverReaches(h: Hub, event: CompletionEvent)
    requires HubOk(h)
    ensures var h', id := Deliver(h, event), event.userData;
      && (ShouldBeIgnored(id) ==> h' == h.(dispatched := h.dispatched + [event]))
      && (!ShouldBeIgnored(id) ==> h'.waiters == h.waiters - {id})
      && |h'.streams| == |h.streams|
      && (forall w :: 0 <= w < |h.streams| ==>
           (h'.streams[w] != h.streams[w] <==>
             !ShouldBeIgnored(id) && id in h.waiters && h.waiters[id] == w && h.streams[w].Parked?))
      && (forall w :: 0 <= w < |h.streams| && h'.streams[w] != h.streams[w] ==>
           h'.streams[w] == Received(event) && h.idOf[w] == id && forall v :: w < v < |h.idOf| ==> h.idOf[v] != id)
  {
    if !ShouldBeIgnored(event.userData) && event.userData !in h.waiters {
      assert h.waiters - {event.userData} == h.waiters;
    }
  }

  lemma DeliverShape(h: Hub, event: CompletionEvent)
    ensures var h' := Deliver(h, event);
      h'.dispatched == h.dispatched + [event] && |h'.streams| == |h.streams| && h'.idOf == h.idOf
  {
  }

  lemma {:induction false} DeliverAllOk(h: Hub, events: seq<CompletionEvent>)
    requires HubOk(h)
    ensures var h' := DeliverAll(h, events);
      HubOk(h') && h'.dispatched == h.dispatched + events && |h'.streams| == |h.streams| && h'.idOf == h.idOf
  {
    if |events| > 0 {
      var n := |events| - 1;
      DeliverAllOk(h, events[..n]);
      DeliverOk(DeliverAll(h, events[..n]), events[n]);
      DeliverShape(DeliverAll(h, events[..n]), events[n]);
      hide HubOk, Deliver;
      assert events == events[..n] + [events[n]];
      assert h.dispatched + events[..n] + [events[n]] == h.dispatched + events;
    }
  }

  // ---- the ring under the dispatcher -------------------------------------------------------------

  lemma StepHandsOut(c: Config, s: State, a: Action)
    ensures s.h.events <= Step(c, s, a).h.events
    ensures !a.Release? ==> Step(c, s, a).h.events == s.h.events
  {
  }

  lemma {:induction false} OnlyReleasesHandOut(c: Config, log: seq<Action>, more: seq<Action>)
    ensures Run(c, log).h.events <= Run(c, log + more).h.events
    ensures (forall i :: 0 <= i < |more| ==> !more[i].Release?) ==> Run(c, log + more).h.events == Run(c, log).h.events
  {
    hide Run, Step;
    if |more| == 0 {
      assert log + more == log;
    } else {
      var n := |more| - 1;
      OnlyReleasesHandOut(c, log, more[..n]);
      assert log + more == log + more[..n] + [more[n]];
      RunAppend(c, log + more[..n], more[n]);
      StepHandsOut(c, Run(c, log + more[..n]), more[n]);
    }
  }

  /** The dispatcher has handled exactly what the ring handed out. */
  ghost predicate SysOk(c: Config, m: Sys) {
    HubOk(m.hub) && m.hub.dispatched == Run(c, m.log).h.events
  }

  lemma RegisterOk(h: Hub, id: nat)
    requires HubOk(h)
    ensures HubOk(RegisterWaiter(h, id)) && RegisterWaiter(h, id).dispatched == h.dispatched
  {
  }

  /** A stream that has received nothing parks, or is cancelled. */
  lemma StreamOk(h: Hub, w: nat, next: Stream)
    requires HubOk(h) && w < |h.streams| && !h.streams[w].Received? && !next.Received?
    ensures HubOk(h.(streams := h.streams[w := next]))
  {
  }

  lemma StepSysOk(c: Config, m: Sys, x: Event)
    requires SysOk(c, m)
    ensures SysOk(c, SysStep(c, m, x))
  {
    hide Run, HubOk, Deliver, DeliverAll, RegisterWaiter;
    if EventEnabled(c, m, x) {
      match x {
        case Park(stream) => StreamOk(m.hub, stream, Parked);
        case Cancel(stream) => StreamOk(m.hub, stream, Cancelled);
        case RingAction(a) => OnlyReleasesHandOut(c, m.log, [a]);
        case Wait(id, submit) =>
          OnlyReleasesHandOut(c, m.log, submit);
          RegisterOk(m.hub, id);
        case Dispatch(reap) =>
          OnlyReleasesHandOut(c, m.log, reap);
          DeliverAllOk(m.hub, NewEvents(c, m.log, reap));
          assert m.hub.dispatched + NewEvents(c, m.log, reap) == Run(c, m.log + reap).h.events;
      }
    }
  }

  lemma StartOk(c: Config)
    ensures SysOk(c, Start())
  {
  }

  lemma {:induction false} RunSysOkFrom(c: Config, m: Sys, run: seq<Event>)
    requires SysOk(c, m)
    ensures SysOk(c, SysRun(c, m, run))
  {
    hide SysOk, SysStep;
    if |run| > 0 {
      RunSysOkFrom(c, m, run[..|run| - 1]);
      StepSysOk(c, SysRun(c, m, run[..|run| - 1]), run[|run| - 1]);
    }
  }

  /** The waiter behind this stream is done: it was served, or cancelled. */
  predicate Ended(stream: Stream) {
    stream.Received? || stream.Cancelled?
  }

  lemma {:induction false} DeliverAllKeepsEnded(h: Hub, events: seq<CompletionEvent>, w: nat)
    requires w < |h.streams| && Ended(h.streams[w])
    ensures w < |DeliverAll(h, events).streams| && DeliverAll(h, events).streams[w] == h.streams[w]
  {
    if |events| > 0 { DeliverAllKeepsEnded(h, events[..|events| - 1], w); }
  }

  lemma StepKeepsEnded(c: Config, m: Sys, x: Event, w: nat)
    requires w < |m.hub.streams| && Ended(m.hub.streams[w])
    ensures var h := SysStep(c, m, x).hub; w < |h.streams| && h.streams[w] == m.hub.streams[w]
  {
    hide Run, DeliverAll, NewEvents;
    if x.Dispatch? { DeliverAllKeepsEnded(m.hub, NewEvents(c, m.log, x.reap), w); }
  }

  lemma {:induction false} EndedForGood(c: Config, m: Sys, run: seq<Event>, w: nat)
    requires w < |m.hub.streams| && Ended(m.hub.streams[w])
    ensures var h := SysRun(c, m, run).hub; w < |h.streams| && h.streams[w] == m.hub.streams[w]
  {
    hide SysStep;
    if |run| > 0 {
      EndedForGood(c, m, run[..|run| - 1], w);
      StepKeepsEnded(c, SysRun(c, m, run[..|run| - 1]), run[|run| - 1], w);
    }
  }

  /** A waiter that received an event never receives another one. */
  lemma ReceivedForGood(c: Config, m: Sys, run: seq<Event>, w: nat)
    requires w < |m.hub.streams| && m.hub.streams[w].Received?
    ensures var h := SysRun(c, m, run).hub; w < |h.streams| && h.streams[w] == m.hub.streams[w]
  {
    EndedForGood(c, m, run, w);
  }

  /** A waiter that is cancelled while it waits never receives anything, in any run. */
  lemma CancelledForGood(c: Config, m: Sys, run: seq<Event>, w: nat)
    requires w < |m.hub.streams| && (m.hub.streams[w].Registered? || m.hub.streams[w].Parked?)
    ensures var h := SysRun(c, SysStep(c, m, Event.Cancel(w)), run).hub; w < |h.streams| && !h.streams[w].Received?
  {
    EndedForGood(c, SysStep(c, m, Event.Cancel(w)), run, w);
  }

  /** The stream w waits for `id`, and its receiver is parked. */
  predicate Waits(h: Hub, id: nat, w: nat) {
    id in h.waiters && h.waiters[id] == w && w < |h.streams| && h.streams[w].Parked?
  }

  /** It has received one of these events, of its own id, and nobody waits for the id any more. */
  predicate Served(h: Hub, id: nat, w: nat, events: seq<CompletionEvent>) {
    && id !in h.waiters && w < |h.streams| && h.streams[w].Received?
    && h.streams[w].event.userData == id && h.streams[w].event in events
  }

  lemma DeliverServes(h: Hub, event: CompletionEvent, id: nat, w: nat)
    requires HubOk(h) && !ShouldBeIgnored(id) && Waits(h, id, w)
    ensures if event.userData == id then Served(Deliver(h, event), id, w, [event]) else Waits(Deliver(h, event), id, w)
  {
  }

  lemma DeliverKeepsServed(h: Hub, event: CompletionEvent, id: nat, w: nat, events: seq<CompletionEvent>)
    requires HubOk(h) && Served(h, id, w, events)
    ensures Served(Deliver(h, event), id, w, events + [event])
  {
  }

  /** One turn serves every parked waiter for whose id there is an event, and no other. */
  lemma {:induction false} DeliverAllServes(h: Hub, events: seq<CompletionEvent>, id: nat, w: nat)
    requires HubOk(h) && !ShouldBeIgnored(id) && Waits(h, id, w)
    ensures if exists i :: 0 <= i < |events| && events[i].userData == id
            then Served(DeliverAll(h, events), id, w, events)
            else Waits(DeliverAll(h, events), id, w)
  {
    if |events| > 0 {
      var n := |events| - 1;
      DeliverAllServes(h, events[..n], id, w);
      DeliverAllOk(h, events[..n]);
      var before := DeliverAll(h, events[..n]);
      hide HubOk, Deliver, DeliverAll, Waits, Served;
      assert events == events[..n] + [events[n]];
      if exists i :: 0 <= i < n && events[..n][i].userData == id {
        var i :| 0 <= i < n && events[..n][i].userData == id;
        assert events[i].userData == id;
        DeliverKeepsServed(before, events[n], id, w, events[..n]);
      } else {
        assert forall i :: 0 <= i < n ==> events[..n][i] == events[i];
        DeliverServes(before, events[n], id, w);
        ServedByMore(Deliver(before, events[n]), id, w, events, n);
      }
      DeliverAllUnfold(h, events);
    }
  }

  lemma ServedByMore(h: Hub, id: nat, w: nat, events: seq<CompletionEvent>, n: nat)
    requires n < |events|
    ensures Served(h, id, w, [events[n]]) ==> Served(h, id, w, events)
  {
  }

  lemma DeliverAllUnfold(h: Hub, events: seq<CompletionEvent>)
    requires |events| > 0
    ensures DeliverAll(h, events) == Deliver(DeliverAll(h, events[..|events| - 1]), events[|events| - 1])
  {
  }

  /** Over all interleavings of tasks, dispatcher, ring and kernel, with any cancellations: what
      a waiter received is an event that the ring handed out under the waiter's own id and that
      is not to be ignored, and no event reaches two waiters. With `ReceivedForGood` a waiter
      receives at most one. */
  lemma DispatcherSafe(c: Config, m: Sys, run: seq<Event>)
    requires SysOk(c, m)
    ensures var m' := SysRun(c, m, run);
      && (forall w :: 0 <= w < |m'.hub.streams| && m'.hub.streams[w].Received? ==>
           && w in m'.hub.sentTo && m'.hub.sentTo[w] < |Run(c, m'.log).h.events|
           && Run(c, m'.log).h.events[m'.hub.sentTo[w]] == m'.hub.streams[w].event
           && w < |m'.hub.idOf| && m'.hub.streams[w].event.userData == m'.hub.idOf[w]
           && !ShouldBeIgnored(m'.hub.idOf[w]))
      && (forall v, w :: v in m'.hub.sentTo && w in m'.hub.sentTo && v != w ==> m'.hub.sentTo[v] != m'.hub.sentTo[w])
  {
    RunSysOkFrom(c, m, run);
    hide Run, SysRun;
  }

  /** So every run from the start, and every further one, is safe. */
  lemma EveryRunIsOk(c: Config, run: seq<Event>)
    ensures SysOk(c, SysRun(c, Start(), run))
  {
    StartOk(c);
    RunSysOkFrom(c, Start(), run);
  }

  /** What a task does to the ring between two awaits, short of reaping: one event per action. */
  function RingActions(more: seq<Action>): seq<Event> {
    seq(|more|, i requires 0 <= i < |more| => RingAction(more[i]))
  }

  lemma {:induction false} RingActionsRun(c: Config, m: Sys, more: seq<Action>)
    requires forall i :: 0 <= i < |more| ==> !Reaps(more[i])
    ensures SysRun(c, m, RingActions(more)) == Sys(m.log + more, m.hub)
  {
    if |more| == 0 {
      assert m.log + more == m.log;
    } else {
      var n := |more| - 1;
      RingActionsRun(c, m, more[..n]);
      assert RingActions(more)[..n] == RingActions(more[..n]);
      assert m.log + more[..n] + [more[n]] == m.log + more;
    }
  }

  // ---- conditional delivery -------------------------------------------------------------------------

  predicate Handled(h: Hub, id: nat) {
    exists i :: 0 <= i < |h.dispatched| && h.dispatched[i].userData == id
  }

  /** A user entry that is still queued has no event. */
  lemma QueuedHasNoEvent(c: Config, log: seq<Action>, q: nat, i: nat)
    requires Issued(c, log) && q < |Run(c, log).k.sq| && i < |Run(c, log).h.events|
    requires Run(c, log).k.sq[q].kind != Timeout
    ensures Run(c, log).h.events[i].userData != Run(c, log).k.sq[q].id
  {
    IssuedIsCareful(c, log);
    RunDisciplined(c, log);
    EventIsItsOwn(c, log, i);
    hide Run, Overlay;
    QueuedNotReaped(c, Run(c, log), q, i);
  }

  lemma QueuedAt(c: Config, s: State, q: nat)
    requires InOrder(c, s) && q < |s.k.sq|
    ensures |s.k.consumed| + q < |s.h.accepted| && s.h.accepted[|s.k.consumed| + q] == s.k.sq[q]
  {
    assert s.h.accepted[|s.k.consumed| + q] == (s.k.consumed + s.k.sq)[|s.k.consumed| + q];
  }

  lemma QueuedNotReaped(c: Config, s: State, q: nat, i: nat)
    requires Disciplined(c, s) && DistinctIds(s) && q < |s.k.sq| && i < |s.h.reaped| && s.k.sq[q].kind != Timeout
    requires s.h.reaped[i].req < |s.h.accepted|
    ensures s.h.accepted[s.h.reaped[i].req].id != s.k.sq[q].id
  {
    hide Ordered, Partitioned, Ownership, AllFormed, OwnedTable, IdTable, MemoryFaithful, EventsPaired;
    var t := |s.k.consumed| + q;
    QueuedAt(c, s, q);
    ReapedAt(c, s, i);
    IdsDiffer(s.h.accepted, s.h.tokenOf, s.h.allocs, t, s.h.reaped[i].req);
  }

  /** If the entry is still queued when `wait_for_completion` is called, then whether or not
      the call submits, and whatever the kernel does meanwhile, its event has not been
      dispatched when the waiter is in place: nothing between the two awaits. */
  lemma RegisteredInTime(c: Config, m: Sys, id: nat, submit: seq<Action>, q: nat)
    requires SysOk(c, m) && EntryWaits(c, m, id, submit, q)
    ensures var m' := SysStep(c, m, Wait(id, submit));
      && !Handled(m'.hub, id) && id in m'.hub.waiters
      && m'.hub.waiters[id] == |m.hub.streams| && m'.hub.streams == m.hub.streams + [Registered]
  {
    forall i | 0 <= i < |m.hub.dispatched| ensures m.hub.dispatched[i].userData != id {
      QueuedHasNoEvent(c, m.log, q, i);
    }
    hide Run, Issued;
  }

  /** A wait for `id` can begin, and its entry is the q-th of the queue. */
  ghost predicate EntryWaits(c: Config, m: Sys, id: nat, submit: seq<Action>, q: nat) {
    && Issued(c, m.log) && EventEnabled(c, m, Wait(id, submit))
    && q < |Run(c, m.log).k.sq| && Run(c, m.log).k.sq[q].id == id && Run(c, m.log).k.sq[q].kind != Timeout
  }

  /** The waiter w for `id`, before and after the event for `id`. */
  ghost predicate Expecting(h: Hub, id: nat, w: nat) {
    && !Handled(h, id) && id in h.waiters && h.waiters[id] == w && w < |h.streams|
  }

  ghost predicate GotIt(h: Hub, id: nat, w: nat) {
    && Handled(h, id) && w < |h.streams| && h.streams[w].Received? && h.streams[w].event.userData == id
    && h.streams[w].event in h.dispatched
  }

  /** The waiter's stream received the event for `id` exactly if it was dispatched. */
  ghost predicate OnTrack(h: Hub, id: nat, w: nat) {
    (Expecting(h, id, w) && h.streams[w].Parked?) || GotIt(h, id, w)
  }

  lemma DeliverOnTrack(h: Hub, event: CompletionEvent, id: nat, w: nat)
    requires HubOk(h) && !ShouldBeIgnored(id) && OnTrack(h, id, w)
    ensures OnTrack(Deliver(h, event), id, w)
  {
    var h' := Deliver(h, event);
    assert h'.dispatched == h.dispatched + [event];
    if event.userData == id { assert h'.dispatched[|h.dispatched|].userData == id; }
    if Handled(h, id) {
      var i :| 0 <= i < |h.dispatched| && h.dispatched[i].userData == id;
      assert h'.dispatched[i].userData == id;
    }
  }

  lemma {:induction false} DeliverAllOnTrack(h: Hub, events: seq<CompletionEvent>, id: nat, w: nat)
    requires HubOk(h) && !ShouldBeIgnored(id) && OnTrack(h, id, w)
    ensures OnTrack(DeliverAll(h, events), id, w)
  {
    if |events| > 0 {
      var n := |events| - 1;
      DeliverAllOk(h, events[..n]);
      DeliverAllOnTrack(h, events[..n], id, w);
      DeliverOnTrack(DeliverAll(h, events[..n]), events[n], id, w);
    }
  }

  /** Nobody waits for the same id again, and nobody cancels this waiter. */
  predicate LeavesAlone(x: Event, id: nat, w: nat) {
    !(x.Wait? && x.id == id) && !(x.Cancel? && x.stream == w)
  }

  lemma StepOnTrack(c: Config, m: Sys, x: Event, id: nat, w: nat)
    requires SysOk(c, m) && !ShouldBeIgnored(id) && OnTrack(m.hub, id, w) && LeavesAlone(x, id, w)
    ensures OnTrack(SysStep(c, m, x).hub, id, w)
  {
    if EventEnabled(c, m, x) && x.Dispatch? {
      DeliverAllOnTrack(m.hub, NewEvents(c, m.log, x.reap), id, w);
    }
    hide Run;
  }

  /** Once parked before its event was dispatched, a waiter that is left alone is either still
      waiting for it, or has received exactly it: no schedule loses it. */
  lemma {:induction false} ParkedIsDelivered(c: Config, m: Sys, run: seq<Event>, id: nat, w: nat)
    requires SysOk(c, m) && !ShouldBeIgnored(id) && Expecting(m.hub, id, w) && m.hub.streams[w].Parked?
    requires forall i :: 0 <= i < |run| ==> LeavesAlone(run[i], id, w)
    ensures SysOk(c, SysRun(c, m, run)) && OnTrack(SysRun(c, m, run).hub, id, w)
  {
    if |run| > 0 {
      var n := |run| - 1;
      ParkedIsDelivered(c, m, run[..n], id, w);
      StepSysOk(c, SysRun(c, m, run[..n]), run[n]);
      StepOnTrack(c, SysRun(c, m, run[..n]), run[n], id, w);
    }
  }

  lemma DeliverHandles(h: Hub, event: CompletionEvent, id: nat)
    ensures Handled(Deliver(h, event), id) <==> Handled(h, id) || event.userData == id
  {
    var h' := Deliver(h, event);
    DeliverShape(h, event);
    if Handled(h, id) {
      var i :| 0 <= i < |h.dispatched| && h.dispatched[i].userData == id;
      assert h'.dispatched[i].userData == id;
    }
    if event.userData == id { assert h'.dispatched[|h.dispatched|].userData == id; }
    if Handled(h', id) {
      var i :| 0 <= i < |h'.dispatched| && h'.dispatched[i].userData == id;
      if i < |h.dispatched| { assert h.dispatched[i].userData == id; }
    }
  }

  lemma DeliverOther(h: Hub, event: CompletionEvent, id: nat, w: nat)
    requires HubOk(h) && Expecting(h, id, w) && h.streams[w].Registered? && event.userData != id
    ensures Expecting(Deliver(h, event), id, w) && Deliver(h, event).streams[w].Registered?
  {
    hide Handled;
    DeliverHandles(h, event, id);
  }

  /** Events of other ids leave a registered waiter as it is. */
  lemma {:induction false} DeliverAllOther(h: Hub, events: seq<CompletionEvent>, id: nat, w: nat)
    requires HubOk(h) && Expecting(h, id, w) && h.streams[w].Registered? && !Handled(DeliverAll(h, events), id)
    ensures Expecting(DeliverAll(h, events), id, w) && DeliverAll(h, events).streams[w].Registered?
  {
    hide HubOk, Deliver, Handled;
    if |events| > 0 {
      var n := |events| - 1;
      DeliverHandles(DeliverAll(h, events[..n]), events[n], id);
      DeliverAllOther(h, events[..n], id, w);
      DeliverAllOk(h, events[..n]);
      DeliverOther(DeliverAll(h, events[..n]), events[n], id, w);
    }
  }

  lemma {:induction false} DeliverAllHandles(h: Hub, events: seq<CompletionEvent>, id: nat)
    requires Handled(h, id)
    ensures Handled(DeliverAll(h, events), id)
  {
    hide Deliver, Handled;
    if |events| > 0 {
      DeliverAllHandles(h, events[..|events| - 1], id);
      DeliverHandles(DeliverAll(h, events[..|events| - 1]), events[|events| - 1], id);
    }
  }

  /** What was handled stays handled. */
  lemma StepHandles(c: Config, m: Sys, x: Event, id: nat)
    requires Handled(m.hub, id)
    ensures Handled(SysStep(c, m, x).hub, id)
  {
    hide Run, DeliverAll, NewEvents;
    if x.Dispatch? { DeliverAllHandles(m.hub, NewEvents(c, m.log, x.reap), id); }
  }

  lemma StepExpecting(c: Config, m: Sys, x: Event, id: nat, w: nat)
    requires SysOk(c, m) && Expecting(m.hub, id, w) && m.hub.streams[w].Registered?
    requires LeavesAlone(x, id, w) && x != Park(w) && !Handled(SysStep(c, m, x).hub, id)
    ensures Expecting(SysStep(c, m, x).hub, id, w) && SysStep(c, m, x).hub.streams[w].Registered?
  {
    hide Run, HubOk, DeliverAll, NewEvents;
    if EventEnabled(c, m, x) && x.Dispatch? { DeliverAllOther(m.hub, NewEvents(c, m.log, x.reap), id, w); }
  }

  /** Until an event under its id is dispatched, a registered waiter is still the one to park,
      whatever else the dispatcher does. */
  lemma {:induction false} RegisteredKeepsWaiting(c: Config, m: Sys, run: seq<Event>, id: nat, w: nat)
    requires SysOk(c, m) && Expecting(m.hub, id, w) && m.hub.streams[w].Registered?
    requires forall i :: 0 <= i < |run| ==> LeavesAlone(run[i], id, w) && run[i] != Park(w)
    requires !Handled(SysRun(c, m, run).hub, id)
    ensures SysOk(c, SysRun(c, m, run)) && Expecting(SysRun(c, m, run).hub, id, w)
    ensures SysRun(c, m, run).hub.streams[w].Registered?
  {
    hide SysOk, SysStep, Handled;
    if |run| > 0 {
      var n := |run| - 1;
      if Handled(SysRun(c, m, run[..n]).hub, id) { StepHandles(c, SysRun(c, m, run[..n]), run[n], id); }
      RegisteredKeepsWaiting(c, m, run[..n], id, w);
      StepSysOk(c, SysRun(c, m, run[..n]), run[n]);
      StepExpecting(c, SysRun(c, m, run[..n]), run[n], id, w);
    }
  }

  lemma StepGrows(c: Config, m: Sys, x: Event)
    requires |m.hub.streams| == |m.hub.idOf|
    ensures var m' := SysStep(c, m, x);
      m.log <= m'.log && m.hub.idOf <= m'.hub.idOf && |m'.hub.streams| == |m'.hub.idOf|
  {
    hide Run, DeliverAll, NewEvents;
    if x.Dispatch? { DeliverAllShape(m.hub, NewEvents(c, m.log, x.reap)); }
  }

  lemma {:induction false} DeliverAllShape(h: Hub, events: seq<CompletionEvent>)
    ensures |DeliverAll(h, events).streams| == |h.streams| && DeliverAll(h, events).idOf == h.idOf
  {
    if |events| > 0 {
      DeliverAllShape(h, events[..|events| - 1]);
      DeliverShape(DeliverAll(h, events[..|events| - 1]), events[|events| - 1]);
    }
  }

  lemma {:induction false} RunGrows(c: Config, m: Sys, run: seq<Event>)
    requires |m.hub.streams| == |m.hub.idOf|
    ensures var m' := SysRun(c, m, run);
      m.log <= m'.log && m.hub.idOf <= m'.hub.idOf && |m'.hub.streams| == |m'.hub.idOf|
  {
    hide SysStep;
    if |run| > 0 {
      RunGrows(c, m, run[..|run| - 1]);
      StepGrows(c, SysRun(c, m, run[..|run| - 1]), run[|run| - 1]);
    }
  }

  /** ev is the event of the t-th accepted entry: the one its completion stands for. */
  ghost predicate EventOfEntry(s: State, t: nat, ev: CompletionEvent) {
    exists i :: 0 <= i < |s.h.reaped| && i < |s.h.events| && s.h.events[i] == ev &&
                s.h.reaped[i].req == t && ev == EventOf(s.h.reaped[i])
  }

  /** An event handed out under the id of the q-th queued entry, in any disciplined future of the
      ring, is the event of that very entry. */
  lemma OwnEvent(c: Config, log: seq<Action>, more: seq<Action>, q: nat, i: nat)
    requires Issued(c, log + more) && q < |Run(c, log).k.sq| && Run(c, log).k.sq[q].kind != Timeout
    requires i < |Run(c, log + more).h.events|
    requires Run(c, log + more).h.events[i].userData == Run(c, log).k.sq[q].id
    ensures EventOfEntry(Run(c, log + more), |Run(c, log).k.consumed| + q, Run(c, log + more).h.events[i])
  {
    hide Run, Issued, Careful, Disciplined, DistinctIds, AnyLog, EventOfEntry, EventOf, Extends;
    var t := |Run(c, log).k.consumed| + q;
    QueuedLater(c, log, more, q);
    IdNamesItsEntry(c, log + more, t, i);
    IssuedIsCareful(c, log + more);
    RunDisciplined(c, log + more);
    HandedOutFor(c, Run(c, log + more), i);
  }

  lemma QueuedLater(c: Config, log: seq<Action>, more: seq<Action>, q: nat)
    requires q < |Run(c, log).k.sq|
    ensures var t := |Run(c, log).k.consumed| + q;
      t < |Run(c, log + more).h.accepted| && Run(c, log + more).h.accepted[t] == Run(c, log).k.sq[q]
  {
    hide Run;
    RunInOrder(c, log);
    QueuedAt(c, Run(c, log), q);
    HistoryGrows(c, log, more);
  }

  lemma HandedOutFor(c: Config, s: State, i: nat)
    requires Disciplined(c, s) && i < |s.h.events| && i < |s.h.reaped|
    ensures EventOfEntry(s, s.h.reaped[i].req, s.h.events[i])
  {
    hide AnyLog, Unmixed, OwnedIsPending, MemoryFaithful, EventOf, ImageOk;
  }

  /** The stream registered by this wait, if it has received something in a later state m', has
      received the event of the entry that was queued when the wait began. */
  lemma ReceivedItsOwn(c: Config, m: Sys, id: nat, submit: seq<Action>, q: nat, m': Sys)
    requires SysOk(c, m) && SysOk(c, m') && EntryWaits(c, m, id, submit, q)
    requires m.log <= m'.log && Issued(c, m'.log) && m.hub.idOf + [id] <= m'.hub.idOf
    requires |m.hub.streams| < |m'.hub.streams| && m'.hub.streams[|m.hub.streams|].Received?
    ensures EventOfEntry(Run(c, m'.log), |Run(c, m.log).k.consumed| + q, m'.hub.streams[|m.hub.streams|].event)
  {
    hide Run, Issued;
    var w := |m.hub.streams|;
    assert m'.hub.idOf[w] == (m.hub.idOf + [id])[w];
    var more := m'.log[|m.log|..];
    assert m.log + more == m'.log;
    OwnEvent(c, m.log, more, q, m'.hub.sentTo[w]);
  }

  /** The whole life of a wait: the entry is still queued when the wait begins, the receiver
      parks before an event under its id is dispatched, and nobody interferes. Then in every continuation the
      waiter has received an event exactly if one was dispatched under its id, and that event is
      the one of the entry that was queued. */
  lemma WaitIsAnswered(c: Config, m: Sys, id: nat, submit: seq<Action>, q: nat, gap: seq<Event>, rest: seq<Event>)
    requires SysOk(c, m) && EntryWaits(c, m, id, submit, q) && !ShouldBeIgnored(id)
    requires forall i :: 0 <= i < |gap| ==>
      LeavesAlone(gap[i], id, |m.hub.streams|) && gap[i] != Park(|m.hub.streams|)
    requires !Handled(SysRun(c, SysStep(c, m, Wait(id, submit)), gap).hub, id)
    requires forall i :: 0 <= i < |rest| ==> LeavesAlone(rest[i], id, |m.hub.streams|)
    ensures var w := |m.hub.streams|;
      var m1 := SysRun(c, SysStep(c, m, Wait(id, submit)), gap);
      var m' := SysRun(c, SysStep(c, m1, Park(w)), rest);
      && OnTrack(m'.hub, id, w)
      && (Issued(c, m'.log) && m'.hub.streams[w].Received? ==>
           EventOfEntry(Run(c, m'.log), |Run(c, m.log).k.consumed| + q, m'.hub.streams[w].event))
  {
    hide Run, Issued, Deliver, DeliverAll, SysRun, EventOfEntry;
    RegisteredInTime(c, m, id, submit, q);
    var w := |m.hub.streams|;
    var m0 := SysStep(c, m, Wait(id, submit));
    assert m0.hub.idOf == m.hub.idOf + [id];
    StepSysOk(c, m, Wait(id, submit));
    StepGrows(c, m, Wait(id, submit));
    hide SysStep;
    RegisteredKeepsWaiting(c, m0, gap, id, w);
    RunGrows(c, m0, gap);
    var m1 := SysRun(c, m0, gap);
    StepSysOk(c, m1, Park(w));
    StepGrows(c, m1, Park(w));
    var m2 := SysStep(c, m1, Park(w));
    ParkStep(c, m1, w);
    ParkedIsDelivered(c, m2, rest, id, w);
    RunGrows(c, m2, rest);
    var m' := SysRun(c, m2, rest);
    if Issued(c, m'.log) && m'.hub.streams[w].Received? { ReceivedItsOwn(c, m, id, submit, q, m'); }
  }

  lemma ParkStep(c: Config, m: Sys, w: nat)
    requires w < |m.hub.streams| && m.hub.streams[w].Registered?
    ensures var h := SysStep(c, m, Park(w)).hub;
      && h.streams == m.hub.streams[w := Parked] && h.waiters == m.hub.waiters && h.dispatched == m.hub.dispatched
  {
  }

  /** And if the entry is a write or send of `data[off..off + size]`, what the waiter receives
      with a result between 0 and size carries exactly the bytes it reports on. */
  lemma WaiterGetsItsBytes(c: Config, log: seq<Action>, more: seq<Action>, t: nat, ev: CompletionEvent,
                           data: seq<Byte>, off: nat, size: nat)
    requires Issued(c, log + more) && EventOfEntry(Run(c, log + more), t, ev)
    requires off + size <= |data| && Submitted(Run(c, log), t, data[off..off + size])
    requires !KernelFills(Run(c, log).h.accepted[t].kind) && 0 <= ev.result <= size
    ensures ev == CompletionEvent(Run(c, log).h.accepted[t].id, ev.result, Some(data[off..off + ev.result]))
  {
    hide Run, Issued, Careful, Submitted, DistinctIds, Disciplined, EventOf;
    IssuedIsCareful(c, log + more);
    var i := HandedOutAt(Run(c, log + more), t, ev);
    WriteRoundTrip(c, log, more, t, i, data, off, size);
  }

  lemma HandedOutAt(s: State, t: nat, ev: CompletionEvent) returns (i: nat)
    requires EventOfEntry(s, t, ev)
    ensures i < |s.h.reaped| && i < |s.h.events| && s.h.events[i] == ev && s.h.reaped[i].req == t
    ensures s.h.reaped[i].result == ev.result
  {
    i :| 0 <= i < |s.h.reaped| && i < |s.h.events| && s.h.events[i] == ev && s.h.reaped[i].req == t &&
         ev == EventOf(s.h.reaped[i]);
  }

  // ---- and what happens otherwise ---------------------------------------------------------------------

  /** w is no longer in the dictionary and has received nothing. */
  ghost predicate Forgotten(h: Hub, w: nat) {
    && w < |h.streams| && !h.streams[w].Received?
    && forall id :: id in h.waiters ==> h.waiters[id] != w
  }

  /** Streams from n on were sent only events from the k-th on. */
  ghost predicate SentLate(h: Hub, n: nat, k: nat) {
    k <= |h.dispatched| && forall w :: w in h.sentTo && w >= n ==> h.sentTo[w] >= k
  }

  lemma {:induction false} DeliverAllSentLate(h: Hub, events: seq<CompletionEvent>, n: nat, k: nat)
    requires SentLate(h, n, k)
    ensures SentLate(DeliverAll(h, events), n, k)
  {
    if |events| > 0 { DeliverAllSentLate(h, events[..|events| - 1], n, k); }
  }

  lemma {:induction false} RunSentLate(c: Config, m: Sys, run: seq<Event>, n: nat, k: nat)
    requires SentLate(m.hub, n, k)
    ensures SentLate(SysRun(c, m, run).hub, n, k)
  {
    if |run| > 0 {
      RunSentLate(c, m, run[..|run| - 1], n, k);
      StepSentLate(c, SysRun(c, m, run[..|run| - 1]), run[|run| - 1], n, k);
      hide SentLate, SysStep;
    }
  }

  lemma StepSentLate(c: Config, m: Sys, x: Event, n: nat, k: nat)
    requires SentLate(m.hub, n, k)
    ensures SentLate(SysStep(c, m, x).hub, n, k)
  {
    hide Run, DeliverAll, NewEvents;
    if x.Dispatch? { DeliverAllSentLate(m.hub, NewEvents(c, m.log, x.reap), n, k); }
  }

  /** Waiting for an id whose event was dispatched already is in vain: as long as the wrappers'
      ids are used, the stream of such a wait never receives anything. */
  lemma TooLateToWait(c: Config, m: Sys, id: nat, submit: seq<Action>, run: seq<Event>)
    requires SysOk(c, m) && EventEnabled(c, m, Wait(id, submit)) && Handled(m.hub, id)
    requires Issued(c, SysRun(c, SysStep(c, m, Wait(id, submit)), run).log)
    ensures var w := |m.hub.streams|; var h := SysRun(c, SysStep(c, m, Wait(id, submit)), run).hub;
      w < |h.streams| && !h.streams[w].Received?
  {
    hide Run, Issued, SysRun, Deliver, DeliverAll;
    var w := |m.hub.streams|;
    var m0 := SysStep(c, m, Wait(id, submit));
    var m' := SysRun(c, m0, run);
    StepSysOk(c, m, Wait(id, submit));
    RunSysOkFrom(c, m0, run);
    RunGrows(c, m0, run);
    assert SentLate(m0.hub, w, |m.hub.dispatched|);
    RunSentLate(c, m0, run, w, |m.hub.dispatched|);
    assert m0.hub.idOf[w] == id;
    Bit63(TIMEOUT_ID);
    if m'.hub.streams[w].Received? {
      SameEventTwice(c, m, m', id, w);
      assert false;
    }
  }

  /** If an event of `id` was dispatched in m, what w received for `id` was that one. */
  lemma SameEventTwice(c: Config, m: Sys, m': Sys, id: nat, w: nat)
    requires SysOk(c, m) && SysOk(c, m') && Handled(m.hub, id) && Issued(c, m'.log) && m.log <= m'.log
    requires w < |m'.hub.streams| && m'.hub.streams[w].Received? && m'.hub.idOf[w] == id
    ensures w in m'.hub.sentTo && (id == TIMEOUT_ID || m'.hub.sentTo[w] < |m.hub.dispatched|)
  {
    hide Run, Issued;
    var j :| 0 <= j < |m.hub.dispatched| && m.hub.dispatched[j].userData == id;
    var i := m'.hub.sentTo[w];
    var more := m'.log[|m.log|..];
    assert m.log + more == m'.log;
    OnlyReleasesHandOut(c, m.log, more);
    if j < i { UserIdsReapedOnce(c, m'.log, j, i); }
  }

  /** Waiting for an id again forgets whoever waited for it before, unless it was served. */
  lemma ReplacedIsForgotten(h: Hub, id: nat)
    requires HubOk(h) && id in h.waiters
    ensures Forgotten(RegisterWaiter(h, id), h.waiters[id])
  {
    assert forall v :: v in h.waiters ==> h.idOf[h.waiters[v]] == v;
  }

  lemma {:induction false} DeliverAllForgotten(h: Hub, events: seq<CompletionEvent>, w: nat)
    requires Forgotten(h, w)
    ensures Forgotten(DeliverAll(h, events), w)
  {
    if |events| > 0 { DeliverAllForgotten(h, events[..|events| - 1], w); }
  }

  /** A forgotten waiter never receives anything, whatever happens. */
  lemma {:induction false} ForgottenForever(c: Config, m: Sys, run: seq<Event>, w: nat)
    requires Forgotten(m.hub, w)
    ensures Forgotten(SysRun(c, m, run).hub, w)
  {
    if |run| > 0 {
      var n := |run| - 1;
      ForgottenForever(c, m, run[..n], w);
      var m', x := SysRun(c, m, run[..n]), run[n];
      if x.Dispatch? { DeliverAllForgotten(m'.hub, NewEvents(c, m'.log, x.reap), w); }
      hide SysRun, Run;
    }
  }

  /** The exact condition of one dispatch: the registered waiter gets the event if and only if
      it is parked at that moment; if it is not, it never gets anything. */
  lemma DeliveredIffParked(c: Config, m: Sys, event: CompletionEvent, run: seq<Event>)
    requires SysOk(c, m) && !ShouldBeIgnored(event.userData) && event.userData in m.hub.waiters
    ensures var w := m.hub.waiters[event.userData]; var h := Deliver(m.hub, event);
      && w < |m.hub.streams| && |h.streams| == |m.hub.streams|
      && (m.hub.streams[w].Parked? <==> h.streams[w] == Received(event))
      && (!m.hub.streams[w].Parked? ==> Forgotten(SysRun(c, Sys(m.log, h), run).hub, w))
  {
    var id := event.userData;
    var w, h := m.hub.waiters[id], Deliver(m.hub, event);
    if !m.hub.streams[w].Parked? {
      assert forall v :: v in h.waiters ==> m.hub.idOf[m.hub.waiters[v]] == v;
      ForgottenForever(c, Sys(m.log, h), run, w);
    }
  }

  // ---- a schedule that loses an event -----------------------------------------------------------------

  function SocketEntry0(): Sqe {
    Sqe(Socket, [2, 1, 0], None, 0, 0, 0)
  }

  /** The submit made by `wait_for_completion` completes the operation at once. */
  function PromptSubmit(): seq<Action> {
    [BeginEnter, Env(Consume), Env(Complete(0, 3)), EndEnter]
  }

  function ReapOne(): seq<Action> {
    [BeginReap, Drain(1), Release, EndReap]
  }

  function PromptPrefix(): seq<Event> {
    [RingAction(NextId), RingAction(Push(SocketEntry0()))]
  }

  function LosingRun(): seq<Event> {
    PromptPrefix() + [Wait(0, PromptSubmit()), Dispatch(ReapOne())]
  }

  lemma SysRunAppend(c: Config, m: Sys, run: seq<Event>, x: Event)
    ensures SysRun(c, m, run + [x]) == SysStep(c, SysRun(c, m, run), x)
  {
    assert (run + [x])[..|run + [x]| - 1] == run;
  }

  function PromptLog(): seq<Action> {
    [NextId, Push(SocketEntry0())]
  }

  function PromptEvent(): CompletionEvent {
    CompletionEvent(0, 3, None)
  }

  /** The ring's states along the losing run. */
  lemma PromptRing(c: Config)
    requires c.capacity > 0 && c.cqSize > 0
    ensures var s, s' := Run(c, PromptLog()), Run(c, PromptLog() + PromptSubmit());
      && Issued(c, PromptLog()) && AtRest(s) && s.k.sq == [SocketEntry0()] && s.h.events == []
      && AtRest(s') && s'.h.events == [] && s'.open && s'.owned == map[]
      && s'.k.cq == [Cqe(0, Job(SocketEntry0(), []), 3)]
  {
    assert [] + PromptLog() == PromptLog();
    RunTwo(c, [], NextId, Push(SocketEntry0()));
    RunFour(c, PromptLog(), BeginEnter, Env(Consume), Env(Complete(0, 3)), EndEnter);
  }

  lemma PromptReap(c: Config)
    requires c.capacity > 0 && c.cqSize > 0
    ensures var s := Run(c, PromptLog() + PromptSubmit() + ReapOne());
      AtRest(s) && s.h.events == [PromptEvent()]
  {
    PromptRing(c);
    hide Run;
    RunFour(c, PromptLog() + PromptSubmit(), BeginReap, Drain(1), Release, EndReap);
  }

  lemma PromptSystem(c: Config)
    ensures SysRun(c, Start(), PromptPrefix()) == Sys(PromptLog(), EmptyHub())
  {
    hide Run;
    var p := PromptPrefix();
    SysRunAppend(c, Start(), [], p[0]);
    SysRunAppend(c, Start(), [p[0]], p[1]);
    assert [] + [p[0]] == [p[0]] && [p[0]] + [p[1]] == p;
    assert [] + [NextId] + [Push(SocketEntry0())] == PromptLog();
  }

  lemma PromptWait(c: Config)
    requires c.capacity > 0 && c.cqSize > 0
    ensures var m := Sys(PromptLog(), EmptyHub());
      && EventEnabled(c, m, Wait(0, PromptSubmit()))
      && SysStep(c, m, Wait(0, PromptSubmit())) == Sys(PromptLog() + PromptSubmit(), RegisterWaiter(EmptyHub(), 0))
  {
    PromptRing(c);
    hide Run, Issued, RegisterWaiter, PromptLog, SocketEntry0;
  }

  lemma PromptDispatch(c: Config)
    requires c.capacity > 0 && c.cqSize > 0
    ensures
      SysStep(c, Sys(PromptLog() + PromptSubmit(), RegisterWaiter(EmptyHub(), 0)), Dispatch(ReapOne())) ==
      Sys(PromptLog() + PromptSubmit() + ReapOne(), Deliver(RegisterWaiter(EmptyHub(), 0), PromptEvent()))
  {
    PromptRing(c);
    PromptReap(c);
    hide Run, Issued, RegisterWaiter, PromptLog, PromptSubmit, SocketEntry0, PromptEvent, Deliver;
    var h := RegisterWaiter(EmptyHub(), 0);
    assert NewEvents(c, PromptLog() + PromptSubmit(), ReapOne()) == [PromptEvent()];
    assert [PromptEvent()][..0] == [];
    assert DeliverAll(h, [PromptEvent()]) == Deliver(DeliverAll(h, []), PromptEvent());
  }

  lemma PromptDropped()
    ensures var h := Deliver(RegisterWaiter(EmptyHub(), 0), PromptEvent());
      h.dispatched == [PromptEvent()] && h.idOf == [0] && Forgotten(h, 0)
  {
  }

  /** The entry is queued when the wait begins and the wait submits it, so its event cannot
      come too early; yet if the dispatcher runs before the receiver parks, the event is
      popped, refused by the stream and dropped, and the waiter waits for ever. */
  lemma EventCanBeLost(c: Config, more: seq<Event>)
    requires c.capacity > 0 && c.cqSize > 0
    ensures var m := SysRun(c, Start(), PromptPrefix());
      && Issued(c, m.log) && Run(c, m.log).k.sq == [SocketEntry0()] && EventEnabled(c, m, Wait(0, PromptSubmit()))
    ensures var m := SysRun(c, Start(), LosingRun());
      && m.hub.dispatched == [PromptEvent()] && m.hub.idOf == [0]
      && Forgotten(SysRun(c, m, more).hub, 0)
  {
    hide Run, Issued, Deliver, SysStep, SysRun, Forgotten, EventEnabled;
    PromptRing(c);
    PromptSystem(c);
    PromptWait(c);
    PromptDispatch(c);
    PromptDropped();
    SysRunAppend(c, Start(), PromptPrefix(), Wait(0, PromptSubmit()));
    SysRunAppend(c, Start(), PromptPrefix() + [Wait(0, PromptSubmit())], Dispatch(ReapOne()));
    assert PromptPrefix() + [Wait(0, PromptSubmit())] + [Dispatch(ReapOne())] == LosingRun();
    ForgottenForever(c, SysRun(c, Start(), LosingRun()), more, 0);
  }
}
