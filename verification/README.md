# century-ring: ring ownership, completion and dispatch

century-ring binds Linux `io_uring` to Python. Its Rust core (`TheIoRing`, src/ring.rs) copies
the data of every operation that carries a pointer, pushes the entry, and only then stores the
copy in a map from operation id to owned data; reaping a completion removes the copy again and
hands it out. On top of it sit the Python wrappers (`IoUring`), a dispatcher that wakes waiting
tasks, and file handles that close at most once. This project models all four against a kernel
that may run between any two statements, and proves what the design is for: memory that the
kernel can touch is never freed early, every result comes with its own buffer, nothing is lost
or doubled, and what the kernel reported is what the caller gets.

Nothing here was executed; every statement is one the verifier checks. `dafny verify
dfyconfig.toml` checks the whole project.

## How it is built

| file | content |
|---|---|
| Types.dfy | entries, flags, owned data, events, errors |
| Kernel.dfy | the kernel's steps: take the oldest entry, write through a pointer, read through one, complete, drop a request of a chain, flush the overflow |
| Machine.dfy | ring and kernel as one state machine: every statement that touches shared state is one action, a log of actions is one interleaving, a disabled action does nothing |
| Invariants.dfy, Discipline.dfy, Sharing.dfy | what every action keeps, in layers, and what callers owe for it |
| Futures.dfy | the continuations in which the kernel takes, fails and hands over everything |
| Safety.dfy, Reuse.dfy, Pairing.dfy, Lifetime.dfy | the theorems about whole runs |
| Ring.dfy | class `TheIoRing`, statement by statement, with the kernel let loose (`Interfere`) between statements |
| Shared.dfy, Files.dfy, Network.dfy | the prep functions |
| Handle.dfy | class `FdHandle` |
| PyRing.dfy | class `IoUring`: the wrappers, which allocate ids |
| Client.dfy | a caller with two operations under way, verified from the wrappers' contracts alone |
| Dispatcher.dfy, Manager.dfy | tasks, dispatcher and ring as one state machine, and class `UringIoManager` |

The classes and the machine are tied together: `TheIoRing.Valid()` says that the object's state
is the one the machine reaches on the log of what was done to it (`View() == Run(config, log)`),
`IoUring.Valid()` adds that the log is disciplined (`Issued`: ids come from the counter, one entry
per id, fewer than 2^64 - 256 of them), and `UringIoManager.Valid()` says that ring and dictionary
are in a state of the dispatcher's machine that satisfies its invariant (`SysOk`), of which every
manager method is one event. So each theorem about all logs is a theorem about every object, in
every state, including the states in the middle of a call. Class fields marked auxiliary (`pc`,
`entering`, `h`, `log`) only record; no branch of the modelled code reads them.

What callers owe comes in three strengths, each implying the next. `Issued` is what the wrappers
do. `Careful` is what any caller can check before a push: no accepted entry with the same id is
unreaped, unless neither carries data; an id may be used again after reaping. `NeverClashes` is
enough for memory safety, and `ClashFaults` is its converse for open states between calls. Every
ring method states that it keeps the first two, and every one that does not reap that the log only
grew without reaping, so that calls compose (`Client.WriteBoth`) and other tasks' calls are runs of
the dispatcher's machine (`Manager.OthersRun`).

The first layers of the invariant hold on every log: both queues keep their order and bounds,
each request is in one place, entries point at memory of their own, each allocation has one owner,
what is owned under an id was submitted under it (`AnyLog`). The others hold on careful logs
(`Disciplined`): the owned map holds the data of the pending entries and of nothing else, memory is
as the submission and the kernel's own writes left it, and each event is the one its completion
stands for.

## What is assumed of the kernel

As io_uring_enter(2) and io_uring_setup(2) document it: entries are taken in order, inside
`io_uring_enter` or at any moment with SQPOLL; a request posts at most one completion;
SKIP_SUCCESS suppresses it only on success; with NODROP (asserted at src/ring.rs:308-311) a
completion that finds the queue full waits in order; when a request with SKIP_SUCCESS fails, the
requests linked behind it may end without completions, and no other failed request does. Otherwise
the kernel is an adversary: it chooses when to run, what to take, what to write within the length
it was told, and any 32-bit
result. How many entries one enter takes, and whether it reports an error, are the parameter
`Enter`; no property assumes that it takes all of them unless its statement says so.

## What was found

- **A dispatched event can be lost.** `wait_for_completion` registers its stream before its
  receiver is parked (manager.py:87-91), and the dispatcher pops the waiter before it tries a
  `send_nowait` that fails when nobody is parked (manager.py:46-55). `DeliveredIffParked` gives
  the exact condition: the registered waiter gets the event if and only if its receiver is parked
  at that moment, and otherwise never gets anything. `EventCanBeLost` is a schedule that does
  it: the wait's own submit completes the operation and the dispatcher runs before the waiter
  parks. It needs `receive` to yield once before it parks, which is how the rendezvous stream
  behaves. `WaitIsAnswered` is the positive side.
- **An event can also come before its waiter.** An event dispatched while nobody has registered
  for its id is dropped, and a wait for it that begins later never ends (`TooLateToWait`).
  `RegisteredInTime` says when this cannot happen: when the entry is still queued as the wait begins.
- **A linked chain can leak a buffer.** SKIP_SUCCESS is refused on every entry with owned data,
  but not on a close or socket entry that is linked in front of one. When that entry fails the
  kernel may drop the rest of the chain without completions, and the data of the dropped request
  is never given back (`LinkedChainCanLeak`, `SilencedIsKept`). `LeakPossibleIff` is the exact
  condition for an entry with data at the kernel: everything can settle with its data leaked if and
  only if an earlier entry of its own chain skips success and can still fail or has failed.
- **Dropping the ring object is unsafe while data is in flight.** `close` frees nothing
  (`ClosedForGood`), but dropping the object frees everything it owns; after that the kernel can
  touch freed memory if and only if a request with data is still in flight (`DropIsUnsafeIff`).
- **Ids wrap into the ignored range after 2^63 allocations.** A user completion is ignored
  exactly when its id has reached 2^63 (`IgnoredIffTimeout`); `UserEventCanBeIgnored` is a
  disciplined run that gets there.
- **Ids chosen by the caller need care.** `insert` frees what it replaces, and reaping frees
  whatever is owned under the id (`RegisterKeepsOthersIff`, `ReleaseKeepsOthersIff`).
  `ReuseIsUnsafeIff` is the exact condition for one push: the kernel can touch freed memory,
  without anything else being prepared, if and only if an entry still to be reaped has the id and
  either the new entry carries data or the old one does and is still with the kernel. For an entry
  with data, while no request ended silently, that is just what a caller can see: an unreaped entry
  has the id (`InUseIsVisible`). Checking that no unreaped entry has the id is enough, and then the results about ownership, pairing and leaks
  hold as well; the wrappers always pass. `CallerChosenIdFaults` is a run of a caller who does not check.
- The documentation of `submit_and_wait_with_timeout` (pysrc/century_ring/ring.py:82-95) gives
  the reserved id as 0xFFFFFF00; the code uses 0xFFFF_FFFF_FFFF_FF00, and so does the model.

## Model

| member | source | states |
|---|---|---|
| Invariants.RunAnyLog | src/ring.rs:92-234 | in every state of every interleaving, whoever chose the ids: both queues keep order and bounds, each request is in exactly one place, each entry with a pointer has memory of its own and no SKIP_SUCCESS, each live allocation has exactly one owner and its first length, and what is owned under an id was submitted under it |
| Discipline.RunDisciplined | src/ring.rs:65-234 | for every careful caller, in addition: no unreaped entry shares the id of pending data, the owned map is exactly the pending data, memory is faithful, events are paired; SQPOLL taking and finishing an entry before it is registered included |
| Discipline.IssuedIsCareful | src/ring.rs:129-133 | ids from the counter are distinct, never the reserved one, and so pass the check of a careful caller at every push |
| Discipline.DoneIsReaped | src/ring.rs:208-231 | the check is one a caller can make: an entry is done exactly when its completion was handed out |
| Discipline.ReleaseOwned | src/ring.rs:208-231 | reaping one completion removes that entry's data from the owned map and no other pending entry's |
| Discipline.KernelMemory | src/ring.rs:51-66 | a kernel step of any kind touches only live memory and changes no other pending entry's bytes |
| Discipline.ReleaseEvent | src/ring.rs:208-231 | the buffer looked up by id is the one the completed request was submitted with |
| Sharing.RunGuarded | src/ring.rs:65-89 | as long as no ids clash, whoever chose them, the data of everything with the kernel is owned or held and the kernel has touched nothing else |
| Sharing.CarefulNeverClashes | src/ring.rs:65-89 | careful callers never let ids clash |
| Safety.MemorySafe | src/ring.rs:51-66 | as long as no ids clash, and so for careful callers and the wrappers: at every moment the kernel has touched no memory that was not there, and every request in flight points at live memory at least as long as it was told |
| Safety.OwnedExactly | src/ring.rs:65-89 | for careful callers the keys of the owned map are exactly the ids of accepted, not yet reaped entries with data, less the one that a running prep call still holds |
| Reuse.RegisterKeepsOthersIff | src/ring.rs:71-89 | registering frees nothing else that is owned if and only if nothing is owned under that id yet |
| Reuse.ReleaseKeepsOthersIff | src/ring.rs:209-211 | reaping frees no other pending entry's data if and only if no other pending entry has the reaped one's id |
| Reuse.ClashFaults | src/ring.rs:208-211 | from any open state between calls in which an entry with data is with the kernel and another one with its id is still to be reaped, some continuation makes the kernel touch freed memory |
| Reuse.ReuseIsUnsafeIff | src/ring.rs:71-89 | pushing under an id makes such a continuation possible if and only if the id is in use; an id that no unreaped entry has is not in use |
| Reuse.InUseIsVisible | src/ring.rs:71-89 | for an entry with data, while no request ended silently, an id is in use if and only if some accepted, unreaped entry has it |
| Reuse.CallerChosenIdFaults | src/ring.rs:77-80 | a concrete run in which two reads share a caller-chosen id and the kernel writes to freed memory |
| Safety.Conservation | src/ring.rs:92-231 | each accepted entry is in exactly one of queue, in flight, posted, silently ended; nothing else is there; no request is posted twice; completions keep their order; the sizes add up |
| Safety.RefinesUnboundedFifo | src/ring.rs:92-152 | for every capacity and wherever the submits fall: entries taken, then those queued, are the accepted ones in push order; each action appends one, takes the oldest one, or neither |
| Safety.HistoryGrows | src/ring.rs:187-234 | accepted entries, completions and handed-out events are never rewritten by anything that happens later |
| Pairing.ImageIsOverlay | src/files.rs:69-77 | the memory of a request, in flight or finished, is its submitted bytes overlaid with the kernel's writes for that request and no others |
| Pairing.EventIsItsOwn | src/ring.rs:208-231 | each event has the id of its own entry, the kernel's result, and for reads, writes, sends and receives that entry's own memory cut or padded to the result; writes and sends are handed back unchanged; an open, connect, close, socket or timeout entry never gives a buffer, the other four kinds always do |
| Kernel.WhatTheKernelFills | src/network.rs:164-176 | through the pointers it is given the kernel writes for reads and receives, and for nothing else |
| Pairing.WriteRoundTrip | src/files.rs:104-117 | a write or send of `data[off..off+size]` that finishes with 0 <= r <= size, in any interleaving, yields its id and `data[off..off+r]` |
| Pairing.ReadRoundTrip | src/files.rs:69-77 | a read or recv that finishes with 0 <= r <= max_size yields its id and exactly the first r bytes that the kernel's writes for it left |
| Pairing.EventsFollowPosted | src/ring.rs:195-233 | the events handed out are those of the posted completions, in posting order, without a gap |
| Pairing.BatchingIrrelevant | src/ring.rs:187-234 | two runs with the same completions hand out the same events, buffers included, however the reaping was batched or split |
| Pairing.OwnedIsDetermined | src/ring.rs:187-234 | and leave the same owned map |
| Pairing.CounterWraps | src/ring.rs:129-133 | the counter is the number of allocations modulo 2^64, on every log |
| Pairing.UserIdsReapedOnce | src/ring.rs:129-133 | no two events of user entries carry the same id |
| Pairing.IdNamesItsEntry | src/ring.rs:208-230 | an event under the id of an accepted user entry is the event of that entry |
| Pairing.IgnoredIffTimeout | src/ring.rs:38-40 | timeouts are always ignored; a user entry is ignored if and only if its id has reached 2^63, so with at most 2^63 allocations exactly the timeouts are |
| Pairing.UserEventCanBeIgnored | src/ring.rs:38-40 | a run of the wrappers' own ids that hands out a user's completion under id 2^63, which is to be ignored |
| Lifetime.NoLeakAtQuiescence | src/ring.rs:208-231 | once everything has settled, the ids still owned are exactly those of data requests that ended without a completion; if no entry with data follows one that skips success in its chain, nothing is owned and all memory is back |
| Lifetime.LeakPossibleIff | src/files.rs:62-67 | for each entry with data at the kernel: everything can settle with its data leaked if and only if an earlier entry of its own chain skips success and can still fail or has failed |
| Lifetime.PointersPostUnlessChained | src/files.rs:62-67 | an entry with owned data never carries SKIP_SUCCESS, so it ends without a completion only behind an earlier entry of its chain that does |
| Lifetime.LinkedChainCanLeak | src/shared.rs:48-53 | a concrete disciplined run with a linked, success-skipping close that settles with a read buffer still owned |
| Lifetime.SilencedIsKept | src/ring.rs:208-211 | the data of a request that ended without a completion stays owned and allocated for the rest of the run |
| Lifetime.ClosedForGood | src/ring.rs:246-249 | after close, whatever is called, nothing more is accepted, taken, reaped or handed out, the owned map never changes, and what it holds stays allocated |
| Lifetime.DropIsUnsafeIff | src/ring.rs:51-66 | after the object is dropped, which frees all it owns, the kernel can touch freed memory if and only if a request with data is still in flight |
| Ring.TheIoRing.constructor | src/ring.rs:315-321 | a new ring is the machine's initial state |
| Ring.TheIoRing.TryPush | src/ring.rs:104 | pushing succeeds if and only if the queue has room |
| Ring.TheIoRing.Autosubmit | src/ring.rs:92-119 | at most two attempts and one enter, and that only if the queue was full and autosubmit is on; when the kernel does not poll it succeeds if and only if the queue has room, or autosubmit is on, the enter succeeds and the kernel takes an entry, and each error has its exact condition; when it polls, a full queue still takes nothing unless the kernel took something |
| Ring.TheIoRing.AddOwned | src/ring.rs:71-89 | the held memory becomes the ring's and a value stored under the id before is freed |
| Ring.TheIoRing.GetNextUserData | src/ring.rs:129-133 | returns the counter and advances it, wrapping at 2^64 |
| Ring.TheIoRing.EnterKernel | src/ring.rs:145-152 | the kernel takes a prefix of at least the promised length, however it interferes before and after; the count is what it took when it does not poll, and otherwise a length the queue had during the call |
| Ring.TheIoRing.Submit | src/ring.rs:136-142 | fails on a closed ring without touching it; otherwise reports how many entries were taken, all of them if the kernel takes all, or with SQPOLL a length the queue had during the call; nothing owned changes |
| Ring.TheIoRing.WaitWithTimeout | src/ring.rs:155-175 | owned data is untouched; it fails exactly when the ring is closed, the first submit fails, the queue is full and nothing was taken, or the second submit fails, with the timeout accepted only in the last case; the count it returns is at most what was queued and at least what the kernel promised to take, or with SQPOLL what is not taken at the end, and is exact when the kernel takes all; the entry asked for is a timeout of these seconds and nanoseconds that skips success, under the reserved id; when the kernel takes what it is given the queue is left empty |
| Ring.TheIoRing.PendingSqEntries | src/ring.rs:178-184 | the number of accepted entries not yet taken |
| Ring.TheIoRing.DrainQueue | src/ring.rs:195-204 | ends although the kernel keeps posting, because what it has left to do shrinks; takes everything that was posted, in order, until the queue is seen empty |
| Ring.TheIoRing.TakeBuffer | src/ring.rs:209-224 | handed back only for a buffer; unchanged on an error, otherwise of exactly the reported length: what was there, then zeros |
| Ring.TheIoRing.ReleaseOne | src/ring.rs:208-231 | one completion of the drained list: its id's data leaves the owned map and one event is appended |
| Ring.TheIoRing.ProcessEntries | src/ring.rs:206-231 | one event per completion, in order, with its id and result; exactly the data under those ids leaves the owned map |
| Ring.TheIoRing.GetCompletionEntries | src/ring.rs:187-234 | fails on a closed ring without touching it; otherwise the two loops together, including at least all that was queued at the call |
| Ring.TheIoRing.Close | src/ring.rs:246-249 | the ring is closed and the owned map unchanged |
| Shared.CheckWriteBuffer | src/shared.rs:12-34 | accepts if and only if offset + size <= len, and returns that sum; the `usize` addition never wraps |
| Shared.Refusal | src/files.rs:20-29 | the early errors: an unknown opcode first, then SKIP_SUCCESS (bit 6) on any of the six kinds with owned data, and none otherwise |
| Shared.PushOwned | src/files.rs:69-78 | copy, push, register: success exactly as for the push, then the entry points at a fresh copy that the ring owns; every failure leaves owned data, accepted entries and live memory as they were; care with ids is kept |
| Shared.PushedOutcome | src/files.rs:108-119 | registering after the push, whatever the kernel did in between, adds exactly this entry's data |
| Shared.FailedOutcome | src/ring.rs:92-119 | a failed push gives the copy back and leaves everything else as it was |
| Shared.PrepClose | src/shared.rs:38-56 | no owned data and SKIP_SUCCESS allowed; all or nothing; on success the last entry accepted asks to close this very descriptor, with bits 0 to 6 of the flags |
| Files.PrepOpenAt | src/files.rs:11-46 | refused for an unknown opcode or SKIP_SUCCESS before anything is touched; else the copy is the path with its final zero, owned as a path, and the entry asks to open it with these operands |
| Files.PrepRead | src/files.rs:50-79 | the same with a zeroed buffer of max_size bytes; the entry asks for max_size bytes at the offset, -1 being 2^64 - 1 |
| Files.WriteRefusal | src/files.rs:93-104 | bounds are checked last, and refused if and only if the slice does not fit |
| Types.AsU64 | src/files.rs:73-76 | the same bits as a `u64`, so that -1 is 2^64 - 1 |
| Types.TruncateFlags | src/files.rs:24-25 | drops bit 7 and nothing else |
| Files.KernelLength | src/files.rs:110 | the u32 length never exceeds the copy, is its length below 2^32, and differs from it by a multiple of 2^32 otherwise |
| Files.PrepWrite | src/files.rs:83-120 | the copy is exactly `data[off..off+size]`; refusals touch nothing; the entry asks to write that many bytes, below 2^32 exactly `size`, at the offset given, -1 being 2^64 - 1 |
| Network.PrepCreateSocket | src/network.rs:16-35 | no owned data and SKIP_SUCCESS allowed; all or nothing; the entry asks for this domain, type and protocol |
| Network.ConnectRefusal | src/network.rs:50-79 | each of the three errors has its exact condition, in the order of the checks |
| Network.PrepConnect | src/network.rs:38-109 | probe, then address, then flags; the ring owns the parsed address, and the entry asks to connect the descriptor to all of it |
| Network.PrepSend | src/network.rs:113-146 | as a write, with the socket flags in place of a file offset |
| Network.PrepRecv | src/network.rs:150-180 | as a read, with the socket flags in place of a file offset |
| Handle.ClosedAtMostOnce | pysrc/century_ring/handle.py:145-160 | over any sequence of closes, successful or raising: at most one attempt to close the descriptor, exactly one if and only if the handle says closed and was not merely marked; it says closed if and only if some action closed it |
| Handle.FirstCloseWins | pysrc/century_ring/handle.py:153-160 | once closed, nothing that is called later changes how it was closed |
| Handle.FdHandle.constructor | pysrc/century_ring/handle.py:125-128 | a new handle is open |
| Handle.FdHandle.Close | pysrc/century_ring/handle.py:153-160 | closes the descriptor only if open; marked closed even when the close raises |
| Handle.FdHandle.Exit | pysrc/century_ring/handle.py:135-142 | leaving the block closes like close, and lets its exception through |
| Handle.FdHandle.MarkClosed | pysrc/century_ring/handle.py:149-150 | marks without closing the descriptor |
| PyRing.UnwrapFile | pysrc/century_ring/ring.py:36-44 | the descriptor, as it is for an integer and from the handle otherwise, unless the handle is already closed, which is its only error |
| PyRing.OrElse | pysrc/century_ring/ring.py:288-289 | an argument that is given is used as it is, zero included |
| PyRing.NextIdIsFresh | src/ring.rs:129-133 | the id handed out next was never pushed under before |
| PyRing.IoUring.NextUserData | pysrc/century_ring/ring.py:235-236 | takes a fresh id and keeps the discipline as long as one is left |
| PyRing.IoUring.PrepRead | pysrc/century_ring/ring.py:213-242 | a negative offset other than -1 fails before an id is taken; a closed handle fails after it; else as the prep function, returning the id of the entry; that entry reads into `byte_count` bytes from the file's descriptor at the offset |
| PyRing.IoUring.PrepWrite | pysrc/century_ring/ring.py:244-304 | the same, with count and offset defaulting to the whole buffer; the entry writes `count` bytes to the file's descriptor at the file offset |
| PyRing.IoUring.PrepSend | pysrc/century_ring/ring.py:429-481 | the same with the socket flags and without a file offset |
| PyRing.IoUring.PrepRecv | pysrc/century_ring/ring.py:409-427 | the same as a read with the socket flags and without an offset |
| PyRing.IoUring.PrepOpenAt | pysrc/century_ring/ring.py:132-192 | the directory's descriptor is used without asking whether it is closed, and is -1 when there is none; the entry opens the path with its final zero |
| PyRing.IoUring.PrepConnect | pysrc/century_ring/ring.py:353-407 | a closed handle is never connected; otherwise as the prep function, with the handle's own descriptor |
| PyRing.IoUring.PrepCreateSocket | pysrc/century_ring/ring.py:306-351 | as the prep function, under a fresh id, with the operands in order |
| PyRing.IoUring.PrepClose | pysrc/century_ring/ring.py:194-211 | a handle is marked closed if and only if its close entry was accepted, and that is the one step its log grows by; the entry closes the handle's own descriptor; an error leaves it open; a closed handle never gets a second entry |
| PyRing.IoUring.Submit | pysrc/century_ring/ring.py:63-80 | returns the number of entries taken, or with SQPOLL a length the queue had during the call; fails on a closed ring without touching it, otherwise exactly when the system call does; keeps the discipline |
| PyRing.IoUring.SubmitAndWaitWithTimeout | pysrc/century_ring/ring.py:82-95 | the timed wait with all its cases; the entry accepted is the timeout asked for, under 0xFFFF_FFFF_FFFF_FF00; keeps the discipline |
| PyRing.IoUring.GetCompletionEntries | pysrc/century_ring/ring.py:97-102 | fails on a closed ring; otherwise every event returned is the one its completion stands for, that of an accepted entry, whatever the kernel did meanwhile, and all that was queued is included; a buffer comes with reads, writes, sends and receives, and with no other kind |
| PyRing.WriteEndToEnd | pysrc/century_ring/ring.py:244-304 | from a `prep_write` or `prep_send` that returned an id to the event under that id, over anything called in between: the buffer is `data[off..off+result]` for 0 <= result <= size |
| PyRing.ReadEndToEnd | pysrc/century_ring/ring.py:213-242 | from a `prep_read` or `prep_recv` to its event: the first `result` bytes the kernel wrote for this request |
| Client.WriteBoth | pysrc/century_ring/ring.py:244-304 | two writes prepared one after the other, submitted and reaped: their ids differ, the submit reports 2 on an idle ring whose kernel takes both, and each event under either id that reports 0 <= r <= len hands back the first r bytes of that write's own data |
| Dispatcher.DeliverReaches | pysrc/century_ring/aio/manager.py:42-57 | one event reaches the latest stream registered under its id, and only if it is parked; ignored events reach none; no other stream and no other id's entry changes |
| Dispatcher.DeliverAllServes | pysrc/century_ring/aio/manager.py:42-57 | over a whole turn, a parked waiter has received an event of its own id if and only if the turn held one, and otherwise still waits; nothing later in the turn undoes it |
| Dispatcher.EveryRunIsOk | pysrc/century_ring/aio/manager.py:32-57 | the dispatcher's invariant holds in every state of every run: it has handled exactly what the ring handed out, and the dictionary leads to the latest streams |
| Dispatcher.DispatcherSafe | pysrc/century_ring/aio/manager.py:42-57 | over all interleavings and cancellations, from any state of the machine: what a waiter received is an event that the ring handed out under its own id and that is not ignored, and no event reaches two waiters |
| Dispatcher.ReceivedForGood | pysrc/century_ring/aio/manager.py:46-57 | in no run does a waiter that received an event receive another one |
| Dispatcher.CancelledForGood | pysrc/century_ring/aio/manager.py:90-95 | in no run does a waiter that was cancelled receive an event |
| Dispatcher.RegisteredInTime | pysrc/century_ring/aio/manager.py:84-88 | if the entry is still queued when the wait begins, its event was not dispatched when the waiter is in place, whatever the submit and the kernel do |
| Dispatcher.ParkedIsDelivered | pysrc/century_ring/aio/manager.py:46-57 | a waiter parked before its event is dispatched, and left alone, is waiting or has received exactly that event, in every schedule |
| Dispatcher.RegisteredKeepsWaiting | pysrc/century_ring/aio/manager.py:87-91 | until an event under its id is dispatched, a registered waiter remains the one for its id, whatever else is dispatched |
| Dispatcher.WaitIsAnswered | pysrc/century_ring/aio/manager.py:84-95 | the whole life of a wait: queued at the start, parked before an event under its id is dispatched, left alone; then it has received an event exactly if one was dispatched under its id, and that event is the one of the very entry that was queued |
| Dispatcher.WaiterGetsItsBytes | pysrc/century_ring/aio/manager.py:90-95 | if that entry was a write or send of `data[off..off+size]`, the event received with a result between 0 and size carries `data[off..off+result]` |
| Dispatcher.TooLateToWait | pysrc/century_ring/aio/manager.py:46-50 | with the wrappers' ids, a wait that begins after its event was dispatched receives nothing in any run |
| Dispatcher.DeliveredIffParked | pysrc/century_ring/aio/manager.py:46-55 | the registered waiter gets the event if and only if it is parked at that moment; if not, it never gets anything |
| Dispatcher.ForgottenForever | pysrc/century_ring/aio/manager.py:46-55 | a waiter that is out of the dictionary unserved receives nothing in any continuation |
| Dispatcher.ReplacedIsForgotten | pysrc/century_ring/aio/manager.py:88 | waiting for the same id again cuts off the earlier waiter |
| Dispatcher.EventCanBeLost | pysrc/century_ring/aio/manager.py:52-55 | a concrete schedule in which a queued entry's event is dispatched between registration and parking, dropped, and its waiter waits for ever |
| Manager.UringIoManager.constructor | pysrc/century_ring/aio/manager.py:23-29 | a new manager has no waiters and satisfies the dispatcher's invariant, over a ring that may have handed out events before |
| Manager.OthersRun | pysrc/century_ring/aio/manager.py:37-57 | calls of other tasks that do not reap are a run of the machine and keep its invariant |
| Manager.TurnWakes | pysrc/century_ring/aio/manager.py:42-57 | a turn over everything that was queued wakes whoever was parked for it |
| Manager.UringIoManager.DispatchEvents | pysrc/century_ring/aio/manager.py:42-57 | the loop is the delivery of the events one by one, in order |
| Manager.UringIoManager.DispatchOnce | pysrc/century_ring/aio/manager.py:37-57 | one wake-up reaps everything that was queued, delivers exactly what was handed out, as one event of the machine, and leaves every parked waiter for a queued, unignored id with an event of that id from this very turn and out of the dictionary; a closed ring raises and changes nothing |
| Manager.UringIoManager.BeginWait | pysrc/century_ring/aio/manager.py:84-88 | if told to, it submits first: what is queued is offered to the kernel and all of it gone if the kernel takes all; a closed ring or a failed submit raises its error and registers nothing, and nothing else raises; then the id leads to the new stream |
| Manager.UringIoManager.ParkStream | pysrc/century_ring/aio/manager.py:90-91 | the receiver of this stream suspends; no other stream and no entry of the dictionary changes |
| Manager.UringIoManager.CancelWait | pysrc/century_ring/aio/manager.py:90-95 | a cancelled waiter's stream is closed; no other stream changes and its dictionary entry stays |

## Left out

- the `io_uring` crate: ring indices, barriers, mmap. The queues are bounded sequences.
- `create_io_ring`: builder options, kernel version gate, the opcode probe call. Only capacity, completion queue size, SQPOLL, autosubmit and the set of supported opcodes remain.
- Ring.TheIoRing.EnterKernel: does not model how many completions `wait` waits for; `io_uring_enter` may report what it took before they are there, so its success promises nothing about them. `wait` is the same method as `submit`.
- IO_LINK, IO_HARDLINK, IO_DRAIN, BUFFER_SELECT, FIXED_FILE: decided in the kernel. Of chains only the dropping of requests behind a failed one with SKIP_SUCCESS is modelled; both kinds of link count, and a chain is not cut where a submission ends.
- `OwnedData::TwoPaths`: never constructed.
- real time: timeout durations, eventfd counter values, and the lifetime of the `Timespec` on the stack when the kernel polls or an enter fails.
- the allocator: an address is never used twice, so a stale pointer can only point at nothing.
- `register_eventfd` and the eventfd read: calls into the kernel without effect on the modelled state.
- IP address parsing and the conversion to a socket address: the parsed address is a parameter.
- enums.py, helpers.py, flags.rs, and the constant bits that the wrappers add to open flags and socket types: flag tables.
- pyo3: argument conversion errors, the GIL, the buffer of a `CompletionEvent` as seen from Python. Arguments are in the range of their Rust types.
- sidecar.py and trio.py: task groups, library detection, the instrument, which is one more submit.
- the dispatcher's endless loop: repeated `Dispatch` events, each from one await to the next.
- streams: they are values numbered in order of registration; what a task does after its receive returned, and a cancellation arriving after the event, are not modelled.
- descriptors shared by two handles or passed as raw integers: close-once is per handle.
