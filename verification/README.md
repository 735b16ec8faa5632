# Verification of the event library and the quote pipeline

This project models, in Dafny, the parts of ARST_QUOTE where the order of things matters, and proves what they
guarantee.

- **The event library** (`ARSTPevents.cpp`): Win32-style auto-reset and manual-reset events on mutexes and condition
  variables, with multi-waits that register on several events at once and leave expired entries behind.
  - `Records.dfy`: the record of a multi-wait, and what each mutex-protected section does to it.
  - `Protocol.dfy`: the library as a transition system. Any number of threads, events and waits; one program counter
    per thread; one owner per mutex; one step per mutex operation; spurious wake-ups, and time-outs at any moment.
  - `Invariant.dfy`: what every step keeps. `Safety.dfy`: what callers may rely on. `Wakeups.dfy`: no wake-up of
    WaitForMultipleEvents is lost. `Singles.dfy`: when one of WaitForEvent can be. `Results.dfy`: what both report, over
    every run.
  - `Race.dfy`: when the result code misleads. `LateSignals.dfy`: when a signal can come after its wait has been freed.
    `Runs.dfy`, `Frames.dfy`, `Scenes.dfy`: runs, what a step leaves alone, and the runs that these two files need.
  - `Fifo.dfy`: the protocol refines simple events, each a latch and a first-come-first-served queue.
  - `Deadlock.dfy`: exactly when the mutexes can deadlock.
  - `Sections.dfy`, `EventObjects.dfy`: events and waits as objects changed in place by whole critical sections.
    `Alone.dfy`: the protocol, run without interleaving, does what the object does.
- **The heartbeat** (`ARSTHeartbeat.cpp`). `Heartbeat.dfy`: the loop over arbitrary wait outcomes. `SelfAck.dfy`: the
  loop on top of the protocol, when the callback answers its own request (`ARSTServiceHandler.cpp`, `ARSTWebConns.cpp`).
- **The quote pipeline.** `Framing.dfy`: `RecvAll` and the cutting of the feed into lines (`ARSTWebConn.cpp`).
  `Strtok.dfy`, `QueueNode.dfy`: the window of recent keys and the broadcast (`ARSTQueueNode.cpp`). `Delivery.dfy`:
  `SendAll` and what reaches each client (`ARSTServiceHandler.cpp`). `Broadcasts.dfy`: when that can have a gap.

Run `dafny verify dfyconfig.toml` with Dafny 4.11.

## How to read the model

- The protocol starts from events as CreateEvent leaves them and idle threads; the set of events and threads of a run
  is arbitrary. An event created signalled counts as one that has been set once.
- `regs`, `got` and the ledger of an event are history: they record what has happened and decide nothing.
- A setter unlocks a wait and signals its condition in two steps; the signal is sent without the wait's mutex.
- A mutex taken by try-lock never blocks. In `EventObjects` the waits that other threads have locked are a parameter.
- Wait outcomes, received messages, what `send` and `recv` return, and which clients are held elsewhere are arbitrary
  inputs. After the values listed `send` takes all it is given, and `recv` finds the connection closed. In `QueueNode`
  a run may begin with any window, so it also describes a client that joins later.
- The interval of a heartbeat is constant over a run of `Heartbeat.Run`.

Where code and comments differ, the model follows the code: at an idle time equal to the interval the heartbeat makes
a request (`ARSTHeartbeat.cpp` lines 57 and 61, not the table in its lines 8-10).

Findings that the proofs turn into exact statements:

- A deadlock is possible if and only if the arrays of the multi-waits list events in a cycle. The arrays in this
  repository are private pairs, and cannot.
- A call can report a time-out and have got what it waits for if and only if its limit is finite, or is 0 and it is a
  wait-all; `waitIndex` tells.
- A setter can signal a wait that has been freed, for almost every call that may sleep; without spurious wake-ups an
  infinite wait-any is safe, and so is an infinite wait-all for one event.
- A time-out of WaitForEvent that takes a signal along can leave another thread asleep on a signalled event, if and only
  if the event is auto-reset and some call on it has a finite limit. The one left behind can be an infinite sleeper if
  and only if some call on the event is infinite as well.
- `RecvAll` can report success with a byte missing if the socket pointer becomes null in the middle of a call for two
  bytes or more; asked for one byte, it cannot. The failing run is one of the function alone, not of this program: its
  only caller asks for one byte, and the pointer is set to null only in the destructor (`ARSTWebConn.cpp` lines 52-53).
- A line of 1024 bytes or more, or one with a NUL byte, does not come out as it came in.
- With at most 750 different keys no quote is broadcast twice; with 751 one can be, with 501 others in between.
- The key of a quote runs its three fields together. Keys of the same length tell quotes apart if and only if their
  prices are of the same length and so are their volumes.
- A client object that somebody else holds at any broadcast after it joined but the first can be sent a message after a
  gap, whatever keys the window holds.

## Model

| member | source | states |
|---|---|---|
| Invariant.InitialOk | ARST_QUOTE/ARSTCommon/ARSTPevents.cpp:91-112 | an event as it is created, signalled or not, satisfies the invariant: list entries, reference counts, `State`, status words, mutex owners and the signal ledger all agree |
| Invariant.BeginWaitingOk | ARST_QUOTE/ARSTCommon/ARSTPevents.cpp:202-236 | a call of WaitForMultipleEvents as it begins satisfies the invariant: one reference, its own mutex, nothing listed and nothing consumed |
| Invariant.GoRegisterOk | ARST_QUOTE/ARSTCommon/ARSTPevents.cpp:236-293 | locking the next event of the array, or leaving the registration loop, keeps the invariant: everything before position i is listed or consumed, never both, and after the loop that is every position |
| Invariant.GoCleanOk | ARST_QUOTE/ARSTCommon/ARSTPevents.cpp:57-64 | going over the list while the event is locked, with the busy case of the try-lock, and settling the event at its end, keeps the invariant |
| Invariant.GoCleanHoldOk | ARST_QUOTE/ARSTCommon/ARSTPevents.cpp:66-89 | after the entry of an expired wait has been discarded, or a live one spared, every wait still has as many references as entries, and is freed exactly when it has none |
| Invariant.GoTakeOk | ARST_QUOTE/ARSTCommon/ARSTPevents.cpp:247-264 | after a registering wait has consumed its i-th event, that position is consumed and not listed, `EventsLeft` or `FiredEvent` agrees with what is consumed, and the event's ledger accounts for the signal |
| Invariant.GoEnlistOk | ARST_QUOTE/ARSTCommon/ARSTPevents.cpp:265-272 | after a wait has joined a list its entry is there once, its reference is counted, and everything up to position i is listed or consumed |
| Invariant.GoCheckOk | ARST_QUOTE/ARSTCommon/ARSTPevents.cpp:295-319 | a wait that goes to sleep is listed wherever it lacks an event and has consumed all the others |
| Invariant.GoFinishOk | ARST_QUOTE/ARSTCommon/ARSTPevents.cpp:321-337 | after a wait has left it has as many references as entries on other lists, and is freed exactly when it has none |
| Invariant.GoWakenOk | ARST_QUOTE/ARSTCommon/ARSTPevents.cpp:303-318 | waking up, by a signal, spuriously or late, keeps the invariant |
| Invariant.GoSetLockOk | ARST_QUOTE/ARSTCommon/ARSTPevents.cpp:361-366 | raising `State` under the mutex keeps the invariant: until the setter is done the event counts as the setter found it |
| Invariant.GoSetLoopOk | ARST_QUOTE/ARSTCommon/ARSTPevents.cpp:371-376 | locking the wait of the current entry, or finishing the loop with an empty list, keeps the invariant |
| Invariant.GoSetHoldOk | ARST_QUOTE/ARSTCommon/ARSTPevents.cpp:378-413 | after an entry has been served up to the unlocking of its wait, expired or still waiting, auto-reset or manual-reset, references, `EventsLeft`, `FiredEvent`, lists and ledger agree |
| Invariant.GoHandOverOk | ARST_QUOTE/ARSTCommon/ARSTPevents.cpp:415-423 | signalling the wait that an auto-reset event has been given to, its mutex already given back, and releasing the event keeps the invariant |
| Invariant.GoSetNotifyOk | ARST_QUOTE/ARSTCommon/ARSTPevents.cpp:481-483 | signalling a wait in the loop of a manual-reset SetEvent, its mutex already given back, keeps the invariant |
| Invariant.GoResetOk | ARST_QUOTE/ARSTCommon/ARSTPevents.cpp:495-506 | after ResetEvent the ledger still accounts for every signal, one taken away as cleared |
| Invariant.GoSingleOk | ARST_QUOTE/ARSTCommon/ARSTPevents.cpp:114-168 | after WaitForEvent has looked at a locked event every list, record and mutex is in order and the ledger still accounts for every signal; what the call reports is in Results.SingleEnds |
| Invariant.NextOk | ARST_QUOTE/ARSTCommon/ARSTPevents.cpp:57-506 | every step of every thread keeps the invariant |
| Invariant.ReachableOk | ARST_QUOTE/ARSTCommon/ARSTPevents.cpp:57-506 | the invariant holds in every state that any run reaches, for any number of threads, events and waits |
| Safety.MentionsAreRegs | ARST_QUOTE/ARSTCommon/ARSTPevents.cpp:265-268 | a wait is mentioned on the lists of events exactly as often as it is registered and not yet served or discarded |
| Safety.ReferenceCount | ARST_QUOTE/ARSTCommon/ARSTPevents.cpp:68-84 | `RefCount` is the number of list entries for the wait over all events, plus one while its own thread is inside the call; the wait is freed if and only if that number is zero |
| Safety.AssertionsHold | ARST_QUOTE/ARSTCommon/ARSTPevents.cpp:378-403 | none of the assertions on `RefCount` and `EventsLeft` can fail; no list mentions a wait that has been freed, and no thread is inside its call or holds its mutex. The signal sent after unlocking is not covered here: see LateSignals.DanglesIff |
| Safety.FreedForever | ARST_QUOTE/ARSTCommon/ARSTPevents.cpp:324-335 | no step changes the record of a freed wait, so it is freed once; all that can still reach it is the signal of a setter that had unlocked it before |
| Safety.NoLostWakeup | ARST_QUOTE/ARSTCommon/ARSTPevents.cpp:295-319 | a sleeping wait that is satisfied has been signalled or is about to be; one that sleeps and still waits, whatever it has been given so far, is listed on exactly the events it lacks (a wait-any on all), none of them signalled once its mutex is free, and a wait-any is unsatisfied |
| Wakeups.StepHeard | ARST_QUOTE/ARSTCommon/ARSTPevents.cpp:412-416 | each step keeps: a wait that sleeps although it is satisfied has been signalled, or a setter is about to signal it |
| Wakeups.ReachableHeard | ARST_QUOTE/ARSTCommon/ARSTPevents.cpp:412-416 | ... so in every reachable state |
| Safety.ListedOnce | ARST_QUOTE/ARSTCommon/ARSTPevents.cpp:238-267 | each index of a wait is on at most one list, once, and on the list of the event it names |
| Safety.WaitAllCount | ARST_QUOTE/ARSTCommon/ARSTPevents.cpp:221-273 | after i rounds `EventsLeft` is the listed entries plus the rounds to come; asleep it is the listed entries and `RefCount - 1`; it is never negative, and at zero no list mentions the wait |
| Safety.ResultContract | ARST_QUOTE/ARSTCommon/ARSTPevents.cpp:275-337 | whatever the result code, `waitIndex` tells what was consumed; without a time-out a wait-any names an event of its array and a wait-all has them all; an infinite wait never times out, and a wait-any with 0 milliseconds that does has consumed nothing; when a time-out is reported is in Results.MultiTimesOutIff |
| Race.LateSignal | ARST_QUOTE/ARSTCommon/ARSTPevents.cpp:303-321 | for every array, a call with a finite limit has a run in which it gets what it waits for, all of it for a wait-all, and reports a time-out |
| Race.ZeroTakesAll | ARST_QUOTE/ARSTCommon/ARSTPevents.cpp:276-282 | for every array, a wait-all with 0 milliseconds has a run in which it takes every event and reports a time-out |
| Race.MisledHasGot | ARST_QUOTE/ARSTCommon/ARSTPevents.cpp:321 | and `waitIndex` is right then: the wait has consumed what it says |
| Race.MisleadsIff | ARST_QUOTE/ARSTCommon/ARSTPevents.cpp:275-321 | a call on some events can report a time-out and have got what it waits for if and only if its limit is finite, or is 0 milliseconds and it is a wait-all |
| Safety.AtMostOne | ARST_QUOTE/ARSTCommon/ARSTPevents.cpp:380-409 | a wait-any consumes at most one event however many setters race for it, and `FiredEvent` is the index of that one |
| Safety.SignalledHasNoWaits | ARST_QUOTE/ARSTCommon/ARSTPevents.cpp:366-436 | a signalled event whose mutex is free has an empty list, for both reset modes; and a setter that is through with its list finds `State` set, so the test after the loop of SetEvent always succeeds |
| Safety.MutexesReleased | ARST_QUOTE/ARSTCommon/ARSTPevents.cpp:412-436 | whoever owns a mutex is inside the call that took it: every path gives back what it locked |
| Safety.GrantsAreConsumptions | ARST_QUOTE/ARSTCommon/ARSTPevents.cpp:247-264 | an event has handed out as many signals to multi-waits as these have consumed by it |
| Safety.Conservation | ARST_QUOTE/ARSTCommon/ARSTPevents.cpp:361-435 | every SetEvent of an auto-reset event is merged into a latched signal, consumed by exactly one wait, cleared, or still latched; nothing is lost or doubled on any run |
| Results.ReadySucceeds | ARST_QUOTE/ARSTCommon/ARSTPevents.cpp:295-337 | a wait that holds its mutex in the waiting loop and finds what it waits for reports success, with its status as waitIndex |
| Results.MultiTimesOutIff | ARST_QUOTE/ARSTCommon/ARSTPevents.cpp:275-337 | over every run, a call of WaitForMultipleEvents reports a time-out if and only if the last thing its thread did was to time out, or it has 0 milliseconds and is a wait-all or has got no event |
| Results.SingleEnds | ARST_QUOTE/ARSTCommon/ARSTPevents.cpp:114-191 | a step that ends a WaitForEvent reports success if and only if it is no time-out, the mutex is free and `State` is set; success leaves `State` set for manual reset only and changes nothing else, failure changes nothing, and without a time-out happens with 0 milliseconds only |
| Results.SingleSucceedsIff | ARST_QUOTE/ARSTCommon/ARSTPevents.cpp:114-191 | a WaitForEvent that looks at the event, at once or awakened, returns success there and then if and only if the mutex is free and `State` is set |
| Results.SingleTimesOutIff | ARST_QUOTE/ARSTCommon/ARSTPevents.cpp:114-191 | over every run, a WaitForEvent with a limit above 0 reports a time-out if and only if the last thing its thread did was to time out; an infinite one never does |
| Results.Unhurried | ARST_QUOTE/ARSTCommon/ARSTPevents.cpp:114-337 | in a run in which a thread does not time out, none of its calls with a limit above 0 reports a time-out |
| Results.ResetEnds | ARST_QUOTE/ARSTCommon/ARSTPevents.cpp:495-506 | a ResetEvent that has the mutex leaves `State` clear and everything else as it was |
| Results.EverySignalOnce | ARST_QUOTE/ARSTCommon/ARSTPevents.cpp:114-506 | over every run of an auto-reset event, the SetEvents made are those that found it signalled, the WaitForEvents that reported success, the consumptions by multi-waits, the ResetEvents that found it signalled, the latched signal and the SetEvent under way, each counted by its steps in the run |
| Singles.StepAttended | ARST_QUOTE/ARSTCommon/ARSTPevents.cpp:425-435 | each step keeps: while an event is signalled and a thread sleeps on its own condition, a setter, a signal or an awakened thread is under way; but for a time-out that takes a signal along |
| Singles.NoSleeperForgotten | ARST_QUOTE/ARSTCommon/ARSTPevents.cpp:135-155 | if no WaitForEvent call on an auto-reset event has a finite limit, and always on a manual-reset one, no sleeper is left behind on a signalled event without a signal to come or under way |
| Singles.ForgottenIff | ARST_QUOTE/ARSTCommon/ARSTPevents.cpp:135-155 | a time-out may take a signal along, and `State` is not looked at again then: that can leave another sleeper behind on a signalled event if and only if the event is auto-reset and some call on it has a finite limit |
| Singles.StrandedIff | ARST_QUOTE/ARSTCommon/ARSTPevents.cpp:135-155 | ... and the one left behind can have any limit that is in use but 0: an infinite sleeper can be stranded if and only if the event is auto-reset and finite and infinite limits are both used on it |
| Fifo.Simulates | ARST_QUOTE/ARSTCommon/ARSTPevents.cpp:57-506 | every step of the protocol is a step of simple events, each a latch and a queue of the waits still waiting, or no step at all; mutexes, clean-up and expired entries do not show |
| Fifo.Refines | ARST_QUOTE/ARSTCommon/ARSTPevents.cpp:57-506 | every run of the protocol is a run of the simple events |
| Fifo.CleanHoldStep | ARST_QUOTE/ARSTCommon/ARSTPevents.cpp:57-90 | the clean-up, with its busy case, is invisible in the simple events |
| Fifo.ServeStep | ARST_QUOTE/ARSTCommon/ARSTPevents.cpp:380-394 | a setter that pops the entry of an expired wait does nothing that can be seen |
| Fifo.GrantStep | ARST_QUOTE/ARSTCommon/ARSTPevents.cpp:396-418 | a setter that finds a wait still waiting serves the first in the queue, and a wait-any then leaves every other queue |
| Fifo.JoinStep | ARST_QUOTE/ARSTCommon/ARSTPevents.cpp:265-272 | registration puts the wait at the end of the queue of an unlatched event, once |
| Fifo.TakeStep | ARST_QUOTE/ARSTCommon/ARSTPevents.cpp:247-264 | registration consumes a latched event, on which nobody is queued |
| Fifo.EarliestServed | ARST_QUOTE/ARSTCommon/ARSTPevents.cpp:371-424 | the wait that SetEvent hands its signal to is the one that has been in the queue longest |
| Fifo.StepTidy | ARST_QUOTE/ARSTCommon/ARSTPevents.cpp:245-267 | no step lets anybody in front: those who stay in a queue keep their order and those who have left it stay away |
| Fifo.FirstComeFirstServed | ARST_QUOTE/ARSTCommon/ARSTPevents.cpp:371-424 | over any run, a wait behind another at an event is not given the event, nor gets ahead, as long as the other is in the queue |
| Deadlock.BlockedOwners | ARST_QUOTE/ARSTCommon/ARSTPevents.cpp:236-242 | a blocked thread that owns an event is a setter of it, and one that owns a wait is registering it: the clean-up only tries locks |
| Deadlock.DeadlockHasCycle | ARST_QUOTE/ARSTCommon/ARSTPevents.cpp:230-273 | threads that wait for each other's mutexes exhibit a cycle in the orders in which the arrays list their events |
| Deadlock.Jams | ARST_QUOTE/ARSTCommon/ARSTPevents.cpp:361-376 | for every such cycle there is a run, with one multi-wait and one setter for each event of it, to a state in which they are all stuck |
| Deadlock.DeadlockIffCycle | ARST_QUOTE/ARSTCommon/ARSTPevents.cpp:230-424 | a deadlock can be reached with given arrays if and only if they list events in a cycle |
| Deadlock.RankedNeverDeadlocks | ARST_QUOTE/ARSTCommon/ARSTPevents.cpp:230-424 | arrays that follow one global order of the events never deadlock |
| Deadlock.PrivateArraysNeverDeadlock | ARST_QUOTE/ARSTHeartbeat.cpp:34-36 | arrays without repetition that share no event, as each heartbeat and each request has its own pair, never deadlock |
| Deadlock.Progress | ARST_QUOTE/ARSTCommon/ARSTPevents.cpp:230-424 | without such a cycle, whenever a thread is blocked on a mutex some thread that holds a mutex can step |
| LateSignals.StepEntitled | ARST_QUOTE/ARSTCommon/ARSTPevents.cpp:396-416 | each step keeps: a setter that is about to signal a wait-any still holds the event it gave, and the wait is listed at every other position of that event |
| LateSignals.StepPatient | ARST_QUOTE/ARSTCommon/ARSTPevents.cpp:295-319 | without spurious wake-ups, an infinite wait that can be given one event only sleeps until the signal for it has been sent |
| LateSignals.AnyDangles | ARST_QUOTE/ARSTCommon/ARSTPevents.cpp:412-415 | for every exposed wait-any there is a run in which the record is freed before a setter signals it |
| LateSignals.AllDangles | ARST_QUOTE/ARSTCommon/ARSTPevents.cpp:412-415 | ... and for every exposed wait-all |
| LateSignals.DanglesIff | ARST_QUOTE/ARSTCommon/ARSTPevents.cpp:412-415 | a setter can be about to signal a wait that has been freed if and only if the call lists events, may sleep, can end before the last signal (by a spurious wake-up, a time-out, or an earlier signal to a wait-all of two or more), and, if it is a wait-any, lists some event just once |
| LateSignals.DistinctExposed | ARST_QUOTE/ARSTCommon/ARSTPevents.cpp:478-481 | for an array without repetition the last condition always holds |
| Runs.FreeReachable | ARST_QUOTE/ARSTCommon/ARSTPevents.cpp:57-506 | runs counted step by step, with no rule to keep to, reach exactly the reachable states |
| Sections.SweepMeaning | ARST_QUOTE/ARSTCommon/ARSTPevents.cpp:245 | the clean-up drops exactly the entries of expired waits that are not busy, keeps the others in order, tells no wait anything, and gives up one reference for each entry dropped |
| Sections.AutoMeaning | ARST_QUOTE/ARSTCommon/ARSTPevents.cpp:369-435 | SetEvent on an auto-reset event serves the earliest wait still waiting and keeps what comes after it; `State` stays set only if there was none; nobody else is told anything |
| Sections.AutoBalanced | ARST_QUOTE/ARSTCommon/ARSTPevents.cpp:378-394 | ... and it gives up exactly the references of the entries it takes off the list |
| Sections.ManualMeaning | ARST_QUOTE/ARSTCommon/ARSTPevents.cpp:437-491 | SetEvent on a manual-reset event empties the list, leaves `State` set, tells a wait-any its first entry and counts a wait-all down by all of its entries |
| Sections.SetKeepsWorld | ARST_QUOTE/ARSTCommon/ARSTPevents.cpp:361-493 | SetEvent keeps every list entry of every event backed by a reference, and `EventsLeft` of a waiting wait-all no less than its entries |
| Sections.RoundMeaning | ARST_QUOTE/ARSTCommon/ARSTPevents.cpp:236-273 | a round of the registration loop consumes a signalled event or joins the list of an unsignalled one, and changes nothing else but references of expired entries |
| Sections.RoundKeepsWorld | ARST_QUOTE/ARSTCommon/ARSTPevents.cpp:236-273 | a round keeps all entries of all events backed, and takes exactly one off what a wait-all has in hand |
| Sections.AnyRecord | ARST_QUOTE/ARSTCommon/ARSTPevents.cpp:257-263 | registering a wait-any stops at the first signalled event of the array, which it names, with a reference for each event before it |
| Sections.AnyStates | ARST_QUOTE/ARSTCommon/ARSTPevents.cpp:247-263 | ... every other `State` stays as it was |
| Sections.AnyLater | ARST_QUOTE/ARSTCommon/ARSTPevents.cpp:257-263 | ... and the events after that one are left alone altogether |
| Sections.AnyListed | ARST_QUOTE/ARSTCommon/ARSTPevents.cpp:265-272 | ... while the wait is on the list of each event before it |
| Sections.AllRecord | ARST_QUOTE/ARSTCommon/ARSTPevents.cpp:252-256 | registering a wait-all on distinct events takes `EventsLeft` down by the number of signalled ones and references each of the others |
| Sections.AllListed | ARST_QUOTE/ARSTCommon/ARSTPevents.cpp:247-272 | ... consuming every signalled event and joining the list of every other one |
| Sections.ZeroMilliseconds | ARST_QUOTE/ARSTCommon/ARSTPevents.cpp:275-321 | with 0 milliseconds a wait-any succeeds if and only if some event of its array is signalled, and takes the first; a wait-all always reports a time-out, even when it has acquired everything |
| Alone.SetAlone | ARST_QUOTE/ARSTCommon/ARSTPevents.cpp:361-493 | a SetEvent that nobody interleaves with, run step by step in the protocol, comes to exactly the outcome of the section on the event object |
| Alone.RoundAlone | ARST_QUOTE/ARSTCommon/ARSTPevents.cpp:236-273 | a round of registration that nobody interleaves with, run step by step in the protocol, comes to exactly the outcome of the round on the event objects, whichever waits are busy |
| EventObjects.Event.constructor | ARST_QUOTE/ARSTCommon/ARSTPevents.cpp:91-112 | CreateEvent: reset mode and initial state as asked for, nobody listed |
| EventObjects.Event.UnlockedPoll | ARST_QUOTE/ARSTCommon/ARSTPevents.cpp:114-168 | with 0 milliseconds: succeeds exactly when `State` is set, and an auto-reset event is then reset |
| EventObjects.Event.ResetEvent | ARST_QUOTE/ARSTCommon/ARSTPevents.cpp:495-506 | `State` is reset |
| EventObjects.Event.SetEvent | ARST_QUOTE/ARSTCommon/ARSTPevents.cpp:361-493 | in place, the list, `State` and every record are as the specification of SetEvent has them, and a signalled event has no registered waits |
| EventObjects.Event.SetAutoReset | ARST_QUOTE/ARSTCommon/ARSTPevents.cpp:369-436 | in place, the loop over the list from the front and its early return leave what the specification of an auto-reset SetEvent says |
| EventObjects.Event.SetManualReset | ARST_QUOTE/ARSTCommon/ARSTPevents.cpp:437-491 | in place, the loop over the whole list and its clearing leave what the specification of a manual-reset SetEvent says |
| EventObjects.Event.RemoveIf | ARST_QUOTE/ARSTCommon/ARSTPevents.cpp:245 | in place, remove_if moves the entries that stay to the front, in order, and returns how many they are; the records are as the specification of the clean-up has them |
| EventObjects.Event.RemoveExpiredWaits | ARST_QUOTE/ARSTCommon/ARSTPevents.cpp:245 | remove_if and erase leave the list and the records as the specification of the clean-up has them |
| EventObjects.Waiter.RemoveExpired | ARST_QUOTE/ARSTCommon/ARSTPevents.cpp:57-90 | RemoveExpiredWaitHelper: an expired wait that is not busy loses one reference and is freed with the last; any other is untouched |
| EventObjects.Waiter.Offer | ARST_QUOTE/ARSTCommon/ARSTPevents.cpp:378-413 | what SetEvent does with one entry, and that its assertions hold |
| EventObjects.Waiter.Leave | ARST_QUOTE/ARSTCommon/ARSTPevents.cpp:321-335 | the end of a wait: `waitIndex` is read from the union, and the last reference frees the record |
| EventObjects.RegisterOne | ARST_QUOTE/ARSTCommon/ARSTPevents.cpp:236-273 | one round of registration, in place, is the round of the specification |
| EventObjects.Register | ARST_QUOTE/ARSTCommon/ARSTPevents.cpp:233-273 | the registration loop, in place, is the loop of the specification, whichever waits are busy and whichever events repeat |
| EventObjects.PollMultiple | ARST_QUOTE/ARSTCommon/ARSTPevents.cpp:202-338 | WaitForMultipleEvents with 0 milliseconds from end to end |
| Heartbeat.Heartbeat.Run | ARST_QUOTE/ARSTHeartbeat.cpp:44-84 | for every sequence of wait outcomes: it stops at the first that is a failure, an index other than 0, or the time-out that uses up the patience, and at no other; which callback is made after each, and with which arguments; and the idle time it leaves |
| Heartbeat.EndsIff | ARST_QUOTE/ARSTHeartbeat.cpp:44-84 | the callback due is the one that belongs to the outcome, HEARTBEAT_TERMINATE for index 1 and none for index 0, and it is final exactly for the outcomes that end the loop |
| Heartbeat.Heartbeat.SetTimeInterval | ARST_QUOTE/ARSTHeartbeat.cpp:86-88 | the interval is as asked for |
| Heartbeat.Onward | ARST_QUOTE/ARSTHeartbeat.cpp:54-74 | a time-out adds one increment to the idle time, a reply clears it |
| Heartbeat.LostExactly | ARST_QUOTE/ARSTHeartbeat.cpp:54-68 | the idle time is five times the time-outs since the last reply, and OnHeartbeatLost comes exactly when these reach max(1, floor((interval + 10) / 5) + 1) |
| Heartbeat.IdleBound | ARST_QUOTE/ARSTHeartbeat.cpp:54-68 | the idle time never gets more than 15 past an interval of at least -10 |
| Heartbeat.StretchRequests | ARST_QUOTE/ARSTHeartbeat.cpp:57-64 | in a silent stretch a request is made at each multiple of five from the interval, included, to the interval plus ten |
| Heartbeat.AskedBeforeLost | ARST_QUOTE/ARSTHeartbeat.cpp:54-68 | a silent connection is asked three times before it is given up if five divides the interval, and twice otherwise |
| SelfAck.PledgeKept | ARST_QUOTE/ARSTServiceHandler.cpp:97-115 | once a callback has set the reply event from inside, whatever other threads do, the next wait of the same thread can only end with index 0 |
| SelfAck.ReplyStays | ARST_QUOTE/ARSTCommon/ARSTPevents.cpp:371-394 | no other thread can take the reply away: on the list of the reply event there are only expired entries |
| SelfAck.IndexInRange | ARST_QUOTE/ARSTHeartbeat.cpp:71-80 | a wait that has not timed out reports one of the two events, so the unexpected index cannot occur |
| SelfAck.NeverLost | ARST_QUOTE/ARSTWebConns.cpp:180-204 | a heartbeat that answers its own requests is given up on no run; its idle time stays below the interval plus five, and it makes a final callback, HEARTBEAT_TERMINATE, exactly when a wait ends with index 1 |
| SelfAck.TerminateEnds | ARST_QUOTE/ARSTHeartbeat.cpp:75-77 | a wait that ends with index 1 is the last thing its thread does |
| SelfAck.GivenUpIff | ARST_QUOTE/ARSTHeartbeat.cpp:54-68 | such a heartbeat can be given up if and only if the interval is below -5 |
| Strtok.NextToken | ARST_QUOTE/ARSTQueueNode.cpp:85-87 | a call of strtok gives the next token and where to go on, or none |
| Strtok.FirstToken | ARST_QUOTE/ARSTQueueNode.cpp:85-87 | the tokens are the fields between the commas that are not empty |
| Strtok.JoinTokens | ARST_QUOTE/ARSTQueueNode.cpp:85-93 | joining proper fields with commas and tokenising gives the fields back |
| QueueNode.QueueDAO.ExtractKey | ARST_QUOTE/ARSTQueueNode.cpp:85-106 | the strtok loop computes the concatenation of tokens 3, 4 and 8 after the first |
| QueueNode.QueueDAO.TrimLocal | ARST_QUOTE/ARSTQueueNode.cpp:141-144 | in place, what the trimming loop leaves is what TrimMeaning says |
| QueueNode.TrimMeaning | ARST_QUOTE/ARSTQueueNode.cpp:141-144 | trimming keeps the latest entries: all of up to 750, and of n above that exactly 501 + (n - 751) mod 250 |
| QueueNode.KeyLeaves | ARST_QUOTE/ARSTQueueNode.cpp:108-144 | a key leaves the window only when a duplicate comes while more than 750 are in it |
| QueueNode.EachOnce | ARST_QUOTE/ARSTQueueNode.cpp:108-144 | as long as at most 750 different keys have come in, nothing is forgotten and each of them has been broadcast exactly once |
| QueueNode.NeverTwiceIff | ARST_QUOTE/ARSTQueueNode.cpp:108-144 | no key is broadcast twice on any run with at most n different keys if and only if n is at most 750 |
| QueueNode.HeardMeaning | ARST_QUOTE/ARSTQueueNode.cpp:71-82 | what is dealt with is the messages before the first error, all of them and in order |
| QueueNode.QueueDAO.Receive | ARST_QUOTE/ARSTQueueNode.cpp:82-149 | one message is broadcast exactly when its key is not in the window; the merge buffer, the key string and the count are empty again afterwards |
| QueueNode.QueueDAO.Run | ARST_QUOTE/ARSTQueueNode.cpp:71-153 | for every sequence of receptions, window and broadcasts are those of the specification, each client has been sent exactly the broadcasts, one after the other, and the loop stops at the first error |
| QueueNode.WindowIsRecent | ARST_QUOTE/ARSTQueueNode.cpp:108-146 | `QueueLocal` is always a contiguous, repeat-free suffix of the broadcast keys, and holds at least 501 if any have been dropped |
| QueueNode.Decision | ARST_QUOTE/ARSTQueueNode.cpp:108-113 | a message is broadcast if and only if its key is outside the window: always when the key is new, never when it is among the last 501 broadcast |
| QueueNode.InOrder | ARST_QUOTE/ARSTQueueNode.cpp:108-135 | the broadcasts are a subsequence of the messages received, in order |
| QueueNode.RebroadcastDistance | ARST_QUOTE/ARSTQueueNode.cpp:108-146 | two broadcasts with the same key have at least 501 others strictly between them |
| QueueNode.DistanceAttained | ARST_QUOTE/ARSTQueueNode.cpp:138-146 | 501 cannot be improved: a run attains it |
| QueueNode.KeysTell | ARST_QUOTE/ARSTQueueNode.cpp:87-93 | for all lengths of price, volume and time, keys tell two quotes of these lengths apart if and only if both prices and both volumes are of the same length, or the keys are of different lengths |
| QueueNode.KeysCollide | ARST_QUOTE/ARSTQueueNode.cpp:87-113 | for all other lengths there are two different messages with the same key, and the second is dropped |
| Delivery.Client.SendAll | ARST_QUOTE/ARSTServiceHandler.cpp:130-188 | in place, for every list of values that send returns, the bytes sent, the result, the status and the values used up are those that TakenMeaning and UsedMeaning describe |
| Delivery.TakenMeaning | ARST_QUOTE/ARSTServiceHandler.cpp:138-185 | SendAll goes on after each partial send: what gets through is the whole buffer if there is no failure or the values before the first add up to it, and otherwise a first part as long as their sum |
| Delivery.UsedMeaning | ARST_QUOTE/ARSTServiceHandler.cpp:138-185 | it calls send just as often as it takes: when all has gone out no value used is a failure and one fewer would not do; otherwise the last value used is the first failure |
| Delivery.DeliverMeaning | ARST_QUOTE/ARSTQueueNode.cpp:118-131 | a client that is sent to gets the message whole, is told to its heartbeat and stays as it is; or it gets exactly the part before the failing send and is offline |
| Delivery.Broadcast | ARST_QUOTE/ARSTQueueNode.cpp:118-133 | each client of the list is dealt with once: passed over if offline and owned by nobody else, and otherwise sent to as DeliverMeaning describes |
| Delivery.NeverFails | ARST_QUOTE/ARSTQueueNode.cpp:114-135 | over any run a client whose sends never fail, however small the pieces, stays online and gets all that is broadcast |
| Delivery.OfflineIff | ARST_QUOTE/ARSTQueueNode.cpp:114-135 | over any run a client that starts online and is solely owned, the first broadcast aside, is offline at the end if and only if one of the sends made to it has failed |
| Delivery.OfflineForever | ARST_QUOTE/ARSTQueueNode.cpp:114-135 | no broadcast brings a client online again or takes back what it has been sent |
| Delivery.PrefixDelivery | ARST_QUOTE/ARSTQueueNode.cpp:114-135 | over any run the bytes sent to a client that is solely owned, at the first broadcast at least online, are a prefix of all that is broadcast, all of it while it is online, and nothing is sent once it is offline |
| Broadcasts.AllNew | ARST_QUOTE/ARSTQueueNode.cpp:108-113 | quotes with prices longer than any key in the window, each longer than the one before, are all broadcast |
| Broadcasts.SharedLosesPrefix | ARST_QUOTE/ARSTQueueNode.cpp:108-131 | whatever the window is when a client joins, for every later broadcast at which somebody else holds it there are texts, all of which the window lets through, and a run that leaves a gap in what the client is sent |
| Broadcasts.PrefixKeptIff | ARST_QUOTE/ARSTQueueNode.cpp:108-131 | over all texts that come in from then on and all behaviour of the socket, what a client that joins online is sent is always a prefix of what is broadcast if and only if nobody else holds it at any of these broadcasts but the first |
| Framing.Server.RecvAll | ARST_QUOTE/ARSTWebConn.cpp:203-241 | in place, the bytes received, the result and what is left are those of the specification, for every pattern of chunks, errors, closing and missing sockets |
| Framing.ReceiveMeaning | ARST_QUOTE/ARSTWebConn.cpp:205-240 | what is received is always the next bytes of the feed, never more than asked for, and having got all of it the call succeeds |
| Framing.ReceiveAll | ARST_QUOTE/ARSTWebConn.cpp:205-240 | RecvAll goes on after each receipt that is too short, whatever their sizes, and ends with success at the one that completes it |
| Framing.ReceiveSome | ARST_QUOTE/ARSTWebConn.cpp:205-240 | it ends early at the first that brings in nothing, with just the bytes before it, and then reports success if and only if there was no socket and the receipt before was as long as what is missing |
| Framing.ConnectedTruthful | ARST_QUOTE/ARSTWebConn.cpp:211-240 | while the socket is there the call succeeds exactly when all that was asked for has arrived |
| Framing.TruthfulIff | ARST_QUOTE/ARSTWebConn.cpp:208-240 | if the socket may be missing in the middle, the result can be trusted if and only if exactly one byte was asked for |
| Framing.Misled | ARST_QUOTE/ARSTWebConn.cpp:211-217 | for two bytes or more there is a run that reports success with a byte missing |
| Framing.Server.ReadPiece | ARST_QUOTE/ARSTWebConn.cpp:105-130 | the inner loop fills the cleared buffer up to a newline, a failure or its end, and tells the heartbeat once for each byte that is not a newline |
| Framing.Server.Run | ARST_QUOTE/ARSTWebConn.cpp:101-142 | the messages sent are those of the bytes that arrive, and the status is ssBreakdown when they give out |
| Framing.LinesPrefix | ARST_QUOTE/ARSTWebConn.cpp:110-130 | the lines of a stream make up its longest prefix that ends in a newline |
| Framing.IntactIff | ARST_QUOTE/ARSTWebConn.cpp:105-141 | the messages are the lines of the stream if and only if every line has at most 1023 bytes with its newline and no NUL, and what is left has at most 1023 bytes |
| Framing.Pieces | ARST_QUOTE/ARSTWebConn.cpp:101-130 | every stream is a sequence of pieces, each up to a newline or 1024 bytes without one, and less than one piece |
| Framing.MessagesOfPieces | ARST_QUOTE/ARSTWebConn.cpp:101-141 | ... and however it is made up, one message comes out for each piece: what is before its first NUL, or the whole piece if it has none and leaves room for the terminator |
| Framing.FramingRoundTrip | ARST_QUOTE/ARSTWebConn.cpp:105-141 | lines that fit come out one by one however their bytes are split up, and a cut-off last line does not come out |

## Left out

- DestroyEvent and the destructors: tearing an event down while waits are listed drops entries without giving up their references.
- What a signal to a freed condition does: the model says when one is sent, and lets it have no effect.
- Real time, memory ordering and spurious failures of try-locks; a time-out may come at any moment.
- Fairness: nothing is said about a step being taken in the end, only that it can be.
- EventObjects.PollMultiple: the sleeping part of a wait with a limit above zero is not modelled in place; it is part of the protocol.
- EventObjects.Event.SetEvent: other threads do nothing between the entries it serves; the protocol has them act in between.
- Wrap-around of the idle time and of the counters: idle time stays within 15 of the interval.
- A heartbeat that always ends when told to: a time-out that races with TriggerTerminateEvent loses it.
- Changing the interval while the heartbeat runs.
- Several queue threads sharing `QueueLocal` and the key string without a lock: one consumer is modelled.
- A bound on the size of `QueueLocal`: there is none, because only a duplicate trims it.
- Messages that fill the 1500-byte receive buffer, and messages with NUL bytes: a message is the string before its first NUL, of any length; the runs of Broadcasts.SharedLosesPrefix use quotes that grow.
- The heartbeat request that `OnHeartbeatRequest` sends on a client's socket (`ARSTServiceHandler.cpp` line 108): what a client is sent counts broadcasts only. No client's heartbeat is ever started in this repository.
- What follows a line that overruns its buffer: the model records that no end was found and goes on.
- The same client listed twice in m_vClient.
- Sockets, message queues, shared memory, OpenSSL, websocketpp, configuration and logging: their results are inputs.
- ARSTMain.cpp, ARSTGlobal, the ARSTServer singleton, client filtering, reconnection and the thread counters: no state beyond plumbing.
- ARSTQueueManager and its choice of a queue: a line goes to one queue.
- script/set_sharedmemory.sh.
