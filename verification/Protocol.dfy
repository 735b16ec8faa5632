/** The event protocol as a transition system: any number of threads, events
    and multi-waits, one mutex per event and per wait, one step per mutex
    operation. */
module Protocol {
  import opened Records

  /** neosmart_wfmo_info_t_: a list entry, wait number and position in its array. */
  datatype Entry = Entry(waiter: nat, index: nat)

  /** What has happened to the signals of one event since it was created.
      `grants` records every multi-wait consumption, in order. */
  datatype Ledger = Ledger(sets: nat, merged: nat, singles: nat, cleared: nat, grants: seq<Entry>)

  /** neosmart_event_t_.  `fired` is the loop variable of a manual-reset
      SetEvent in progress, `owner` the thread that holds the mutex. */
  datatype Event = Event(
    autoReset: bool, state: bool, waits: seq<Entry>, fired: nat,
    owner: Option<nat>, ledger: Ledger)

  /** One call of WaitForMultipleEvents by `thread`.  `regs` and `got` are
      history: the indices now listed, and those consumed so far. */
  datatype Waiter = Waiter(
    thread: nat, events: seq<nat>, limit: Limit, rec: Wfmo,
    owner: Option<nat>, regs: set<nat>, got: set<nat>)

  datatype Pc =
    | Idle
      // WaitForMultipleEvents
    | Register(w: nat, i: nat)                            // holds w; loop head of the registration loop
    | Clean(w: nat, i: nat, e: nat, j: nat)               // holds w, e; remove_if is at entry j
    | CleanHold(w: nat, i: nat, e: nat, j: nat, x: nat)   // ... and try-locked x, the wait of entry j
    | Check(w: nat)                                       // holds w; loop head of the waiting loop
    | Asleep(w: nat)                                      // in pthread_cond_(timed)wait
    | Finish(w: nat, timedOut: bool)                      // holds w; leaving
    | Returned(w: nat, timedOut: bool, waitIndex: int)
      // SetEvent; `was` is State as the setter found it
    | SetLock(e: nat)
    | SetLoop(e: nat, was: bool)                          // holds e
    | SetHold(e: nat, was: bool, x: nat)                  // holds e and x, the wait of the current entry
    | HandOver(e: nat, x: nat)                            // auto-reset: holds e, has unlocked x, still to signal it
    | SetNotify(e: nat, was: bool, x: nat)                // manual-reset: likewise
    | SetSignal(e: nat)                                   // mutex released, event condition still to signal
      // ResetEvent
    | ResetLock(e: nat)
      // WaitForEvent
    | SingleLock(e: nat, limit: Limit)
    | SingleAsleep(e: nat, limit: Limit, notified: bool)
    | SingleReturned(e: nat, timedOut: bool)

  datatype State = State(threads: map<nat, Pc>, events: map<nat, Event>, waiters: seq<Waiter>)

  datatype Action =
    | BeginWait(events: seq<nat>, waitAll: bool, limit: Limit)
    | BeginSet(e: nat)
    | BeginReset(e: nat)
    | BeginSingle(e: nat, limit: Limit)
    | Go
    | Wake                        // signal or spurious
    | TimeOut
    | Signal(woken: set<nat>)     // pthread_cond_signal / broadcast on the event condition

  predicate AtRest(p: Pc) {
    p.Idle? || p.Returned? || p.SingleReturned?
  }

  /** The wait a program counter is executing. */
  function OwnWait(p: Pc): Option<nat> {
    match p
    case Register(w, _) => Some(w)
    case Clean(w, _, _, _) => Some(w)
    case CleanHold(w, _, _, _, _) => Some(w)
    case Check(w) => Some(w)
    case Asleep(w) => Some(w)
    case Finish(w, _) => Some(w)
    case _ => None
  }

  predicate HoldsEvent(p: Pc, e: nat) {
    match p
    case Clean(_, _, f, _) => e == f
    case CleanHold(_, _, f, _, _) => e == f
    case SetLoop(f, _) => e == f
    case SetHold(f, _, _) => e == f
    case HandOver(f, _) => e == f
    case SetNotify(f, _, _) => e == f
    case _ => false
  }

  predicate HoldsWaiter(p: Pc, w: nat) {
    match p
    case Register(v, _) => w == v
    case Clean(v, _, _, _) => w == v
    case CleanHold(v, _, _, _, x) => w == v || w == x
    case Check(v) => w == v
    case Finish(v, _) => w == v
    case SetHold(_, _, x) => w == x
    case _ => false
  }

  predicate SetsEvent(p: Pc, e: nat) {
    (p.SetLoop? || p.SetHold? || p.SetNotify?) && p.e == e
  }

  /** The setter has unlocked wait w and is about to signal its condition. */
  predicate Notifies(p: Pc, w: nat) {
    (p.HandOver? || p.SetNotify?) && p.x == w
  }

  /** The locks and positions a program counter speaks of are what it says. */
  predicate PcOk(s: State, t: nat)
    requires t in s.threads
  {
    match s.threads[t]
    case Idle => true
    case Register(w, i) => Mine(s, t, w) && i <= |s.waiters[w].events|
    case Clean(w, i, e, j) => Cleaning(s, t, w, i, e, j)
    case CleanHold(w, i, e, j, x) =>
      && Cleaning(s, t, w, i, e, j) && j < |s.events[e].waits| && s.events[e].waits[j].waiter == x
      && x != w && x < |s.waiters| && s.waiters[x].owner == Some(t)
    case Check(w) => Mine(s, t, w)
    case Asleep(w) => w < |s.waiters| && s.waiters[w].thread == t
    case Finish(w, _) => Mine(s, t, w)
    case Returned(w, timedOut, waitIndex) =>
      && w < |s.waiters| && s.waiters[w].thread == t && !s.waiters[w].rec.stillWaiting
      && waitIndex == s.waiters[w].rec.status
      && (if timedOut then Late(s.waiters[w]) else Ready(s.waiters[w].rec))
    case SetLock(e) => e in s.events
    case SetLoop(e, was) => Setting(s, t, e, was)
    case SetHold(e, was, x) =>
      && Setting(s, t, e, was) && s.events[e].fired < |s.events[e].waits|
      && s.events[e].waits[s.events[e].fired].waiter == x
      && x < |s.waiters| && s.waiters[x].owner == Some(t)
    case HandOver(e, x) => e in s.events && s.events[e].owner == Some(t) && x < |s.waiters|
    case SetNotify(e, was, x) => Setting(s, t, e, was) && x < |s.waiters|
    case SetSignal(e) => e in s.events
    case ResetLock(e) => e in s.events
    case SingleLock(e, _) => e in s.events
    case SingleAsleep(e, _, _) => e in s.events
    case SingleReturned(e, _) => e in s.events
  }

  /** A wait that may report a time-out.  One that did not sleep has been told nothing. */
  predicate Late(v: Waiter) {
    v.limit != Infinite && (v.limit == Zero && !v.rec.waitAll ==> v.rec.status == -1)
  }

  predicate Mine(s: State, t: nat, w: nat) {
    w < |s.waiters| && s.waiters[w].thread == t && s.waiters[w].owner == Some(t)
    && forall k | 0 <= k < |s.waiters[w].events| :: s.waiters[w].events[k] in s.events
  }

  predicate Cleaning(s: State, t: nat, w: nat, i: nat, e: nat, j: nat) {
    && Mine(s, t, w) && i < |s.waiters[w].events| && s.waiters[w].events[i] == e && e in s.events
    && s.events[e].owner == Some(t) && j <= |s.events[e].waits|
    && forall p | 0 <= p < |s.events[e].waits| :: s.events[e].waits[p].waiter < |s.waiters|
  }

  predicate Setting(s: State, t: nat, e: nat, was: bool) {
    && e in s.events && s.events[e].owner == Some(t) && s.events[e].state
    && s.events[e].fired <= |s.events[e].waits| && (was ==> s.events[e].waits == [])
    && forall p | 0 <= p < |s.events[e].waits| :: s.events[e].waits[p].waiter < |s.waiters|
  }

  // ------------------------------------------------------------- mutexes

  datatype Mutex = OfEvent(e: nat) | OfWaiter(w: nat)

  /** The mutex a thread must get before it can go on, if any.  A try-lock
      (remove_if, or WaitForEvent with 0 milliseconds) never appears here. */
  function Wants(s: State, t: nat): Option<Mutex>
    requires t in s.threads && PcOk(s, t)
  {
    match s.threads[t]
    case Register(w, i) =>
      if i < |s.waiters[w].events| then Some(OfEvent(s.waiters[w].events[i])) else None
    case Asleep(w) => Some(OfWaiter(w))
    case SetLock(e) => Some(OfEvent(e))
    case SetLoop(e, _) =>
      if s.events[e].fired < |s.events[e].waits|
      then Some(OfWaiter(s.events[e].waits[s.events[e].fired].waiter)) else None
    case ResetLock(e) => Some(OfEvent(e))
    case SingleLock(e, limit) => if limit == Zero then None else Some(OfEvent(e))
    case SingleAsleep(e, _, _) => Some(OfEvent(e))
    case _ => None
  }

  function Owner(s: State, m: Mutex): Option<nat> {
    match m
    case OfEvent(e) => if e in s.events then s.events[e].owner else None
    case OfWaiter(w) => if w < |s.waiters| then s.waiters[w].owner else None
  }

  predicate Blocked(s: State, t: nat)
    requires t in s.threads && PcOk(s, t)
  {
    var m := Wants(s, t);
    m.Some? && Owner(s, m.value).Some?
  }

  // --------------------------------------------------------------- steps

  function Move(s: State, t: nat, p: Pc): State {
    s.(threads := s.threads[t := p])
  }

  function PutEvent(s: State, e: nat, ev: Event): State {
    s.(events := s.events[e := ev])
  }

  function PutWaiter(s: State, w: nat, v: Waiter): State
    requires w < |s.waiters|
  {
    s.(waiters := s.waiters[w := v])
  }

  /** What UnlockedWaitForEvent leaves of State when it succeeds. */
  function Consumed(ev: Event): bool {
    ev.state && !ev.autoReset
  }

  function Log(ev: Event, n: Entry): Ledger {
    ev.ledger.(grants := ev.ledger.grants + [n])
  }

  function BeginWaiting(s: State, t: nat, es: seq<nat>, waitAll: bool, limit: Limit): State {
    Move(s.(waiters := s.waiters + [Waiter(t, es, limit, Open(|es|, waitAll), Some(t), {}, {})]),
         t, Register(|s.waiters|, 0))
  }

  function GoRegister(s: State, t: nat, w: nat, i: nat): State
    requires Mine(s, t, w) && i <= |s.waiters[w].events|
  {
    if i < |s.waiters[w].events| then
      var e := s.waiters[w].events[i];
      Move(PutEvent(s, e, s.events[e].(owner := Some(t))), t, Clean(w, i, e, 0))
    else if s.waiters[w].limit == Zero then
      Move(s, t, Finish(w, true))
    else
      Move(s, t, Check(w))
  }

  function GoClean(s: State, t: nat, w: nat, i: nat, e: nat, j: nat): State
    requires Cleaning(s, t, w, i, e, j)
  {
    if j < |s.events[e].waits| then
      var x := s.events[e].waits[j].waiter;
      if s.waiters[x].owner.Some? then    // EBUSY
        Move(s, t, Clean(w, i, e, j + 1))
      else
        Move(PutWaiter(s, x, s.waiters[x].(owner := Some(t))), t, CleanHold(w, i, e, j, x))
    else if s.events[e].state then
      GoTake(s, t, w, i, e)
    else
      GoEnlist(s, t, w, i, e)
  }

  function GoTake(s: State, t: nat, w: nat, i: nat, e: nat): State
    requires w < |s.waiters| && e in s.events
  {
    var ev := s.events[e];
    var v := s.waiters[w];
    Move(PutWaiter(PutEvent(s, e, ev.(state := Consumed(ev), owner := None, ledger := Log(ev, Entry(w, i)))),
                   w, v.(rec := Take(v.rec, i), got := v.got + {i})),
         t, if v.rec.waitAll then Register(w, i + 1) else Finish(w, false))
  }

  function GoEnlist(s: State, t: nat, w: nat, i: nat, e: nat): State
    requires w < |s.waiters| && e in s.events
  {
    var ev := s.events[e];
    var v := s.waiters[w];
    Move(PutWaiter(PutEvent(s, e, ev.(waits := ev.waits + [Entry(w, i)], owner := None)),
                   w, v.(rec := Enlist(v.rec), regs := v.regs + {i})),
         t, Register(w, i + 1))
  }

  function GoCleanHold(s: State, t: nat, w: nat, i: nat, e: nat, j: nat, x: nat): State
    requires e in s.events && j < |s.events[e].waits| && x < |s.waiters|
  {
    var ev := s.events[e];
    var v := s.waiters[x];
    if v.rec.stillWaiting then
      Move(PutWaiter(s, x, v.(owner := None)), t, Clean(w, i, e, j + 1))
    else
      Move(PutWaiter(PutEvent(s, e, ev.(waits := ev.waits[..j] + ev.waits[j + 1..])),
                     x, v.(rec := Discard(v.rec), owner := None, regs := v.regs - {ev.waits[j].index})),
           t, Clean(w, i, e, j))
  }

  function GoCheck(s: State, t: nat, w: nat): State
    requires w < |s.waiters|
  {
    var v := s.waiters[w];
    if Ready(v.rec) then
      Move(s, t, Finish(w, false))
    else
      Move(PutWaiter(s, w, v.(owner := None, rec := v.rec.(notified := false))), t, Asleep(w))
  }

  function GoFinish(s: State, t: nat, w: nat, timedOut: bool): State
    requires w < |s.waiters|
  {
    var v := s.waiters[w];
    Move(PutWaiter(s, w, v.(rec := Close(v.rec), owner := None)), t, Returned(w, timedOut, v.rec.status))
  }

  function GoWaken(s: State, t: nat, w: nat, next: Pc): State
    requires w < |s.waiters|
  {
    var v := s.waiters[w];
    Move(PutWaiter(s, w, v.(owner := Some(t), rec := v.rec.(notified := false))), t, next)
  }

  function GoSetLock(s: State, t: nat, e: nat): State
    requires e in s.events
  {
    var ev := s.events[e];
    Move(PutEvent(s, e, ev.(owner := Some(t), state := true, ledger := ev.ledger.(sets := ev.ledger.sets + 1))),
         t, SetLoop(e, ev.state))
  }

  function GoSetLoop(s: State, t: nat, e: nat, was: bool): State
    requires Setting(s, t, e, was)
  {
    var ev := s.events[e];
    if ev.fired < |ev.waits| then
      var x := ev.waits[ev.fired].waiter;
      Move(PutWaiter(s, x, s.waiters[x].(owner := Some(t))), t, SetHold(e, was, x))
    else
      Move(PutEvent(s, e, ev.(waits := [], fired := 0, owner := None,
                              ledger := if was then ev.ledger.(merged := ev.ledger.merged + 1) else ev.ledger)),
           t, SetSignal(e))
  }

  /** The current entry is done with: popped, or left behind until the list is cleared. */
  function Served(ev: Event): Event
    requires ev.fired < |ev.waits|
  {
    if ev.autoReset then ev.(waits := ev.waits[..ev.fired] + ev.waits[ev.fired + 1..])
    else ev.(fired := ev.fired + 1)
  }

  function GoSetHold(s: State, t: nat, e: nat, was: bool, x: nat): State
    requires e in s.events && s.events[e].fired < |s.events[e].waits| && x < |s.waiters|
  {
    var ev := s.events[e];
    var v := s.waiters[x];
    var n := ev.waits[ev.fired];
    var rest := Served(ev);
    if !v.rec.stillWaiting then
      Move(PutWaiter(PutEvent(s, e, rest),
                     x, v.(rec := Discard(v.rec), owner := None, regs := v.regs - {n.index})),
           t, SetLoop(e, was))
    else
      var v' := v.(rec := Hand(v.rec, n.index), owner := None, regs := v.regs - {n.index}, got := v.got + {n.index});
      if ev.autoReset then
        Move(PutWaiter(PutEvent(s, e, rest.(state := false, ledger := Log(ev, n))), x, v'), t, HandOver(e, x))
      else
        Move(PutWaiter(PutEvent(s, e, rest.(ledger := Log(ev, n))), x, v'), t, SetNotify(e, was, x))
  }

  /** pthread_cond_signal on the condition of wait x, whose mutex the setter has given back. */
  function Notified(s: State, x: nat): State
    requires x < |s.waiters|
  {
    PutWaiter(s, x, s.waiters[x].(rec := Notify(s.waiters[x].rec)))
  }

  function GoHandOver(s: State, t: nat, e: nat, x: nat): State
    requires e in s.events && x < |s.waiters|
  {
    Move(PutEvent(Notified(s, x), e, s.events[e].(owner := None)), t, Idle)
  }

  function GoSetNotify(s: State, t: nat, e: nat, was: bool, x: nat): State
    requires x < |s.waiters|
  {
    Move(Notified(s, x), t, SetLoop(e, was))
  }

  function GoReset(s: State, t: nat, e: nat): State
    requires e in s.events
  {
    var ev := s.events[e];
    Move(PutEvent(s, e, ev.(state := false,
                            ledger := if ev.state then ev.ledger.(cleared := ev.ledger.cleared + 1) else ev.ledger)),
         t, Idle)
  }

  /** UnlockedWaitForEvent, entered or resumed with the mutex; `idle` is where
      the caller goes when the event is not signalled. */
  function GoSingle(s: State, t: nat, e: nat, idle: Pc): State
    requires e in s.events
  {
    var ev := s.events[e];
    if ev.state then
      Move(PutEvent(s, e, ev.(state := Consumed(ev), ledger := ev.ledger.(singles := ev.ledger.singles + 1))),
           t, SingleReturned(e, false))
    else
      Move(s, t, idle)
  }

  /** Threads asleep on e's own condition that no signal has reached yet. */
  function Sleepers(s: State, e: nat): set<nat> {
    set t | t in s.threads && s.threads[t].SingleAsleep? && s.threads[t].e == e && !s.threads[t].notified
  }

  function Rouse(s: State, woken: set<nat>): State {
    s.(threads := map u | u in s.threads ::
         if u in woken && s.threads[u].SingleAsleep? then s.threads[u].(notified := true) else s.threads[u])
  }

  function GoSignal(s: State, t: nat, woken: set<nat>): State {
    Move(Rouse(s, woken), t, Idle)
  }

  predicate Enabled(s: State, t: nat, a: Action) {
    && t in s.threads && PcOk(s, t)
    && var p := s.threads[t];
       match a
       case BeginWait(es, _, _) => AtRest(p) && forall k | 0 <= k < |es| :: es[k] in s.events
       case BeginSet(e) => AtRest(p) && e in s.events
       case BeginReset(e) => AtRest(p) && e in s.events
       case BeginSingle(e, _) => AtRest(p) && e in s.events
       case Go => !AtRest(p) && !p.Asleep? && !p.SingleAsleep? && !p.SetSignal? && !Blocked(s, t)
       case Wake => (p.Asleep? || p.SingleAsleep?) && !Blocked(s, t)
       case TimeOut =>
         && !Blocked(s, t)
         && ((p.Asleep? && s.waiters[p.w].limit == Finite) || (p.SingleAsleep? && p.limit == Finite))
       case Signal(woken) =>
         && p.SetSignal? && woken <= Sleepers(s, p.e)
         && (if s.events[p.e].autoReset then Sleepers(s, p.e) != {} ==> woken != {} else woken == Sleepers(s, p.e))
  }

  function GoFrom(s: State, t: nat): State
    requires Enabled(s, t, Go)
  {
    match s.threads[t]
    case Register(w, i) => GoRegister(s, t, w, i)
    case Clean(w, i, e, j) => GoClean(s, t, w, i, e, j)
    case CleanHold(w, i, e, j, x) => GoCleanHold(s, t, w, i, e, j, x)
    case Check(w) => GoCheck(s, t, w)
    case Finish(w, timedOut) => GoFinish(s, t, w, timedOut)
    case SetLock(e) => GoSetLock(s, t, e)
    case SetLoop(e, was) => GoSetLoop(s, t, e, was)
    case SetHold(e, was, x) => GoSetHold(s, t, e, was, x)
    case HandOver(e, x) => GoHandOver(s, t, e, x)
    case SetNotify(e, was, x) => GoSetNotify(s, t, e, was, x)
    case ResetLock(e) => GoReset(s, t, e)
    case SingleLock(e, limit) =>
      if s.events[e].owner.Some? then Move(s, t, SingleReturned(e, true))    // EBUSY, limit is Zero
      else GoSingle(s, t, e, if limit == Zero then SingleReturned(e, true) else SingleAsleep(e, limit, false))
  }

  function Next(s: State, t: nat, a: Action): State
    requires Enabled(s, t, a)
  {
    var p := s.threads[t];
    match a
    case BeginWait(es, waitAll, limit) => BeginWaiting(s, t, es, waitAll, limit)
    case BeginSet(e) => Move(s, t, SetLock(e))
    case BeginReset(e) => Move(s, t, ResetLock(e))
    case BeginSingle(e, limit) => Move(s, t, SingleLock(e, limit))
    case Go => GoFrom(s, t)
    case Wake =>
      if p.Asleep? then GoWaken(s, t, p.w, Check(p.w))
      else GoSingle(s, t, p.e, SingleAsleep(p.e, p.limit, false))
    case TimeOut =>
      if p.Asleep? then GoWaken(s, t, p.w, Finish(p.w, true))
      else Move(s, t, SingleReturned(p.e, true))
    case Signal(woken) => GoSignal(s, t, woken)
  }

  // ---------------------------------------------------------------- runs

  predicate Initial(s: State) {
    && (forall t | t in s.threads :: s.threads[t] == Idle)
    && (forall e | e in s.events :: s.events[e] == Created(s.events[e].autoReset, s.events[e].state))
    && s.waiters == []
  }

  /** An event as CreateEvent leaves it: an initial State counts as one SetEvent. */
  function Created(autoReset: bool, initialState: bool): Event {
    Event(autoReset, initialState, [], 0, None, Ledger(if initialState then 1 else 0, 0, 0, 0, []))
  }

  datatype Turn = Turn(thread: nat, action: Action)

  /** s' is where the run leads from s. */
  ghost predicate Leads(s: State, run: seq<Turn>, s': State)
    decreases |run|
  {
    if run == [] then s == s'
    else Enabled(s, run[0].thread, run[0].action)
         && Leads(Next(s, run[0].thread, run[0].action), run[1..], s')
  }

  ghost predicate Reachable(s: State) {
    exists s0, run :: Initial(s0) && Leads(s0, run, s)
  }
}
