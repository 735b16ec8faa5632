/** A heartbeat whose OnHeartbeatRequest answers itself, on top of the event protocol. */
module SelfAck {
  import opened Records
  import opened Protocol
  import opened Invariant
  import opened Heartbeat
  import opened Frames

  /** Only h waits for e, and nobody resets it.  Anybody may set it. */
  ghost predicate Private(s: State, h: nat, e: nat) {
    && (forall w: nat | w < |s.waiters| && e in s.waiters[w].events :: s.waiters[w].thread == h)
    && (forall t | t in s.threads :: !Interferes(s.threads[t], e))
  }

  predicate Interferes(p: Pc, e: nat) {
    (p.ResetLock? || p.SingleLock? || p.SingleAsleep?) && p.e == e
  }

  /** An action of another thread that leaves e private. */
  predicate Respects(a: Action, e: nat) {
    match a
    case BeginWait(es, _, _) => e !in es
    case BeginReset(f) => f != e
    case BeginSingle(f, _) => f != e
    case _ => true
  }

  /** h has sent itself a reply through e and has not consumed it yet, or has
      just been told of it. */
  predicate Pledged(s: State, h: nat, e: nat)
    requires h in s.threads && e in s.events
  {
    match s.threads[h]
    case SetLock(f) => f == e
    case SetLoop(f, _) => f == e
    case SetHold(f, _, _) => f == e
    case SetSignal(f) => f == e && s.events[e].state
    case Idle => s.events[e].state
    case Register(w, i) => i == 0 && s.events[e].state && WaitsFirst(s, w, e)
    case Clean(w, i, f, _) => i == 0 && f == e && s.events[e].state && WaitsFirst(s, w, e)
    case CleanHold(w, i, f, _, _) => i == 0 && f == e && s.events[e].state && WaitsFirst(s, w, e)
    case Finish(w, timedOut) => !timedOut && w < |s.waiters| && s.waiters[w].rec.status == 0
    case Returned(w, timedOut, k) => !timedOut && k == 0
    case _ => false
  }

  predicate WaitsFirst(s: State, w: nat, e: nat) {
    w < |s.waiters| && s.waiters[w].events != [] && s.waiters[w].events[0] == e && !s.waiters[w].rec.waitAll
  }

  lemma Harmless(s: State, t: nat, a: Action, e: nat)
    requires Enabled(s, t, a) && !a.BeginWait? && !Interferes(s.threads[t], e) && Respects(a, e)
    ensures t in Next(s, t, a).threads && !Interferes(Next(s, t, a).threads[t], e)
  {
    if a.Go? { GoFrame(s, t); }
    hide GoFrom;
  }

  lemma PrivateKept(s: State, t: nat, a: Action, h: nat, e: nat)
    requires Private(s, h, e) && Enabled(s, t, a) && (t == h || Respects(a, e))
    requires t == h && AtRest(s.threads[h]) ==> a.BeginWait? || a.BeginSet?
    ensures Private(Next(s, t, a), h, e)
  {
    var s' := Next(s, t, a);
    if !a.BeginWait? {
      hide Next;
      StepFrame(s, t, a);
      Harmless(s, t, a, e);
      forall w: nat | w < |s'.waiters| && e in s'.waiters[w].events ensures s'.waiters[w].thread == h {}
      forall u | u in s'.threads ensures !Interferes(s'.threads[u], e) {}
    }
  }

  // While a reply is set and not consumed nobody on e's list is still waiting.
  lemma NobodyLive(s: State, h: nat, e: nat, n: Entry)
    requires Inv(s) && h in s.threads && e in s.events && Private(s, h, e) && Pledged(s, h, e)
    requires !s.threads[h].Finish? && n in Pending(s.events[e])
    ensures n.waiter < |s.waiters| && !s.waiters[n.waiter].rec.stillWaiting
  {
    assert EventOk(s, e) && ValidEntry(s, e, n) && Registered(s, n);
    assert WaiterOk(s, n.waiter);
  }

  /** Another thread cannot take the reply away. */
  lemma ReplyStays(s: State, t: nat, a: Action, h: nat, e: nat)
    requires Inv(s) && h in s.threads && e in s.events && Private(s, h, e) && Pledged(s, h, e)
    requires !s.threads[h].Finish? && t != h && Enabled(s, t, a) && Respects(a, e) && s.events[e].state
    ensures e in Next(s, t, a).events && Next(s, t, a).events[e].state
  {
    hide Pledged, EventsOk, WaitersOk, ThreadsOk;
    match s.threads[t]
    case SetHold(f, was, x) =>
      if f == e {
        assert EventOk(s, e) by { StateHolds(s, e); }
        assert Pending(s.events[e])[0] == Current(s.events[e]);
        NobodyLive(s, h, e, Current(s.events[e]));
      }
    case Clean(w, i, f, j) => assert s.waiters[w].events[i] in s.waiters[w].events;
    case _ =>
  }

  lemma StateHolds(s: State, e: nat)
    requires Inv(s) && e in s.events
    ensures EventOk(s, e)
  {
  }

  // Others leave a wait whose mutex h holds as it is, but for a signal on its condition.
  lemma OwnedUntouched(s: State, t: nat, a: Action, h: nat, w: nat)
    requires Enabled(s, t, a) && t != h && w < |s.waiters| && s.waiters[w].owner == Some(h)
    ensures w < |Next(s, t, a).waiters| && SameButSignal(s.waiters[w], Next(s, t, a).waiters[w])
  {
    if a.Go? { OwnedByGo(s, t, h, w); }
    hide GoFrom;
  }

  predicate SameButSignal(v: Waiter, v': Waiter) {
    v' == v || v' == v.(rec := Notify(v.rec))
  }

  lemma OwnedByGo(s: State, t: nat, h: nat, w: nat)
    requires Enabled(s, t, Go) && t != h && w < |s.waiters| && s.waiters[w].owner == Some(h)
    ensures w < |GoFrom(s, t).waiters| && SameButSignal(s.waiters[w], GoFrom(s, t).waiters[w])
  {
  }

  lemma OtherPledge(s: State, t: nat, a: Action, h: nat, e: nat)
    requires Inv(s) && h in s.threads && e in s.events && Private(s, h, e) && Pledged(s, h, e)
    requires t != h && Enabled(s, t, a) && Respects(a, e)
    ensures h in Next(s, t, a).threads && e in Next(s, t, a).events && Pledged(Next(s, t, a), h, e)
  {
    var s' := Next(s, t, a);
    assert PcOk(s, h);
    assert s'.threads[h] == s.threads[h] by { if a.BeginWait? {} else { StepFrame(s, t, a); } }
    assert e in s'.events by { StepKinds(s, t, a); }
    if s.events[e].state && !s.threads[h].Finish? { ReplyStays(s, t, a, h, e); }
    var o := OwnWait(s.threads[h]);
    if o.Some? { OwnedUntouched(s, t, a, h, o.value); }
  }

  lemma OwnPledge(s: State, a: Action, h: nat, e: nat)
    requires Inv(s) && h in s.threads && e in s.events && Private(s, h, e) && Pledged(s, h, e)
    requires Enabled(s, h, a)
    requires AtRest(s.threads[h]) ==>
      s.threads[h].Idle? && a.BeginWait? && !a.waitAll && a.events != [] && a.events[0] == e
    ensures h in Next(s, h, a).threads && e in Next(s, h, a).events && Pledged(Next(s, h, a), h, e)
  {
    match s.threads[h]
    case SetHold(f, was, x) =>
      assert Pending(s.events[e])[0] == Current(s.events[e]);
      NobodyLive(s, h, e, Current(s.events[e]));
    case _ =>
    hide Inv, Private;
  }

  /** A pledge lasts until h has been told: whatever the others do, h's next wait
      can only end with index 0. */
  lemma PledgeKept(s: State, t: nat, a: Action, h: nat, e: nat)
    requires Inv(s) && h in s.threads && e in s.events && Private(s, h, e) && Pledged(s, h, e) && Enabled(s, t, a)
    requires t != h ==> Respects(a, e)
    requires t == h && AtRest(s.threads[h]) ==>
      s.threads[h].Idle? && a.BeginWait? && !a.waitAll && a.events != [] && a.events[0] == e
    ensures h in Next(s, t, a).threads && e in Next(s, t, a).events && Pledged(Next(s, t, a), h, e)
  {
    hide Inv, Private, Pledged, Next, Enabled;
    if t == h { OwnPledge(s, a, h, e); } else { OtherPledge(s, t, a, h, e); }
  }

  // ------------------------------------------------ the heartbeat thread

  /** Thread h runs the heartbeat loop on m_PEvent = {reply, terminate}; its
      callback answers every request by TriggerGetReplyEvent. */
  datatype Config = Config(h: nat, reply: nat, terminate: nat, interval: int)

  datatype Mode = Starting | Waiting | Acking

  /** `os` lists how the heartbeat's waits have ended so far. */
  datatype System = System(s: State, os: seq<Outcome>, mode: Mode)

  function Await(cfg: Config): Action {
    BeginWait([cfg.reply, cfg.terminate], false, Finite)
  }

  function OutcomeOf(p: Pc): Outcome
    requires p.Returned?
  {
    if p.timedOut then TimedOut else Fired(p.waitIndex)
  }

  ghost predicate Begins(cfg: Config, c: System) {
    && Initial(c.s) && cfg.h in c.s.threads && c.os == [] && c.mode == Starting
    && cfg.reply in c.s.events && c.s.events[cfg.reply] == Created(true, false)
    && cfg.terminate in c.s.events && c.s.events[cfg.terminate] == Created(true, false) && cfg.reply != cfg.terminate
  }

  /** Thread t does a.  Where the heartbeat thread is between two calls, the loop
      decides what a is; it takes no further step once it has made a final callback. */
  ghost predicate Step(cfg: Config, c: System, t: nat, a: Action, c': System) {
    && Enabled(c.s, t, a) && c'.s == Next(c.s, t, a)
    && (if t != cfg.h then Respects(a, cfg.reply) && c'.os == c.os && c'.mode == c.mode
        else if !AtRest(c.s.threads[t]) then c'.os == c.os && c'.mode == c.mode
        else if !c.mode.Waiting? then a == Await(cfg) && c'.os == c.os && c'.mode == Waiting
        else
          && c.s.threads[t].Returned? && c'.os == c.os + [OutcomeOf(c.s.threads[t])]
          && var call := Due(cfg.interval, 0, c'.os);
             && !Final(call)
             && (if call == Some(Request) then a == BeginSet(cfg.reply) && c'.mode == Acking
                 else a == Await(cfg) && c'.mode == Waiting))
  }

  /** c is where some run gets in n steps. */
  ghost predicate After(cfg: Config, c: System, n: nat)
    decreases n
  {
    if n == 0 then Begins(cfg, c)
    else exists b, t, a :: After(cfg, b, n - 1) && Step(cfg, b, t, a, c)
  }

  /** A request has been made and not been answered yet. */
  predicate Asked(cfg: Config, os: seq<Outcome>) {
    os != [] && Due(cfg.interval, 0, os) == Some(Request)
  }

  ghost predicate Good(cfg: Config, c: System) {
    && Inv(c.s) && cfg.h in c.s.threads && cfg.reply in c.s.events && Private(c.s, cfg.h, cfg.reply)
    && InPlace(cfg, c) && Alive(cfg.interval, c.os)
    && (if Asked(cfg, c.os) then Pledged(c.s, cfg.h, cfg.reply)
        else IdleFor(0, c.os) == 0 || IdleFor(0, c.os) < cfg.interval)
  }

  // Where the heartbeat thread is.
  predicate InPlace(cfg: Config, c: System)
    requires cfg.h in c.s.threads
  {
    var p := c.s.threads[cfg.h];
    match c.mode
    case Starting => p == Idle && c.os == []
    case Acking => Asked(cfg, c.os) && (p.Idle? || Answering(p, cfg.reply))
    case Waiting => HasWait(cfg, c.s, p)
  }

  predicate HasWait(cfg: Config, s: State, p: Pc) {
    && (OwnWait(p).Some? || p.Returned?)
    && var w := if p.Returned? then p.w else OwnWait(p).value;
       w < |s.waiters| && s.waiters[w].events == [cfg.reply, cfg.terminate] && !s.waiters[w].rec.waitAll
  }

  // Inside a call the heartbeat thread stays in it.
  lemma StaysIn(cfg: Config, s: State, a: Action)
    requires cfg.h in s.threads && Enabled(s, cfg.h, a) && HasWait(cfg, s, s.threads[cfg.h])
    requires !AtRest(s.threads[cfg.h])
    ensures cfg.h in Next(s, cfg.h, a).threads && HasWait(cfg, Next(s, cfg.h, a), Next(s, cfg.h, a).threads[cfg.h])
  {
    StepFrame(s, cfg.h, a);
    StaysInWait(s, cfg.h, a);
    hide Next;
  }

  lemma StaysInWait(s: State, h: nat, a: Action)
    requires Enabled(s, h, a) && OwnWait(s.threads[h]).Some?
    ensures h in Next(s, h, a).threads
    ensures var p := Next(s, h, a).threads[h]; var w := OwnWait(s.threads[h]).value;
      (p.Returned? && p.w == w) || OwnWait(p) == Some(w)
  {
  }

  // ... and so it does while it answers itself: nobody on the list takes the reply.
  lemma StaysAcking(s: State, h: nat, a: Action, e: nat)
    requires Inv(s) && e in s.events && Enabled(s, h, a) && Private(s, h, e) && Pledged(s, h, e)
    requires Answering(s.threads[h], e)
    ensures h in Next(s, h, a).threads
    ensures Next(s, h, a).threads[h].Idle? || Answering(Next(s, h, a).threads[h], e)
  {
    OwnPledge(s, a, h, e);
    hide Inv, Private;
  }

  predicate Answering(p: Pc, e: nat) {
    (p.SetLock? || p.SetLoop? || p.SetHold? || p.SetSignal?) && p.e == e
  }

  /** A wait on two events that has not timed out reports one of them. */
  lemma IndexInRange(s: State, t: nat)
    requires Inv(s) && t in s.threads && s.threads[t].Returned? && s.threads[t].w < |s.waiters|
    requires !s.waiters[s.threads[t].w].rec.waitAll && !s.threads[t].timedOut
    ensures 0 <= s.threads[t].waitIndex < |s.waiters[s.threads[t].w].events|
  {
    assert PcOk(s, t) && WaiterOk(s, s.threads[t].w);
  }

  lemma QuietAppend(os: seq<Outcome>, o: Outcome)
    ensures (os + [o])[..|os|] == os
    ensures IdleFor(0, os + [o]) ==
      match o
      case TimedOut => IdleFor(0, os) + IdleIncrement
      case _ => if o == Fired(0) then 0 else IdleFor(0, os)
  {
    Onward(0, os, o);
  }

  // The heartbeat thread comes back from a wait: what the loop does next.
  lemma Returns(cfg: Config, c: System)
    requires Good(cfg, c) && cfg.interval >= -5 && c.mode == Waiting && c.s.threads[cfg.h].Returned?
    ensures var o := OutcomeOf(c.s.threads[cfg.h]); var os := c.os + [o]; var call := Due(cfg.interval, 0, os);
      && (o.TimedOut? || o == Fired(0) || o == Fired(1))
      && (Asked(cfg, c.os) ==> o == Fired(0))
      && call != Some(Lost)
      && (Final(call) <==> o == Fired(1))
      && (IdleFor(0, os) < cfg.interval + IdleIncrement || IdleFor(0, os) <= IdleIncrement)
      && (!Final(call) ==>
            Alive(cfg.interval, os) && (Asked(cfg, os) || IdleFor(0, os) == 0 || IdleFor(0, os) < cfg.interval))
  {
    var p := c.s.threads[cfg.h];
    if !p.timedOut { IndexInRange(c.s, cfg.h); }
    hide Inv, Private;
    QuietAppend(c.os, OutcomeOf(p));
    hide IdleFor;
  }

  lemma BeginsGood(cfg: Config, c: System)
    requires Begins(cfg, c)
    ensures Good(cfg, c)
  {
    InitialOk(c.s);
    assert Private(c.s, cfg.h, cfg.reply);
    hide Inv;
  }

  // A step of another thread.
  lemma OtherStep(cfg: Config, c: System, t: nat, a: Action, c': System)
    requires Good(cfg, c) && Step(cfg, c, t, a, c') && t != cfg.h
    ensures Good(cfg, c')
  {
    NextOk(c.s, t, a);
    PrivateKept(c.s, t, a, cfg.h, cfg.reply);
    StepKinds(c.s, t, a);
    if Asked(cfg, c.os) { PledgeKept(c.s, t, a, cfg.h, cfg.reply); }
    OtherPlace(cfg, c.s, t, a);
    hide Inv, Private, Pledged, Next, Enabled, Alive, Asked, IdleFor;
  }

  lemma OtherPlace(cfg: Config, s: State, t: nat, a: Action)
    requires cfg.h in s.threads && Enabled(s, t, a) && t != cfg.h && !s.threads[cfg.h].SingleAsleep?
    ensures var s' := Next(s, t, a);
      cfg.h in s'.threads && s'.threads[cfg.h] == s.threads[cfg.h]
      && (HasWait(cfg, s, s.threads[cfg.h]) ==> HasWait(cfg, s', s'.threads[cfg.h]))
  {
    if a.BeginWait? {} else {
      StepFrame(s, t, a);
      hide Next;
    }
  }

  // A step of the heartbeat thread inside a call.
  lemma InnerStep(cfg: Config, c: System, a: Action, c': System)
    requires Good(cfg, c) && Step(cfg, c, cfg.h, a, c') && !AtRest(c.s.threads[cfg.h])
    ensures Good(cfg, c')
  {
    NextOk(c.s, cfg.h, a);
    PrivateKept(c.s, cfg.h, a, cfg.h, cfg.reply);
    StepKinds(c.s, cfg.h, a);
    if Asked(cfg, c.os) { PledgeKept(c.s, cfg.h, a, cfg.h, cfg.reply); }
    if c.mode.Waiting? { StaysIn(cfg, c.s, a); }
    if c.mode.Acking? { StaysAcking(c.s, cfg.h, a, cfg.reply); }
    hide Inv, Private, Pledged, Next, Enabled, Alive, Asked, IdleFor;
  }

  // The heartbeat thread starts to wait, or to answer itself.
  lemma LoopStep(cfg: Config, c: System, a: Action, c': System)
    requires Good(cfg, c) && cfg.interval >= -5 && Step(cfg, c, cfg.h, a, c') && AtRest(c.s.threads[cfg.h])
    ensures Good(cfg, c')
  {
    NextOk(c.s, cfg.h, a);
    PrivateKept(c.s, cfg.h, a, cfg.h, cfg.reply);
    hide Inv, Private;
    if c.mode.Waiting? {
      Returns(cfg, c);
      hide Alive, Asked, IdleFor, Due;
    } else {
      hide Alive, Asked, IdleFor, Due;
    }
  }

  lemma GoodStep(cfg: Config, c: System, t: nat, a: Action, c': System)
    requires Good(cfg, c) && cfg.interval >= -5 && Step(cfg, c, t, a, c')
    ensures Good(cfg, c')
  {
    if t != cfg.h { OtherStep(cfg, c, t, a, c'); }
    else if AtRest(c.s.threads[t]) { LoopStep(cfg, c, a, c'); }
    else { InnerStep(cfg, c, a, c'); }
    hide Good, Step;
  }

  lemma {:induction false} AfterGood(cfg: Config, c: System, n: nat)
    requires After(cfg, c, n) && cfg.interval >= -5
    ensures Good(cfg, c)
    decreases n
  {
    hide Good, Step, Begins;
    if n == 0 {
      BeginsGood(cfg, c);
    } else {
      var b, t, a :| After(cfg, b, n - 1) && Step(cfg, b, t, a, c);
      AfterGood(cfg, b, n - 1);
      GoodStep(cfg, b, t, a, c);
    }
  }

  /** On no run is a heartbeat that answers its own requests given up: after each
      request the next wait ends with index 0, the idle time stays below the interval plus one
      increment, and it makes a final callback exactly when a wait ends with index 1. */
  lemma NeverLost(cfg: Config, c: System, n: nat)
    requires After(cfg, c, n) && cfg.interval >= -5 && c.mode == Waiting && cfg.h in c.s.threads
    requires c.s.threads[cfg.h].Returned?
    ensures var o := OutcomeOf(c.s.threads[cfg.h]); var call := Due(cfg.interval, 0, c.os + [o]);
      && call != Some(Lost)
      && (Asked(cfg, c.os) ==> o == Fired(0))
      && (Final(call) <==> o == Fired(1))
      && (o == Fired(1) ==> call == Some(Error(0, "HEARTBEAT_TERMINATE")))
      && (cfg.interval > 0 ==> 0 <= IdleFor(0, c.os + [o]) < cfg.interval + IdleIncrement)
  {
    AfterGood(cfg, c, n);
    Returns(cfg, c);
    hide Good, After;
  }

  /** ... and then it is over: the heartbeat thread takes no further step. */
  lemma TerminateEnds(cfg: Config, c: System, n: nat, a: Action, c': System)
    requires After(cfg, c, n) && c.mode == Waiting && cfg.h in c.s.threads
    requires c.s.threads[cfg.h].Returned? && OutcomeOf(c.s.threads[cfg.h]) == Fired(1)
    ensures !Step(cfg, c, cfg.h, a, c')
  {
  }

  // ------------------------------------------------ the exact condition

  predicate Surrenders(cfg: Config, c: System) {
    && c.mode == Waiting && cfg.h in c.s.threads && c.s.threads[cfg.h].Returned?
    && Due(cfg.interval, 0, c.os + [OutcomeOf(c.s.threads[cfg.h])]) == Some(Lost)
  }

  // The heartbeat thread takes one more step inside its call.
  lemma Onwards(cfg: Config, c: System, n: nat, a: Action) returns (c': System)
    requires After(cfg, c, n) && Enabled(c.s, cfg.h, a) && !AtRest(c.s.threads[cfg.h])
    ensures c' == c.(s := Next(c.s, cfg.h, a)) && After(cfg, c', n + 1)
  {
    c' := c.(s := Next(c.s, cfg.h, a));
    assert Step(cfg, c, cfg.h, a, c');
  }

  // The heartbeat thread is alone, and its first wait has come as far as p.
  predicate Alone(cfg: Config, s: State, p: Pc, owned: bool) {
    && cfg.h in s.threads && s.threads[cfg.h] == p && |s.waiters| == 1 && cfg.reply != cfg.terminate
    && s.waiters[0].thread == cfg.h && s.waiters[0].events == [cfg.reply, cfg.terminate] && s.waiters[0].limit == Finite
    && s.waiters[0].owner == (if owned then Some(cfg.h) else None)
    && !s.waiters[0].rec.waitAll && s.waiters[0].rec.status == -1
    && cfg.reply in s.events && cfg.terminate in s.events
  }

  predicate Untouched(s: State, e: nat) {
    e in s.events && s.events[e] == Created(true, false)
  }

  // Locking event i of the array, and joining its list.
  lemma LocksOne(cfg: Config, s: State, i: nat, e: nat)
    requires Alone(cfg, s, Register(0, i), true) && i < 2 && e == [cfg.reply, cfg.terminate][i] && Untouched(s, e)
    ensures Enabled(s, cfg.h, Go) && Alone(cfg, Next(s, cfg.h, Go), Clean(0, i, e, 0), true)
    ensures Next(s, cfg.h, Go).events == s.events[e := Created(true, false).(owner := Some(cfg.h))]
  {
  }

  lemma JoinsOne(cfg: Config, s: State, i: nat, e: nat)
    requires Alone(cfg, s, Clean(0, i, e, 0), true) && i < 2 && e == [cfg.reply, cfg.terminate][i]
    requires s.events[e] == Created(true, false).(owner := Some(cfg.h))
    ensures Enabled(s, cfg.h, Go) && Alone(cfg, Next(s, cfg.h, Go), Register(0, i + 1), true)
    ensures forall f | f != e && Untouched(s, f) :: Untouched(Next(s, cfg.h, Go), f)
  {
  }

  lemma RegistersOne(cfg: Config, c: System, n: nat, i: nat) returns (c': System)
    requires After(cfg, c, n) && Alone(cfg, c.s, Register(0, i), true) && i < 2
    requires Untouched(c.s, [cfg.reply, cfg.terminate][i])
    ensures After(cfg, c', n + 2) && Alone(cfg, c'.s, Register(0, i + 1), true) && c'.os == c.os && c'.mode == c.mode
    ensures forall f | f != [cfg.reply, cfg.terminate][i] && Untouched(c.s, f) :: Untouched(c'.s, f)
  {
    hide After, Next, Enabled;
    var e := [cfg.reply, cfg.terminate][i];
    LocksOne(cfg, c.s, i, e);
    var c1 := Onwards(cfg, c, n, Go);
    JoinsOne(cfg, c1.s, i, e);
    c' := Onwards(cfg, c1, n + 1, Go);
  }

  lemma FallsAsleep(cfg: Config, s: State)
    requires Alone(cfg, s, Register(0, 2), true)
    ensures Enabled(s, cfg.h, Go) && Alone(cfg, Next(s, cfg.h, Go), Check(0), true)
    ensures var m := Next(s, cfg.h, Go);
      Enabled(m, cfg.h, Go) && Alone(cfg, Next(m, cfg.h, Go), Asleep(0), false)
  {
  }

  lemma WakesLate(cfg: Config, s: State)
    requires Alone(cfg, s, Asleep(0), false)
    ensures Enabled(s, cfg.h, TimeOut) && Alone(cfg, Next(s, cfg.h, TimeOut), Finish(0, true), true)
    ensures var m := Next(s, cfg.h, TimeOut);
      && Enabled(m, cfg.h, Go)
      && cfg.h in Next(m, cfg.h, Go).threads && Next(m, cfg.h, Go).threads[cfg.h] == Returned(0, true, -1)
  {
  }

  lemma TimesOut(cfg: Config, c: System, n: nat) returns (c': System)
    requires After(cfg, c, n) && Alone(cfg, c.s, Register(0, 2), true)
    ensures After(cfg, c', n + 4) && c'.os == c.os && c'.mode == c.mode
    ensures cfg.h in c'.s.threads && c'.s.threads[cfg.h] == Returned(0, true, -1)
  {
    hide After, Next, Enabled;
    FallsAsleep(cfg, c.s);
    var c1 := Onwards(cfg, c, n, Go);
    var c2 := Onwards(cfg, c1, n + 1, Go);
    WakesLate(cfg, c2.s);
    var c3 := Onwards(cfg, c2, n + 2, TimeOut);
    c' := Onwards(cfg, c3, n + 3, Go);
  }

  lemma StartsAlone(cfg: Config) returns (c: System)
    requires cfg.reply != cfg.terminate
    ensures After(cfg, c, 1) && c.os == [] && c.mode == Waiting && Alone(cfg, c.s, Register(0, 0), true)
    ensures Untouched(c.s, cfg.reply) && Untouched(c.s, cfg.terminate)
  {
    var s0 := State(map[cfg.h := Pc.Idle],
                    map[cfg.reply := Created(true, false), cfg.terminate := Created(true, false)], []);
    var c0 := System(s0, [], Starting);
    assert After(cfg, c0, 0);
    c := System(Next(s0, cfg.h, Await(cfg)), [], Waiting);
    assert Step(cfg, c0, cfg.h, Await(cfg), c);
  }

  /** A heartbeat that answers its own requests can be given up if and only if the
      very first time-out is already past the grace. */
  lemma GivenUpIff(cfg: Config)
    requires cfg.reply != cfg.terminate
    ensures cfg.interval < -5 <==> exists c, n :: After(cfg, c, n) && Surrenders(cfg, c)
  {
    if c, n :| After(cfg, c, n) && Surrenders(cfg, c) {
      if cfg.interval >= -5 { NeverLost(cfg, c, n); }
    }
    if cfg.interval < -5 { Hasty(cfg); }
  }

  lemma Hasty(cfg: Config)
    requires cfg.reply != cfg.terminate && cfg.interval < -5
    ensures exists c, n :: After(cfg, c, n) && Surrenders(cfg, c)
  {
    hide After;
    var c1 := StartsAlone(cfg);
    var c2 := RegistersOne(cfg, c1, 1, 0);
    var c3 := RegistersOne(cfg, c2, 3, 1);
    var c4 := TimesOut(cfg, c3, 5);
    QuietAppend([], TimedOut);
    assert c4.os + [OutcomeOf(c4.s.threads[cfg.h])] == [TimedOut];
    assert Surrenders(cfg, c4);
  }
}
