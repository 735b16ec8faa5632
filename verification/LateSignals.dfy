/** A setter signals a wait's condition after it has unlocked the wait.  When can the wait be freed by then? */
module LateSignals {
  import opened Records
  import opened Protocol
  import opened Invariant
  import opened Runs
  import opened Scenes
  import opened Frames

  /** Thread t is about to signal the condition of a wait of this call that has been freed. */
  ghost predicate Dangling(s: State, t: nat, c: Call) {
    && t in s.threads && (s.threads[t].HandOver? || s.threads[t].SetNotify?) && s.threads[t].x < |s.waiters|
    && var v := s.waiters[s.threads[t].x];
       v.rec.freed && v.events == c.es && v.limit == c.limit && v.rec.waitAll == c.waitAll
  }

  ghost predicate CanDangle(rule: Rule, c: Call) {
    exists s, t :: ReachableBy(rule, s) && Dangling(s, t, c)
  }

  /** The k-th event of the array occurs nowhere else in it. */
  predicate Once(es: seq<nat>, k: nat) {
    k < |es| && forall j | 0 <= j < |es| && j != k :: es[j] != es[k]
  }

  /** The wait can come to an end before the last signal to it, and nothing can be left listed. */
  ghost predicate Exposed(rule: Rule, c: Call) {
    && c.es != [] && c.limit != Zero
    && (rule.Free? || c.limit == Finite || (c.waitAll && |c.es| >= 2))
    && (c.waitAll || exists k :: Once(c.es, k))
  }

  // ----------------------------------------------------- it can happen

  // A wait that has left and is listed nowhere has been freed.
  lemma EmptyFreed(s: State, w: nat)
    requires Inv(s) && w < |s.waiters| && !Active(s, w)
    requires forall k | 0 <= k < |s.waiters[w].events| ::
      s.waiters[w].events[k] in s.events && s.events[s.waiters[w].events[k]].waits == []
    ensures s.waiters[w].rec.freed
  {
    assert WaiterOk(s, w);
    var v := s.waiters[w];
    assert forall k: nat | k < |v.events| :: !Listed(s, Entry(w, k), v.events[k]);
    hide Listed;
    assert v.regs == {};
  }

  lemma HandedStatus(s: State, c: Call, lo: nat, k: nat, x: nat)
    requires Handed(s, c, lo, k, x) && (c.waitAll ==> lo + 1 == |c.es|)
    ensures |s.waiters| == 1 && Ready(s.waiters[0].rec) && s.waiters[0].limit == c.limit
  {
    SpanOwn(c.es, x, lo, |c.es|);
    assert Span(c.es, x, lo, |c.es|)[0] in Span(c.es, x, lo, |c.es|);
    hide Span, Lists;
  }

  /** Thread 0 leaves before the signal: woken earlier or without one, or too late. */
  lemma LeavesBefore(rule: Rule, s: State, c: Call, lo: nat, k: nat, x: nat) returns (s': State, timedOut: bool)
    requires ReachableBy(rule, s) && Handed(s, c, lo, k, x) && (c.waitAll ==> lo + 1 == |c.es|)
    requires rule.Free? || c.limit == Finite || (|s.waiters| == 1 && s.waiters[0].rec.notified)
    ensures ReachableBy(rule, s') && Left(s, s', timedOut, HandOver(x, 0), Idle)
  {
    HandedAlone(s, c, lo, k, x);
    HandedStatus(s, c, lo, k, x);
    hide ReachableBy, Handed, Alone, Left;
    timedOut := c.limit == Finite;
    if timedOut {
      s' := LeavesLate(rule, s, HandOver(x, 0), Idle);
    } else {
      s' := LeavesAwake(rule, s, HandOver(x, 0), Idle);
    }
  }

  // All but the last event of a wait-all have been signalled, and the last is about to be.
  lemma AllDangles(rule: Rule, c: Call) returns (s: State)
    requires c.waitAll && Exposed(rule, c)
    ensures ReachableBy(rule, s) && Dangling(s, 1, c)
  {
    var n := |c.es| - 1;
    var x := c.es[n];
    var m := FallsAsleep(rule, c);
    m := GivesMost(rule, m, c, 0, n);
    assert Span(c.es, x, n, |c.es|) == [Entry(0, n)];
    m := Gives(rule, m, c, n, n, x);
    var timedOut;
    s, timedOut := LeavesBefore(rule, m, c, n, n, x);
    AllGone(rule, m, s, c, timedOut, x);
  }

  lemma AllGone(rule: Rule, m: State, s: State, c: Call, timedOut: bool, x: nat)
    requires ReachableBy(rule, s) && c.waitAll && c.es != [] && x == c.es[|c.es| - 1]
    requires Handed(m, c, |c.es| - 1, |c.es| - 1, x) && Left(m, s, timedOut, HandOver(x, 0), Idle)
    ensures Dangling(s, 1, c)
  {
    var n := |c.es| - 1;
    forall k | 0 <= k < |c.es| ensures s.events[c.es[k]].waits == [] {
      assert c.es[k] in m.events;
      assert Span(c.es, c.es[k], n, |c.es|) == if c.es[k] == x then [Entry(0, n)] else [];
    }
    ByReachable(rule, s);
    ReachableOk(s);
    hide Inv, Lists;
    EmptyFreed(s, 0);
  }

  // ---------------- a wait-any: the entries it leaves behind are swept up

  /** The wait has left, x is being signalled by thread 1, and thread 2 has swept
      the lists of the first j events; it may hold e. */
  ghost predicate Swept(s: State, c: Call, j: nat, x: nat, p: Pc, r: Pc, e: Option<nat>) {
    && j <= |c.es| && p.Returned? && s.threads == Crew(p, HandOver(x, 0), r) && |s.waiters| == 1
    && s.waiters[0].thread == 0 && s.waiters[0].events == c.es && s.waiters[0].limit == c.limit
    && s.waiters[0].rec.waitAll == c.waitAll && !s.waiters[0].rec.stillWaiting && s.waiters[0].owner == None
    && forall f {:trigger f in s.events} | f in c.es ::
      f in s.events && SweptEvent(s.events[f], f == x, f in c.es[..j], Some(f) == e)
  }

  predicate SweptEvent(ev: Event, given: bool, done: bool, held: bool) {
    && ev.autoReset && ev.fired == 0 && (forall n | n in ev.waits :: n.waiter == 0)
    && (given || done ==> ev.waits == [])
    && (held ==> ev.owner == Some(2) && ev.state)
    && (!given && !held ==> ev.owner == None && (ev.state ==> ev.waits == []))
  }

  lemma SweepStarts(m: State, s: State, c: Call, k: nat, timedOut: bool)
    requires !c.waitAll && Once(c.es, k) && Handed(m, c, 0, k, c.es[k])
    requires Left(m, s, timedOut, HandOver(c.es[k], 0), Idle)
    ensures Swept(s, c, 0, c.es[k], s.threads[0], Idle, None)
  {
    var x := c.es[k];
    forall f | f in c.es ensures f in s.events && SweptEvent(s.events[f], f == x, false, false) {
      SpanOwn(c.es, f, 0, |c.es|);
      if f == x {
        OnceSpan(c.es, k);
      }
    }
    assert c.es[..0] == [];
  }

  lemma OnceSpan(es: seq<nat>, k: nat)
    requires Once(es, k)
    ensures Span(es, es[k], 0, |es|) == [Entry(0, k)]
  {
    OnceSpanFrom(es, k, 0);
  }

  lemma {:induction false} OnceSpanFrom(es: seq<nat>, k: nat, lo: nat)
    requires Once(es, k) && lo <= k
    ensures Span(es, es[k], lo, |es|) == [Entry(0, k)]
    decreases k - lo
  {
    if lo < k { OnceSpanFrom(es, k, lo + 1); } else { SpanOwn(es, es[k], k + 1, |es|); }
  }

  // Thread 2 takes the lock of e.
  lemma SweepLocks(rule: Rule, s: State, c: Call, j: nat, x: nat, p: Pc, e: nat) returns (s': State, was: bool)
    requires ReachableBy(rule, s) && Swept(s, c, j, x, p, Idle, None) && e in c.es && e != x
    ensures ReachableBy(rule, s') && Swept(s', c, j, x, p, SetLoop(e, was), Some(e))
    ensures e in s'.events && (was ==> s'.events[e].waits == [])
  {
    hide ReachableBy;
    assert e in s.events;
    StepBy(rule, s, 2, BeginSet(e));
    var m := Move(s, 2, SetLock(e));
    StepBy(rule, m, 2, Go);
    s' := GoSetLock(m, 2, e);
    was := s.events[e].state;
    assert s'.threads == Crew(p, HandOver(x, 0), SetLoop(e, was));
  }

  // One entry goes: it is of the wait that has left.
  lemma SweepsOne(rule: Rule, s: State, c: Call, j: nat, x: nat, p: Pc, e: nat) returns (s': State)
    requires ReachableBy(rule, s) && Swept(s, c, j, x, p, SetLoop(e, false), Some(e)) && e in c.es && e != x
    requires e in s.events && s.events[e].waits != []
    ensures ReachableBy(rule, s') && Swept(s', c, j, x, p, SetLoop(e, false), Some(e))
    ensures e in s'.events && s'.events[e].waits == s.events[e].waits[1..]
  {
    hide ReachableBy;
    var m := GoSetLoop(s, 2, e, false);
    HoldsEntry(s, c, j, x, p, e);
    StepBy(rule, s, 2, Go);
    StepBy(rule, m, 2, Go);
    s' := GoSetHold(m, 2, e, false, 0);
    DropsEntry(s, c, j, x, p, e);
  }

  lemma HoldsEntry(s: State, c: Call, j: nat, x: nat, p: Pc, e: nat)
    requires Swept(s, c, j, x, p, SetLoop(e, false), Some(e)) && e in c.es && e != x
    requires e in s.events && s.events[e].waits != []
    ensures Enabled(s, 2, Go) && Next(s, 2, Go) == GoSetLoop(s, 2, e, false)
    ensures var m := GoSetLoop(s, 2, e, false);
      Enabled(m, 2, Go) && Next(m, 2, Go) == GoSetHold(m, 2, e, false, 0)
  {
    assert s.events[e].waits[0] in s.events[e].waits;
  }

  lemma DropsEntry(s: State, c: Call, j: nat, x: nat, p: Pc, e: nat)
    requires Swept(s, c, j, x, p, SetLoop(e, false), Some(e)) && e in c.es && e != x
    requires e in s.events && s.events[e].waits != [] && Enabled(s, 2, Go)
    ensures var s' := GoSetHold(GoSetLoop(s, 2, e, false), 2, e, false, 0);
      Swept(s', c, j, x, p, SetLoop(e, false), Some(e)) && s'.events[e].waits == s.events[e].waits[1..]
  {
    var ns := s.events[e].waits;
    assert ns[0] in ns && forall n | n in ns[1..] :: n in ns;
    var s' := GoSetHold(GoSetLoop(s, 2, e, false), 2, e, false, 0);
    assert s'.events[e].waits == ns[1..];
    assert s'.threads == Crew(p, HandOver(x, 0), SetLoop(e, false));
    assert s'.waiters[0].rec.stillWaiting == false;
    hide Enabled, PcOk;
  }

  lemma {:induction false} SweepsList(rule: Rule, s: State, c: Call, j: nat, x: nat, p: Pc, e: nat, was: bool)
    returns (s': State)
    requires ReachableBy(rule, s) && Swept(s, c, j, x, p, SetLoop(e, was), Some(e)) && e in c.es && e != x
    requires e in s.events && (was ==> s.events[e].waits == [])
    ensures ReachableBy(rule, s') && Swept(s', c, j, x, p, SetLoop(e, was), Some(e))
    ensures e in s'.events && s'.events[e].waits == []
    decreases |s.events[e].waits|
  {
    if s.events[e].waits == [] {
      s' := s;
    } else {
      hide ReachableBy, Swept;
      var m := SweepsOne(rule, s, c, j, x, p, e);
      s' := SweepsList(rule, m, c, j, x, p, e, was);
    }
  }

  // The setter ends, with nobody to signal.
  lemma SweepEnds(rule: Rule, s: State, c: Call, j: nat, x: nat, p: Pc, e: nat, was: bool) returns (s': State)
    requires ReachableBy(rule, s) && Swept(s, c, j, x, p, SetLoop(e, was), Some(e)) && e in c.es && e != x
    requires e in s.events && s.events[e].waits == [] && j < |c.es| && c.es[j] == e
    ensures ReachableBy(rule, s') && Swept(s', c, j + 1, x, p, Idle, None)
  {
    hide ReachableBy;
    StepBy(rule, s, 2, Go);
    var m := GoSetLoop(s, 2, e, was);
    assert m.threads == Crew(p, HandOver(x, 0), SetSignal(e));
    assert Sleepers(m, e) == {};
    StepBy(rule, m, 2, Signal({}));
    s' := GoSignal(m, 2, {});
    assert s'.threads == Crew(p, HandOver(x, 0), Idle);
    assert c.es[..j + 1] == c.es[..j] + [e];
  }

  // The event being signalled has nobody on its list anyway.
  lemma SweepSkips(s: State, c: Call, j: nat, x: nat, p: Pc)
    requires Swept(s, c, j, x, p, Idle, None) && j < |c.es| && c.es[j] == x
    ensures Swept(s, c, j + 1, x, p, Idle, None)
  {
    assert c.es[..j + 1] == c.es[..j] + [x];
    forall f | f in c.es ensures f in s.events && SweptEvent(s.events[f], f == x, f in c.es[..j + 1], false) {
      assert f in s.events;
    }
  }

  lemma {:induction false} SweepsAll(rule: Rule, s: State, c: Call, j: nat, x: nat, p: Pc) returns (s': State)
    requires ReachableBy(rule, s) && Swept(s, c, j, x, p, Idle, None)
    ensures ReachableBy(rule, s') && Swept(s', c, |c.es|, x, p, Idle, None)
    decreases |c.es| - j
  {
    hide ReachableBy, SweptEvent;
    if j == |c.es| {
      s' := s;
    } else if c.es[j] == x {
      SweepSkips(s, c, j, x, p);
      s' := SweepsAll(rule, s, c, j + 1, x, p);
    } else {
      var e := c.es[j];
      var m, was := SweepLocks(rule, s, c, j, x, p, e);
      m := SweepsList(rule, m, c, j, x, p, e, was);
      m := SweepEnds(rule, m, c, j, x, p, e, was);
      s' := SweepsAll(rule, m, c, j + 1, x, p);
    }
  }

  // A wait-any is given the event that it lists once, leaves, and its other entries are swept up.
  lemma AnyDangles(rule: Rule, c: Call, k: nat) returns (s: State)
    requires !c.waitAll && Exposed(rule, c) && Once(c.es, k)
    ensures ReachableBy(rule, s) && Dangling(s, 1, c)
  {
    var x := c.es[k];
    var m := FallsAsleep(rule, c);
    OnceSpan(c.es, k);
    m := Gives(rule, m, c, 0, k, x);
    var l, timedOut := LeavesBefore(rule, m, c, 0, k, x);
    SweepStarts(m, l, c, k, timedOut);
    s := SweepsAll(rule, l, c, 0, x, l.threads[0]);
    AnyGone(rule, s, c, x, l.threads[0]);
  }

  lemma AnyGone(rule: Rule, s: State, c: Call, x: nat, p: Pc)
    requires ReachableBy(rule, s) && Swept(s, c, |c.es|, x, p, Idle, None)
    ensures Dangling(s, 1, c)
  {
    assert c.es[..|c.es|] == c.es;
    forall k | 0 <= k < |c.es| ensures c.es[k] in s.events && s.events[c.es[k]].waits == [] {
      assert c.es[k] in s.events;
    }
    ByReachable(rule, s);
    ReachableOk(s);
    hide Inv;
    EmptyFreed(s, 0);
  }

  // ------------------------------------------ otherwise it cannot happen

  /** The setter t has given wait w its event e, and is still to signal it. */
  predicate Signals(p: Pc, w: nat, e: nat) {
    Notifies(p, w) && p.e == e
  }

  /** A signal to w on its way comes from a setter that had one, or has just found w waiting. */
  lemma SignalComes(s: State, u: nat, a: Action, t: nat, w: nat)
    requires Enabled(s, u, a) && t in Next(s, u, a).threads && Notifies(Next(s, u, a).threads[t], w)
    ensures t in s.threads
    ensures if t != u then Next(s, u, a).threads[t] == s.threads[t] else
              s.threads[t].SetHold? && s.threads[t].x == w && Next(s, u, a).threads[t].e == s.threads[t].e
              && w < |s.waiters| && s.waiters[w].rec.stillWaiting && a == Go
  {
    if a.Go? {
      GoFrame(s, u);
      if s.threads[u].SetHold? { HandsWaiting(s, u); }
    }
    hide GoFrom;
  }

  lemma HandsWaiting(s: State, u: nat)
    requires Enabled(s, u, Go) && s.threads[u].SetHold?
    ensures u in GoFrom(s, u).threads && s.threads[u].x < |s.waiters|
    ensures GoFrom(s, u).threads[u].HandOver? || GoFrom(s, u).threads[u].SetNotify? ==>
      s.waiters[s.threads[u].x].rec.stillWaiting
  {
  }

  /** v' is v later on.  A wait that no longer waits has its status for good. */
  predicate Later(v: Waiter, v': Waiter) {
    && v'.limit == v.limit && v'.events == v.events && v'.rec.waitAll == v.rec.waitAll && v'.thread == v.thread
    && (!v.rec.stillWaiting ==> !v'.rec.stillWaiting && v'.rec.status == v.rec.status)
  }

  ghost predicate AllLater(ws: seq<Waiter>, ws': seq<Waiter>) {
    |ws| <= |ws'| && forall w: nat | w < |ws| :: Later(ws[w], ws'[w])
  }

  lemma Steady(s: State, u: nat, a: Action)
    requires Inv(s) && Enabled(s, u, a)
    ensures AllLater(s.waiters, Next(s, u, a).waiters)
  {
    if a.Go? {
      if s.threads[u].Clean? { assert WaiterOk(s, s.threads[u].w); }
      hide Inv;
      SteadyGo(s, u);
    }
    hide Inv, GoFrom;
  }

  lemma SteadyClean(s: State, u: nat, w: nat, i: nat, e: nat, j: nat)
    requires Cleaning(s, u, w, i, e, j) && s.waiters[w].rec.stillWaiting
    ensures AllLater(s.waiters, GoClean(s, u, w, i, e, j).waiters)
  {
  }

  lemma SteadyCleanHold(s: State, u: nat, w: nat, i: nat, e: nat, j: nat, x: nat)
    requires e in s.events && j < |s.events[e].waits| && x < |s.waiters|
    ensures AllLater(s.waiters, GoCleanHold(s, u, w, i, e, j, x).waiters)
  {
  }

  lemma SteadySetHold(s: State, u: nat, e: nat, was: bool, x: nat)
    requires e in s.events && s.events[e].fired < |s.events[e].waits| && x < |s.waiters|
    ensures AllLater(s.waiters, GoSetHold(s, u, e, was, x).waiters)
  {
  }

  lemma SteadyGo(s: State, u: nat)
    requires Enabled(s, u, Go)
    requires s.threads[u].Clean? ==> s.waiters[s.threads[u].w].rec.stillWaiting
    ensures AllLater(s.waiters, GoFrom(s, u).waiters)
  {
    match s.threads[u]
    case Clean(w, i, e, j) => SteadyClean(s, u, w, i, e, j);
    case CleanHold(w, i, e, j, x) => SteadyCleanHold(s, u, w, i, e, j, x);
    case SetHold(e, was, x) => SteadySetHold(s, u, e, was, x);
    case _ =>
    hide GoClean, GoCleanHold, GoSetHold;
  }

  // While t holds event e, nobody else takes an entry for it off.
  lemma StaysListed(s: State, u: nat, a: Action, w: nat, j: nat, t: nat)
    requires Inv(s) && Enabled(s, u, a) && t != u && w < |s.waiters| && j in s.waiters[w].regs
    requires j < |s.waiters[w].events| && s.waiters[w].events[j] in s.events
    requires s.events[s.waiters[w].events[j]].owner == Some(t)
    ensures w < |Next(s, u, a).waiters| && j in Next(s, u, a).waiters[w].regs
  {
    match s.threads[u]
    case CleanHold(v, i, e, k, x) =>
      assert EventOk(s, e);
      assert ValidEntry(s, e, s.events[e].waits[k]);
      hide Inv, EventOk;
      StaysByCleaner(s, u, v, i, e, k, x, w, j);
    case SetHold(e, was, x) =>
      assert EventOk(s, e);
      assert ValidEntry(s, e, Current(s.events[e]));
      hide Inv, EventOk;
      StaysBySetter(s, u, e, was, x, w, j);
    case _ => StaysByOthers(s, u, a, w, j);
    hide Inv, EventOk, GoCleanHold, GoSetHold;
  }

  lemma StaysByCleaner(s: State, u: nat, v: nat, i: nat, e: nat, k: nat, x: nat, w: nat, j: nat)
    requires e in s.events && k < |s.events[e].waits| && s.events[e].waits[k].waiter == x < |s.waiters|
    requires w < |s.waiters| && j in s.waiters[w].regs && s.events[e].waits[k] != Entry(w, j)
    ensures j in GoCleanHold(s, u, v, i, e, k, x).waiters[w].regs
  {
  }

  lemma StaysBySetter(s: State, u: nat, e: nat, was: bool, x: nat, w: nat, j: nat)
    requires e in s.events && s.events[e].fired < |s.events[e].waits| && Current(s.events[e]).waiter == x < |s.waiters|
    requires w < |s.waiters| && j in s.waiters[w].regs && Current(s.events[e]) != Entry(w, j)
    ensures j in GoSetHold(s, u, e, was, x).waiters[w].regs
  {
  }

  lemma StaysByOthers(s: State, u: nat, a: Action, w: nat, j: nat)
    requires Enabled(s, u, a) && !s.threads[u].CleanHold? && !s.threads[u].SetHold?
    requires w < |s.waiters| && j in s.waiters[w].regs
    ensures w < |Next(s, u, a).waiters| && j in Next(s, u, a).waiters[w].regs
  {
  }

  /** What a setter that has given w its event e, and is still to signal it, can rely on. */
  ghost predicate Entitled(s: State, w: nat, e: nat) {
    && w < |s.waiters|
    && var v := s.waiters[w];
       && v.limit != Zero && v.events != []
       && (!v.rec.waitAll ==>
             && !v.rec.stillWaiting && 0 <= v.rec.status < |v.events| && v.events[v.rec.status] == e
             && forall j | 0 <= j < |v.events| && j != v.rec.status && v.events[j] == e :: j in v.regs)
  }

  ghost predicate AllEntitled(s: State) {
    forall t, w: nat, e | t in s.threads && Signals(s.threads[t], w, e) :: Entitled(s, w, e)
  }

  lemma StaysEntitled(s: State, u: nat, a: Action, t: nat, w: nat, e: nat)
    requires Inv(s) && Enabled(s, u, a) && t != u && t in s.threads && Signals(s.threads[t], w, e) && Entitled(s, w, e)
    ensures Entitled(Next(s, u, a), w, e)
  {
    assert PcOk(s, t);
    Steady(s, u, a);
    assert Later(s.waiters[w], Next(s, u, a).waiters[w]);
    var v := s.waiters[w];
    forall j: nat | !v.rec.waitAll && j < |v.events| && j != v.rec.status && v.events[j] == e
      ensures j in Next(s, u, a).waiters[w].regs
    {
      StaysListed(s, u, a, w, j, t);
    }
    hide Inv, Next;
  }

  // The setter has just given w its event.
  lemma BecomesEntitled(s: State, t: nat, e: nat, was: bool, w: nat)
    requires Inv(s) && AtSetHold(s, t, e, was, w) && s.waiters[w].rec.stillWaiting
    ensures Entitled(GoSetHold(s, t, e, was, w), w, e)
  {
    assert EventOk(s, e) && WaiterOk(s, w);
    HeldAsleep(s, t, e, was, w);
    var n := Current(s.events[e]);
    assert ValidEntry(s, e, n);
    hide Inv, EventOk, LinksOk;
  }

  lemma StepEntitled(s: State, u: nat, a: Action)
    requires Inv(s) && Enabled(s, u, a) && AllEntitled(s)
    ensures AllEntitled(Next(s, u, a))
  {
    var s' := Next(s, u, a);
    hide Inv, Entitled, Next;
    forall t, w: nat, e | t in s'.threads && Signals(s'.threads[t], w, e) ensures Entitled(s', w, e) {
      SignalComes(s, u, a, t, w);
      if t != u {
        assert Signals(s.threads[t], w, e);
        StaysEntitled(s, u, a, t, w, e);
      } else {
        HandsOver(s, t, w);
        BecomesEntitled(s, t, s.threads[t].e, s.threads[t].was, w);
      }
    }
  }

  lemma HandsOver(s: State, t: nat, x: nat)
    requires Enabled(s, t, Go) && s.threads[t].SetHold? && s.threads[t].x == x
    ensures AtSetHold(s, t, s.threads[t].e, s.threads[t].was, x)
    ensures Next(s, t, Go) == GoSetHold(s, t, s.threads[t].e, s.threads[t].was, x)
  {
  }

  lemma {:induction false} RunEntitled(rule: Rule, s: State, n: nat)
    requires InSteps(rule, s, n)
    ensures AllEntitled(s)
    decreases n
  {
    hide Enabled, Allowed, Next, AllEntitled;
    if n == 0 {
      assert AllEntitled(s) by { NoSetters(s); }
    } else {
      var m, t, a :| InSteps(rule, m, n - 1) && By(rule, m, t, a, s);
      RunEntitled(rule, m, n - 1);
      InStepsReachable(rule, m, n - 1);
      ReachableOk(m);
      StepEntitled(m, t, a);
    }
  }

  lemma NoSetters(s: State)
    requires Initial(s)
    ensures AllEntitled(s)
  {
  }

  // ---------------------- an infinite wait that is given at most one event

  predicate OneShot(v: Waiter) {
    v.limit == Infinite && (v.rec.waitAll ==> |v.events| <= 1)
  }

  /** Such a wait sleeps until it has been signalled, and there is one signal only. */
  ghost predicate Patient(s: State, w: nat)
    requires w < |s.waiters|
  {
    && (forall t {:trigger s.threads[t]} | t in s.threads && Notifies(s.threads[t], w) :: SoleSignal(s, w, t))
    && (PcOf(s, w) == Asleep(w) && s.waiters[w].got == {} ==> !s.waiters[w].rec.notified)
  }

  // The only signal to w is to come from t.
  ghost predicate SoleSignal(s: State, w: nat, t: nat)
    requires w < |s.waiters|
  {
    && PcOf(s, w) == Asleep(w) && !s.waiters[w].rec.notified && s.waiters[w].got != {}
    && forall u {:trigger s.threads[u]} | u in s.threads && Notifies(s.threads[u], w) :: u == t
  }

  predicate Unmoved(v: Waiter, v': Waiter, signal: bool) {
    v'.got == v.got && v'.thread == v.thread && v'.rec.notified == (v.rec.notified || signal)
  }

  /** What a step of another thread does to w, when it does not give it anything. */
  lemma Unaffected(s: State, u: nat, a: Action, w: nat)
    requires Enabled(s, u, a) && w < |s.waiters| && u != s.waiters[w].thread
    requires !(s.threads[u].SetHold? && s.threads[u].x == w && s.waiters[w].rec.stillWaiting)
    ensures w < |Next(s, u, a).waiters| && Unmoved(s.waiters[w], Next(s, u, a).waiters[w], Notifies(s.threads[u], w))
    ensures (PcOf(Next(s, u, a), w) == Asleep(w)) == (PcOf(s, w) == Asleep(w))
  {
    if a.Go? { UnaffectedGo(s, u, w); }
    hide GoFrom;
  }

  lemma UnaffectedGo(s: State, u: nat, w: nat)
    requires Enabled(s, u, Go) && w < |s.waiters| && u != s.waiters[w].thread
    requires !(s.threads[u].SetHold? && s.threads[u].x == w && s.waiters[w].rec.stillWaiting)
    ensures w < |GoFrom(s, u).waiters| && Unmoved(s.waiters[w], GoFrom(s, u).waiters[w], Notifies(s.threads[u], w))
    ensures PcOf(GoFrom(s, u), w) == PcOf(s, w)
  {
    match s.threads[u]
    case Clean(v, i, e, j) => UnmovedByCleaner(s, u, v, i, e, j, w);
    case CleanHold(v, i, e, j, x) => UnmovedByHolder(s, u, v, i, e, j, x, w);
    case SetHold(e, was, x) => UnmovedBySetter(s, u, e, was, x, w);
    case _ =>
    hide GoClean, GoCleanHold, GoSetHold;
  }

  lemma UnmovedByCleaner(s: State, u: nat, v: nat, i: nat, e: nat, j: nat, w: nat)
    requires Cleaning(s, u, v, i, e, j) && w < |s.waiters| && w != v && u != s.waiters[w].thread
    ensures w < |GoClean(s, u, v, i, e, j).waiters|
    ensures Unmoved(s.waiters[w], GoClean(s, u, v, i, e, j).waiters[w], false)
    ensures PcOf(GoClean(s, u, v, i, e, j), w) == PcOf(s, w)
  {
  }

  lemma UnmovedByHolder(s: State, u: nat, v: nat, i: nat, e: nat, j: nat, x: nat, w: nat)
    requires e in s.events && j < |s.events[e].waits| && x < |s.waiters| && w < |s.waiters| && u != s.waiters[w].thread
    ensures Unmoved(s.waiters[w], GoCleanHold(s, u, v, i, e, j, x).waiters[w], false)
    ensures PcOf(GoCleanHold(s, u, v, i, e, j, x), w) == PcOf(s, w)
  {
  }

  lemma UnmovedBySetter(s: State, u: nat, e: nat, was: bool, x: nat, w: nat)
    requires e in s.events && s.events[e].fired < |s.events[e].waits| && x < |s.waiters|
    requires w < |s.waiters| && u != s.waiters[w].thread && !(x == w && s.waiters[w].rec.stillWaiting)
    ensures Unmoved(s.waiters[w], GoSetHold(s, u, e, was, x).waiters[w], false)
    ensures PcOf(GoSetHold(s, u, e, was, x), w) == PcOf(s, w)
  {
  }

  lemma GotNothing(v: Waiter, k: nat)
    requires CountsOk(v, true) && Joined(v) && v.rec.stillWaiting && k in v.regs && OneShot(v)
    ensures v.got == {}
  {
    assert k < |v.events|;
    assert forall j | j in v.got :: j < |v.events| && j != k;
  }

  // A wait of this kind that a setter can still give something has got nothing.
  lemma NothingYet(s: State, t: nat, e: nat, was: bool, w: nat)
    requires Inv(s) && AtSetHold(s, t, e, was, w) && s.waiters[w].rec.stillWaiting && OneShot(s.waiters[w])
    ensures s.waiters[w].got == {} && PcOf(s, w) == Asleep(w)
  {
    assert EventOk(s, e) && WaiterOk(s, w);
    HeldAsleep(s, t, e, was, w);
    assert Registered(s, Current(s.events[e]));
    hide Inv, EventOk, LinksOk, CountsOk, Joined;
    GotNothing(s.waiters[w], Current(s.events[e]).index);
  }

  lemma GivenPatient(s: State, t: nat, e: nat, was: bool, w: nat)
    requires Inv(s) && AtSetHold(s, t, e, was, w) && s.waiters[w].rec.stillWaiting && OneShot(s.waiters[w])
    requires Patient(s, w)
    ensures Patient(GoSetHold(s, t, e, was, w), w)
  {
    NothingYet(s, t, e, was, w);
    var s' := GoSetHold(s, t, e, was, w);
    hide Inv;
    assert forall u | u in s.threads :: !Notifies(s.threads[u], w);
    assert s'.threads == s.threads[t := s'.threads[t]];
  }

  // A step of another thread that gives w nothing.
  lemma OtherPatient(s: State, u: nat, a: Action, w: nat)
    requires Enabled(s, u, a) && w < |s.waiters| && u != s.waiters[w].thread && Patient(s, w)
    requires !(s.threads[u].SetHold? && s.threads[u].x == w && s.waiters[w].rec.stillWaiting)
    ensures w < |Next(s, u, a).waiters| && Patient(Next(s, u, a), w)
  {
    var s' := Next(s, u, a);
    Unaffected(s, u, a, w);
    hide Next;
    forall t | t in s'.threads && Notifies(s'.threads[t], w) ensures SoleSignal(s', w, t) {
      SignalComes(s, u, a, t, w);
      forall v | v in s'.threads && Notifies(s'.threads[v], w) ensures v == t { SignalComes(s, u, a, v, w); }
    }
  }

  // A step of the waiting thread itself: it does not wake up before the signal.
  lemma OwnPatient(s: State, a: Action, w: nat)
    requires Inv(s) && w < |s.waiters| && Enabled(s, s.waiters[w].thread, a) && Patient(s, w) && OneShot(s.waiters[w])
    requires Allowed(NoSpurious, s, s.waiters[w].thread, a)
    ensures w < |Next(s, s.waiters[w].thread, a).waiters| && Patient(Next(s, s.waiters[w].thread, a), w)
  {
    var u := s.waiters[w].thread;
    var s' := Next(s, u, a);
    assert forall t | t in s.threads && t != u :: !Notifies(s.threads[t], w) by { Undisturbed(s, a, w); }
    Steady(s, u, a);
    assert Later(s.waiters[w], s'.waiters[w]);
    if u in s'.threads && s'.threads[u] == Asleep(w) { Slept(s, u, a, w); }
    if PcOf(s, w).SetHold? { NoGift(s, w); }
    hide Inv, Next;
    forall t | t in s'.threads ensures !Notifies(s'.threads[t], w) {
      if Notifies(s'.threads[t], w) { SignalComes(s, u, a, t, w); }
    }
  }

  // A thread that is setting an event is in no wait of its own.
  lemma NoGift(s: State, w: nat)
    requires Inv(s) && w < |s.waiters| && PcOf(s, w).SetHold?
    ensures !s.waiters[w].rec.stillWaiting
  {
    assert WaiterOk(s, w);
  }

  lemma Undisturbed(s: State, a: Action, w: nat)
    requires w < |s.waiters| && Enabled(s, s.waiters[w].thread, a) && Patient(s, w) && s.waiters[w].limit == Infinite
    requires Allowed(NoSpurious, s, s.waiters[w].thread, a)
    ensures forall t | t in s.threads :: !Notifies(s.threads[t], w)
  {
    forall t | t in s.threads ensures !Notifies(s.threads[t], w) {
      assert Notifies(s.threads[t], w) ==> SoleSignal(s, w, t);
    }
  }

  // A thread goes to sleep from its check, unsignalled.
  lemma Slept(s: State, u: nat, a: Action, w: nat)
    requires Enabled(s, u, a) && u in Next(s, u, a).threads && Next(s, u, a).threads[u] == Asleep(w)
    ensures w < |Next(s, u, a).waiters| && !Next(s, u, a).waiters[w].rec.notified
  {
    if a.Go? { SleptGo(s, u, w); }
    hide GoFrom;
  }

  lemma SleptGo(s: State, u: nat, w: nat)
    requires Enabled(s, u, Go) && u in GoFrom(s, u).threads && GoFrom(s, u).threads[u] == Asleep(w)
    ensures w < |GoFrom(s, u).waiters| && !GoFrom(s, u).waiters[w].rec.notified
  {
    GoFrame(s, u);
    assert GoFrom(s, u) == GoCheck(s, u, w);
  }

  lemma StepPatient(s: State, u: nat, a: Action, w: nat)
    requires Inv(s) && Enabled(s, u, a) && Allowed(NoSpurious, s, u, a) && w < |s.waiters|
    requires OneShot(s.waiters[w]) && Patient(s, w)
    ensures w < |Next(s, u, a).waiters| && Patient(Next(s, u, a), w)
  {
    var given := s.threads[u].SetHold? && s.threads[u].x == w && s.waiters[w].rec.stillWaiting;
    hide Inv, Patient, Next, Allowed;
    if given {
      HandsOver(s, u, w);
      GivenPatient(s, u, s.threads[u].e, s.threads[u].was, w);
      assert a == Go by { OnlyGo(s, u, a); }
    } else if u == s.waiters[w].thread {
      OwnPatient(s, a, w);
    } else {
      OtherPatient(s, u, a, w);
    }
  }

  lemma OnlyGo(s: State, u: nat, a: Action)
    requires Enabled(s, u, a) && s.threads[u].SetHold?
    ensures a == Go
  {
  }

  ghost predicate AllPatient(s: State) {
    forall w: nat {:trigger Patient(s, w)} | w < |s.waiters| && OneShot(s.waiters[w]) :: Patient(s, w)
  }

  lemma {:induction false} RunPatient(s: State, n: nat)
    requires InSteps(NoSpurious, s, n)
    ensures AllPatient(s)
    decreases n
  {
    hide Enabled, Allowed, Next, Patient;
    if n > 0 {
      var m, t, a :| InSteps(NoSpurious, m, n - 1) && By(NoSpurious, m, t, a, s);
      RunPatient(m, n - 1);
      InStepsReachable(NoSpurious, m, n - 1);
      ReachableOk(m);
      Steady(m, t, a);
      forall w: nat | w < |s.waiters| && OneShot(s.waiters[w]) ensures Patient(s, w) {
        if w < |m.waiters| {
          assert Later(m.waiters[w], s.waiters[w]);
          StepPatient(m, t, a, w);
        } else {
          NewPatient(m, t, a, w);
        }
      }
    }
  }

  // Nobody can have a signal for a wait that has just begun.
  lemma NewPatient(s: State, u: nat, a: Action, w: nat)
    requires Inv(s) && Enabled(s, u, a) && |s.waiters| <= w < |Next(s, u, a).waiters|
    ensures Patient(Next(s, u, a), w)
  {
    var s' := Next(s, u, a);
    if !a.BeginWait? { StepFrame(s, u, a); }
    forall t | t in s.threads ensures !Notifies(s.threads[t], w) { assert PcOk(s, t); }
    assert PcOf(s', w) != Asleep(w);
  }

  // A signal on its way to a freed wait: the wait was of an exposed kind.
  lemma DanglesOnly(rule: Rule, s: State, t: nat, c: Call)
    requires rule.Free? || rule.NoSpurious?
    requires ReachableBy(rule, s) && Dangling(s, t, c)
    ensures Exposed(rule, c)
  {
    var n: nat :| InSteps(rule, s, n);
    RunEntitled(rule, s, n);
    ByReachable(rule, s);
    ReachableOk(s);
    var w, e := s.threads[t].x, s.threads[t].e;
    assert Signals(s.threads[t], w, e);
    assert Entitled(s, w, e);
    assert WaiterOk(s, w);
    if !c.waitAll { Leftover(s, w, e); }
    if rule.NoSpurious? {
      RunPatient(s, n);
      if OneShot(s.waiters[w]) { PatientInUse(s, w, t); }
    }
    hide Inv, WaiterOk, AllEntitled, ReachableBy, InSteps, AllPatient;
  }

  // Freed, so nothing is listed any more.
  lemma Leftover(s: State, w: nat, e: nat)
    requires w < |s.waiters| && WaiterOk(s, w) && s.waiters[w].rec.freed && Entitled(s, w, e)
    requires !s.waiters[w].rec.waitAll
    ensures Once(s.waiters[w].events, s.waiters[w].rec.status)
  {
  }

  // A wait that is sure to sleep until its signal comes has not been freed.
  lemma PatientInUse(s: State, w: nat, t: nat)
    requires Inv(s) && AllPatient(s) && w < |s.waiters| && OneShot(s.waiters[w])
    requires t in s.threads && Notifies(s.threads[t], w)
    ensures !s.waiters[w].rec.freed
  {
    assert Patient(s, w) && WaiterOk(s, w);
    hide Inv, LinksOk, AllPatient;
    assert SoleSignal(s, w, t);
  }

  /** A setter can be about to signal a wait that has been freed if and only if
      the call is an exposed one.  In runs without spurious wake-ups that leaves
      out the infinite wait-any, and the infinite wait-all for one event. */
  lemma DanglesIff(rule: Rule, c: Call)
    requires rule.Free? || rule.NoSpurious?
    ensures CanDangle(rule, c) <==> Exposed(rule, c)
  {
    hide ReachableBy, Dangling;
    if s, t :| ReachableBy(rule, s) && Dangling(s, t, c) { DanglesOnly(rule, s, t, c); }
    if Exposed(rule, c) {
      if c.waitAll {
        var s := AllDangles(rule, c);
      } else {
        var k :| Once(c.es, k);
        var s := AnyDangles(rule, c, k);
      }
    }
  }

  /** For an array without repetition, as the callers in this repository use:
      any call that may sleep, if waits can end early. */
  lemma DistinctExposed(rule: Rule, c: Call)
    requires forall p, q | 0 <= p < q < |c.es| :: c.es[p] != c.es[q]
    ensures Exposed(rule, c) <==>
      c.es != [] && c.limit != Zero && (rule.Free? || c.limit == Finite || (c.waitAll && |c.es| >= 2))
  {
    if c.es != [] { assert Once(c.es, 0); }
  }
}
