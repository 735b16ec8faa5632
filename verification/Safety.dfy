/** What a caller can rely on in every reachable state of the protocol. */
module Safety {
  import opened Records
  import opened Protocol
  import opened Invariant
  import opened Wakeups

  // ------------------------------------------------- reference ownership

  /** Where a wait is mentioned: event and position, over all lists, leaving
      out the entries a manual-reset setter has already served. */
  ghost function Mentions(s: State, w: nat): set<(nat, nat)> {
    set e, p | e in s.events && 0 <= p < |s.events[e].waits| && s.events[e].fired <= p
               && s.events[e].waits[p].waiter == w :: (e, p)
  }

  lemma {:induction false} ImageSize<A, B>(a: set<A>, b: set<B>, f: A -> B)
    requires forall x | x in a :: f(x) in b
    requires forall x, y | x in a && y in a && x != y :: f(x) != f(y)
    requires forall z | z in b :: exists x :: x in a && f(x) == z
    ensures |a| == |b|
  {
    if a == {} {
      assert b == {};
    } else {
      var x :| x in a;
      ImageSize(a - {x}, b - {f(x)}, f);
    }
  }

  ghost function IndexAt(s: State, m: (nat, nat)): nat {
    if m.0 in s.events && m.1 < |s.events[m.0].waits| then s.events[m.0].waits[m.1].index else 0
  }

  lemma MentionIs(s: State, w: nat, m: (nat, nat))
    requires EventsOk(s) && w < |s.waiters| && m in Mentions(s, w)
    ensures var k := IndexAt(s, m);
      k in s.waiters[w].regs && k < |s.waiters[w].events| && s.waiters[w].events[k] == m.0
  {
    assert EventOk(s, m.0);
    var ev := s.events[m.0];
    assert Pending(ev)[m.1 - ev.fired] == ev.waits[m.1];
    assert ValidEntry(s, m.0, ev.waits[m.1]) && Registered(s, ev.waits[m.1]);
  }

  lemma MentionOnce(s: State, w: nat, m: (nat, nat), n: (nat, nat))
    requires EventsOk(s) && w < |s.waiters| && m in Mentions(s, w) && n in Mentions(s, w) && m != n
    ensures IndexAt(s, m) != IndexAt(s, n)
  {
    MentionIs(s, w, m);
    MentionIs(s, w, n);
    assert EventOk(s, m.0);
    var ev := s.events[m.0];
    if m.0 == n.0 { PendingDistinct(ev, m.1, n.1); }
  }

  lemma MentionFor(s: State, w: nat, k: nat) returns (m: (nat, nat))
    requires WaitersOk(s) && w < |s.waiters| && k in s.waiters[w].regs
    ensures m in Mentions(s, w) && IndexAt(s, m) == k
  {
    assert WaiterOk(s, w);
    var e := s.waiters[w].events[k];
    assert Listed(s, Entry(w, k), e);
    var p :| 0 <= p < |Pending(s.events[e])| && Pending(s.events[e])[p] == Entry(w, k);
    m := (e, s.events[e].fired + p);
  }

  /** A wait is listed once for every index that is registered, on that index's event. */
  lemma MentionsAreRegs(s: State, w: nat)
    requires Inv(s) && w < |s.waiters|
    ensures |Mentions(s, w)| == |s.waiters[w].regs|
  {
    hide EventsOk, WaitersOk, ThreadsOk, IndexAt, Mentions;
    var ms := Mentions(s, w);
    var regs := s.waiters[w].regs;
    forall m | m in ms ensures IndexAt(s, m) in regs { MentionIs(s, w, m); }
    forall m, n | m in ms && n in ms && m != n ensures IndexAt(s, m) != IndexAt(s, n) { MentionOnce(s, w, m, n); }
    forall k | k in regs ensures exists m :: m in ms && IndexAt(s, m) == k { var m := MentionFor(s, w, k); }
    ImageSize(ms, regs, m => IndexAt(s, m));
  }

  /** RefCount is the number of list entries that mention the wait, plus one
      until its own thread has left; it is freed exactly when neither remains. */
  lemma ReferenceCount(s: State, w: nat)
    requires Reachable(s) && w < |s.waiters|
    ensures s.waiters[w].rec.refCount == |Mentions(s, w)| + (if Active(s, w) then 1 else 0)
    ensures s.waiters[w].rec.freed <==> Mentions(s, w) == {} && !Active(s, w)
  {
    ReachableOk(s);
    assert WaiterOk(s, w);
    MentionsAreRegs(s, w);
  }

  /** The waits a thread is working on: its own, and the one of a list entry it has locked. */
  ghost predicate WorksOn(p: Pc, w: nat) {
    OwnWait(p) == Some(w) || HoldsWaiter(p, w)
  }

  /** No list mentions a wait that has been freed, no thread is inside a freed
      wait's call or has its mutex, and no assertion on a count can fail: a thread that is
      about to decrement finds something to decrement.  A setter's signal, sent
      without the mutex, is another matter: see LateSignals. */
  lemma AssertionsHold(s: State, t: nat)
    requires Reachable(s) && t in s.threads
    ensures forall w: nat | w < |s.waiters| && WorksOn(s.threads[t], w) ::
      !s.waiters[w].rec.freed && s.waiters[w].rec.refCount >= 1
    ensures forall e, n | e in s.events && n in Pending(s.events[e]) ::
      n.waiter < |s.waiters| && !s.waiters[n.waiter].rec.freed && s.waiters[n.waiter].rec.refCount >= 1
    ensures s.threads[t].SetHold? ==>
      s.threads[t].x < |s.waiters| && var v := s.waiters[s.threads[t].x].rec; v.stillWaiting && v.waitAll ==>
        v.status >= 1
    ensures s.threads[t].Clean? ==>
      s.threads[t].w < |s.waiters| && var v := s.waiters[s.threads[t].w].rec; v.waitAll ==> v.status >= 1
  {
    ReachableOk(s);
    assert PcOk(s, t);
    forall w: nat | w < |s.waiters| && WorksOn(s.threads[t], w)
      ensures !s.waiters[w].rec.freed && s.waiters[w].rec.refCount >= 1
    {
      InUse(s, t, w);
    }
    forall e, n | e in s.events && n in Pending(s.events[e])
      ensures n.waiter < |s.waiters| && !s.waiters[n.waiter].rec.freed && s.waiters[n.waiter].rec.refCount >= 1
    {
      ListedInUse(s, e, n);
    }
    match s.threads[t]
    case SetHold(e, was, x) => LacksSome(s, t, e, was, x);
    case Clean(w, i, e, j) =>
      assert WaiterOk(s, w);
      LacksNext(s.waiters[w], i);
    case _ =>
  }

  lemma ListedInUse(s: State, e: nat, n: Entry)
    requires EventsOk(s) && WaitersOk(s) && e in s.events && n in Pending(s.events[e])
    ensures n.waiter < |s.waiters| && !s.waiters[n.waiter].rec.freed && s.waiters[n.waiter].rec.refCount >= 1
  {
    assert EventOk(s, e);
    assert Registered(s, n);
    assert WaiterOk(s, n.waiter);
  }

  lemma InUse(s: State, t: nat, w: nat)
    requires Inv(s) && t in s.threads && w < |s.waiters| && WorksOn(s.threads[t], w)
    ensures !s.waiters[w].rec.freed && s.waiters[w].rec.refCount >= 1
  {
    assert PcOk(s, t) && WaiterOk(s, w);
    match s.threads[t]
    case CleanHold(v, i, e, j, x) => if w == x { CleanedInUse(s, t, v, i, e, j, x); }
    case SetHold(e, was, x) => ListedInUse(s, e, Current(s.events[e]));
    case _ =>
  }

  lemma CleanedInUse(s: State, t: nat, v: nat, i: nat, e: nat, j: nat, x: nat)
    requires Inv(s) && AtCleanHold(s, t, v, i, e, j, x)
    ensures !s.waiters[x].rec.freed && s.waiters[x].rec.refCount >= 1
  {
    assert EventOk(s, e);
    assert Pending(s.events[e])[j] == s.events[e].waits[j];
    ListedInUse(s, e, s.events[e].waits[j]);
  }

  lemma {:induction false} BelowBound(ks: set<nat>, n: nat)
    requires Within(ks, n)
    ensures |ks| <= n
    ensures |ks| == n <==> forall k: nat | k < n :: k in ks
    decreases n
  {
    if n > 0 {
      BelowBound(ks - {n - 1}, n - 1);
      if n - 1 in ks {
        assert |ks - {n - 1}| == |ks| - 1;
        assert forall k: nat | k < n - 1 :: k in ks <==> k in ks - {n - 1};
      } else {
        assert ks - {n - 1} == ks;
      }
    } else {
      assert ks == {};
    }
  }

  // A wait-all that has an index still listed lacks that one.
  lemma LacksSome(s: State, t: nat, e: nat, was: bool, x: nat)
    requires Inv(s) && AtSetHold(s, t, e, was, x)
    ensures s.waiters[x].rec.stillWaiting && s.waiters[x].rec.waitAll ==> s.waiters[x].rec.status >= 1
  {
    assert EventOk(s, e) && WaiterOk(s, x);
    var n := Current(s.events[e]);
    assert Registered(s, n) && ValidEntry(s, e, n);
    BelowBound(s.waiters[x].got, |s.waiters[x].events|);
  }

  lemma LacksNext(v: Waiter, i: nat)
    requires CountsOk(v, true) && Joining(v, i) && i < |v.events|
    ensures v.rec.waitAll ==> v.rec.status >= 1
  {
    assert i !in v.got;
    BelowBound(v.got, |v.events|);
  }

  /** The waits a step of thread t can change, but for a signal on their condition. */
  ghost function Reach(s: State, t: nat): set<nat>
    requires t in s.threads && PcOk(s, t)
  {
    match s.threads[t]
    case Register(w, _) => {w}
    case Clean(w, i, e, j) => if j < |s.events[e].waits| then {w, s.events[e].waits[j].waiter} else {w}
    case CleanHold(w, i, e, j, x) => {w, x}
    case Check(w) => {w}
    case Asleep(w) => {w}
    case Finish(w, _) => {w}
    case SetLoop(e, _) =>
      if s.events[e].fired < |s.events[e].waits| then {Current(s.events[e]).waiter} else {}
    case SetHold(e, _, x) => {x}
    case _ => {}
  }

  lemma OnlyReach(s: State, t: nat, a: Action, w: nat)
    requires Enabled(s, t, a) && w < |s.waiters| && w !in Reach(s, t)
    ensures w < |Next(s, t, a).waiters|
    ensures Next(s, t, a).waiters[w] == if Notifies(s.threads[t], w) then Touched(s.waiters[w]) else s.waiters[w]
  {
    if a.Go? { OnlyReachGo(s, t, w); }
    hide GoFrom;
  }

  /** The wait with its condition signalled. */
  function Touched(v: Waiter): Waiter {
    v.(rec := Notify(v.rec))
  }

  lemma OnlyReachGo(s: State, t: nat, w: nat)
    requires Enabled(s, t, Go) && w < |s.waiters| && w !in Reach(s, t)
    ensures w < |GoFrom(s, t).waiters|
    ensures GoFrom(s, t).waiters[w] == if Notifies(s.threads[t], w) then Touched(s.waiters[w]) else s.waiters[w]
  {
  }

  lemma ReachInUse(s: State, t: nat, w: nat)
    requires Inv(s) && t in s.threads && PcOk(s, t) && w in Reach(s, t)
    ensures w < |s.waiters| && !s.waiters[w].rec.freed
  {
    hide WaitersOk, ThreadsOk;
    match s.threads[t]
    case Clean(v, i, e, j) =>
      if w == v { InUse(s, t, v); } else {
        assert EventOk(s, e);
        assert Pending(s.events[e])[j] == s.events[e].waits[j];
        ListedInUse(s, e, s.events[e].waits[j]);
      }
    case SetLoop(e, was) =>
      var ev := s.events[e];
      assert Pending(ev)[0] == Current(ev);
      ListedInUse(s, e, Current(ev));
    case _ => InUse(s, t, w);
  }

  /** No step changes the record of a freed wait, so it is freed at most once;
      all that can still come is the signal of a setter that had given it an event. */
  lemma FreedForever(s: State, t: nat, a: Action, w: nat)
    requires Reachable(s) && Enabled(s, t, a) && w < |s.waiters| && s.waiters[w].rec.freed
    ensures w < |Next(s, t, a).waiters|
    ensures Next(s, t, a).waiters[w] == if Notifies(s.threads[t], w) then Touched(s.waiters[w]) else s.waiters[w]
  {
    ReachableOk(s);
    hide EventsOk, WaitersOk, Reach, Next;
    assert t in s.threads && PcOk(s, t);
    if w in Reach(s, t) { ReachInUse(s, t, w); }
    OnlyReach(s, t, a, w);
  }

  // ----------------------------------------------------- no lost wake-up

  /** A wait that sleeps although it is satisfied has been signalled or is about
      to be.  One that sleeps and still waits is listed on exactly the events it
      lacks, and none of those is signalled once its mutex is free; a wait-any
      lacks all of its events. */
  lemma NoLostWakeup(s: State, w: nat)
    requires Reachable(s) && w < |s.waiters| && PcOf(s, w) == Asleep(w)
    ensures Ready(s.waiters[w].rec) ==> s.waiters[w].rec.notified || Signalled(s, w)
    ensures !s.waiters[w].rec.stillWaiting ==> Ready(s.waiters[w].rec)
    ensures s.waiters[w].rec.stillWaiting ==>
      && (!s.waiters[w].rec.waitAll ==> !Ready(s.waiters[w].rec))
      && forall k | 0 <= k < |s.waiters[w].events| :: Expecting(s, w, k)
  {
    ReachableHeard(s, w);
    ReachableOk(s);
    assert WaiterOk(s, w);
    var v := s.waiters[w];
    if v.rec.stillWaiting {
      forall k | 0 <= k < |v.events| ensures Expecting(s, w, k) {
        assert EventOk(s, v.events[k]);
        hide EventsOk, WaitersOk, ThreadsOk, Reachable, LedgerOk;
        if Listed(s, Entry(w, k), v.events[k]) { assert Registered(s, Entry(w, k)); }
      }
    }
  }

  /** Wait w is listed for its k-th event exactly if it lacks it, and then the event is not there to be had. */
  ghost predicate Expecting(s: State, w: nat, k: nat)
    requires w < |s.waiters| && k < |s.waiters[w].events|
  {
    var v := s.waiters[w];
    var e := v.events[k];
    && e in s.events
    && (Listed(s, Entry(w, k), e) <==> k !in v.got)
    && (!v.rec.waitAll ==> Listed(s, Entry(w, k), e))
    && (Listed(s, Entry(w, k), e) && s.events[e].owner.None? ==> !s.events[e].state)
  }

  /** Each index of a wait is listed at most once, and only on its own event. */
  lemma ListedOnce(s: State, e: nat, p: nat, f: nat, q: nat)
    requires Reachable(s) && e in s.events && s.events[e].fired <= p < |s.events[e].waits|
    requires f in s.events && s.events[f].fired <= q < |s.events[f].waits| && (f, q) != (e, p)
    ensures ValidEntry(s, e, s.events[e].waits[p]) && s.events[f].waits[q] != s.events[e].waits[p]
  {
    ReachableOk(s);
    assert EventOk(s, e) && EventOk(s, f);
    hide EventsOk, WaitersOk, ThreadsOk, StateOk, LedgerOk;
    assert ValidEntry(s, e, s.events[e].waits[p]) && ValidEntry(s, f, s.events[f].waits[q]);
    if f == e { PendingDistinct(s.events[e], p, q); }
  }

  lemma PendingDistinct(ev: Event, p: nat, q: nat)
    requires ev.fired <= p < |ev.waits| && ev.fired <= q < |ev.waits| && p != q && Distinct(Pending(ev))
    ensures ev.waits[p] != ev.waits[q]
  {
    var ns := Pending(ev);
    assert ns[p - ev.fired] == ev.waits[p] && ns[q - ev.fired] == ev.waits[q];
  }

  // ----------------------------------------------------- wait-all counting

  /** After i rounds EventsLeft is the listed entries plus the rounds to come;
      asleep it is the listed entries, which is RefCount - 1.  So it is never
      negative, and once it is zero no list mentions the wait. */
  lemma WaitAllCount(s: State, w: nat)
    requires Reachable(s) && w < |s.waiters| && s.waiters[w].rec.waitAll
    ensures 0 <= s.waiters[w].rec.status <= |s.waiters[w].events|
    ensures PcOf(s, w).Register? && Active(s, w) ==>
      s.waiters[w].rec.status == |Mentions(s, w)| + |s.waiters[w].events| - PcOf(s, w).i
    ensures PcOf(s, w) == Asleep(w) || PcOf(s, w) == Check(w) ==>
      s.waiters[w].rec.status == |Mentions(s, w)| == s.waiters[w].rec.refCount - 1
    ensures (PcOf(s, w) == Asleep(w) || PcOf(s, w) == Check(w)) && s.waiters[w].rec.status == 0 ==> Mentions(s, w) == {}
  {
    ReachableOk(s);
    assert WaiterOk(s, w);
    MentionsAreRegs(s, w);
    var v := s.waiters[w];
    BelowBound(v.got, |v.events|);
    match PcOf(s, w)
    case Register(x, i) => if x == w { assert PcOk(s, v.thread); CoversSize(v, i); }
    case Check(x) => if x == w { CoversSize(v, |v.events|); }
    case Asleep(x) => if x == w { CoversSize(v, |v.events|); }
    case _ =>
  }

  lemma CoversSize(v: Waiter, n: nat)
    requires Covers(v, n) && v.regs !! v.got
    ensures |v.regs| + |v.got| == n
  {
    BelowBound(v.regs + v.got, n);
    assert |v.regs + v.got| == |v.regs| + |v.got|;
  }

  // ----------------------------------------------------- results

  /** What WaitForMultipleEvents returns.  waitIndex always tells what was
      consumed, whatever the result code: a wait-any consumed event waitIndex
      and no other, or nothing if it is -1; a wait-all consumed all but
      waitIndex of its events.  Without a time-out the wait was satisfied; an
      infinite wait never times out, and a wait-any with 0 milliseconds that
      does has consumed nothing. */
  lemma ResultContract(s: State, t: nat)
    requires Reachable(s) && t in s.threads && s.threads[t].Returned?
    ensures var p := s.threads[t];
      p.w < |s.waiters| && var v := s.waiters[p.w];
      && (!v.rec.waitAll ==> -1 <= p.waitIndex < |v.events|)
      && (!v.rec.waitAll ==> v.got == (if p.waitIndex == -1 then {} else {p.waitIndex}))
      && (v.rec.waitAll ==> 0 <= p.waitIndex == |v.events| - |v.got|)
      && (!p.timedOut && !v.rec.waitAll ==> 0 <= p.waitIndex)
      && (!p.timedOut && v.rec.waitAll ==> p.waitIndex == 0 && forall k | 0 <= k < |v.events| :: k in v.got)
      && (v.limit == Infinite ==> !p.timedOut)
      && (p.timedOut && !v.rec.waitAll && v.limit == Zero ==> p.waitIndex == -1)
  {
    ReachableOk(s);
    assert PcOk(s, t);
    assert WaiterOk(s, s.threads[t].w);
    BelowBound(s.waiters[s.threads[t].w].got, |s.waiters[s.threads[t].w].events|);
  }

  /** A wait-any consumes at most one event however many setters race for it. */
  lemma AtMostOne(s: State, w: nat)
    requires Reachable(s) && w < |s.waiters| && !s.waiters[w].rec.waitAll
    ensures forall k, l | 0 <= k < |s.waiters[w].events| && 0 <= l < |s.waiters[w].events|
                          && Granted(s, Entry(w, k), s.waiters[w].events[k])
                          && Granted(s, Entry(w, l), s.waiters[w].events[l]) ::
      k == l == s.waiters[w].rec.status
  {
    ReachableOk(s);
    assert WaiterOk(s, w);
    forall k | 0 <= k < |s.waiters[w].events| && Granted(s, Entry(w, k), s.waiters[w].events[k])
      ensures k in s.waiters[w].got
    {
      assert EventOk(s, s.waiters[w].events[k]);
      assert Consumer(s, Entry(w, k));
    }
  }

  // ----------------------------------------------------- events and mutexes

  /** A signalled event whose mutex is free has nobody on its list, and a setter
      that is through with the list finds the event signalled. */
  lemma SignalledHasNoWaits(s: State, e: nat)
    requires Reachable(s) && e in s.events
    ensures s.events[e].owner.None? ==> (s.events[e].state ==> s.events[e].waits == []) && s.events[e].fired == 0
    ensures forall t, was | t in s.threads && s.threads[t] == SetLoop(e, was) :: s.events[e].state
  {
    ReachableOk(s);
    assert EventOk(s, e);
    forall t, was | t in s.threads && s.threads[t] == SetLoop(e, was) ensures s.events[e].state { assert PcOk(s, t); }
  }

  /** Between two calls a thread holds no mutex; a mutex has one holder, and its
      holder is inside the call that took it. */
  lemma MutexesReleased(s: State, m: Mutex)
    requires Reachable(s) && Owner(s, m).Some?
    ensures var t := Owner(s, m).value;
      t in s.threads && !AtRest(s.threads[t])
      && (m.OfEvent? ==> HoldsEvent(s.threads[t], m.e)) && (m.OfWaiter? ==> HoldsWaiter(s.threads[t], m.w))
  {
    ReachableOk(s);
    match m
    case OfEvent(e) => assert EventOk(s, e);
    case OfWaiter(w) => assert WaiterOk(s, w);
  }

  // ----------------------------------------------------- conservation

  /** The consumptions of an event by multi-waits: which wait, by which index. */
  ghost function Consumptions(s: State, e: nat): set<Entry> {
    set w, k | 0 <= w < |s.waiters| && 0 <= k < |s.waiters[w].events| && s.waiters[w].events[k] == e
               && k in s.waiters[w].got :: Entry(w, k)
  }

  lemma {:induction false} DistinctSize(ns: seq<Entry>, a: set<Entry>)
    requires Distinct(ns) && (forall n :: n in a <==> n in ns)
    ensures |a| == |ns|
  {
    if ns != [] {
      var n := ns[0];
      assert ns == [n] + ns[1..];
      DistinctSize(ns[1..], a - {n});
    }
  }

  /** An event's ledger has one grant for each consumption. */
  lemma GrantsAreConsumptions(s: State, e: nat)
    requires Reachable(s) && e in s.events
    ensures |s.events[e].ledger.grants| == |Consumptions(s, e)|
  {
    ReachableOk(s);
    assert EventOk(s, e);
    var grants := s.events[e].ledger.grants;
    forall n ensures n in Consumptions(s, e) <==> n in grants {
      if n in grants { assert ValidEntry(s, e, n) && Consumer(s, n); }
      if n in Consumptions(s, e) {
        assert WaiterOk(s, n.waiter);
        assert Granted(s, n, e);
      }
    }
    DistinctSize(grants, Consumptions(s, e));
  }

  /** Every SetEvent of an auto-reset event is merged into a signal already
      latched, consumed by exactly one wait, cleared by ResetEvent, or still
      latched; while a SetEvent is under way the event stands as it found it. */
  lemma Conservation(s: State, e: nat)
    requires Reachable(s) && e in s.events && s.events[e].autoReset
    ensures var l := s.events[e].ledger;
      l.sets == l.merged + l.singles + l.cleared + |Consumptions(s, e)|
                + (if Latched(s, e) then 1 else 0) + (if HeldBySetter(s, e) then 1 else 0)
    ensures s.events[e].owner.None? ==> !HeldBySetter(s, e) && Latched(s, e) == s.events[e].state
  {
    ReachableOk(s);
    assert EventOk(s, e);
    GrantsAreConsumptions(s, e);
  }
}
