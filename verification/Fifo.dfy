/** The simple events that the protocol implements: each is a latch and a queue
    of the waits that are still waiting, first come, first served.  Expired
    list entries, reference counts and mutexes do not exist here. */
module Fifo {
  import opened Records
  import opened Protocol
  import opened Invariant

  /** `served` lists the multi-waits that have got the event, in order. */
  datatype SimpleEvent = SimpleEvent(autoReset: bool, latched: bool, queue: seq<Entry>, served: seq<Entry>)

  /** `status` as in the record: index consumed, or events left. */
  datatype SimpleWait = SimpleWait(events: seq<nat>, waitAll: bool, waiting: bool, status: int)

  datatype Simple = Simple(events: map<nat, SimpleEvent>, waits: seq<SimpleWait>)

  datatype Step =
    | Arrive(events: seq<nat>, waitAll: bool)
    | Join(w: nat, k: nat)       // queue up for the k-th event
    | Take(w: nat, k: nat)       // the k-th event was latched: consume it
    | Grant(e: nat)              // SetEvent serves the first in the queue
    | Latch(e: nat)              // SetEvent finds nobody
    | Leave(w: nat)              // stop waiting
    | Clear(e: nat)              // ResetEvent
    | Consume(e: nat)            // WaitForEvent
    | Stutter

  function Purge(q: seq<Entry>, w: nat): seq<Entry> {
    if q == [] then []
    else if q[0].waiter == w then Purge(q[1..], w)
    else [q[0]] + Purge(q[1..], w)
  }

  /** w stops waiting: it leaves every queue. */
  function Gone(a: Simple, w: nat, status: int): Simple
    requires w < |a.waits|
  {
    Simple(map e | e in a.events :: a.events[e].(queue := Purge(a.events[e].queue, w)),
           a.waits[w := a.waits[w].(waiting := false, status := status)])
  }

  /** w gets its k-th event. */
  function Got(a: Simple, w: nat, k: nat): Simple
    requires w < |a.waits|
  {
    if a.waits[w].waitAll then a.(waits := a.waits[w := a.waits[w].(status := a.waits[w].status - 1)])
    else Gone(a, w, k)
  }

  function WithLatch(a: Simple, e: nat, latched: bool): Simple
    requires e in a.events
  {
    a.(events := a.events[e := a.events[e].(latched := latched)])
  }

  function WithServed(a: Simple, e: nat, n: Entry): Simple
    requires e in a.events
  {
    a.(events := a.events[e := a.events[e].(served := a.events[e].served + [n])])
  }

  function WithQueue(a: Simple, e: nat, q: seq<Entry>): Simple
    requires e in a.events
  {
    a.(events := a.events[e := a.events[e].(queue := q)])
  }

  predicate CanDo(a: Simple, step: Step) {
    match step
    case Arrive(es, _) => forall k | 0 <= k < |es| :: es[k] in a.events
    case Join(w, k) =>
      && w < |a.waits| && a.waits[w].waiting && k < |a.waits[w].events|
      && a.waits[w].events[k] in a.events && !a.events[a.waits[w].events[k]].latched
      && Entry(w, k) !in a.events[a.waits[w].events[k]].queue && Entry(w, k) !in a.events[a.waits[w].events[k]].served
    case Take(w, k) =>
      && w < |a.waits| && a.waits[w].waiting && k < |a.waits[w].events|
      && a.waits[w].events[k] in a.events && a.events[a.waits[w].events[k]].latched
      && a.events[a.waits[w].events[k]].queue == []
    case Grant(e) =>
      && e in a.events && !a.events[e].latched && a.events[e].queue != []
      && a.events[e].queue[0].waiter < |a.waits| && a.waits[a.events[e].queue[0].waiter].waiting
    case Latch(e) => e in a.events && a.events[e].queue == []
    case Leave(w) => w < |a.waits| && a.waits[w].waiting
    case Clear(e) => e in a.events
    case Consume(e) => e in a.events && a.events[e].latched
    case Stutter => true
  }

  function Do(a: Simple, step: Step): Simple
    requires CanDo(a, step)
  {
    match step
    case Arrive(es, waitAll) => a.(waits := a.waits + [SimpleWait(es, waitAll, true, if waitAll then |es| else -1)])
    case Join(w, k) =>
      var e := a.waits[w].events[k];
      WithQueue(a, e, a.events[e].queue + [Entry(w, k)])
    case Take(w, k) =>
      var e := a.waits[w].events[k];
      Got(WithServed(WithLatch(a, e, !a.events[e].autoReset), e, Entry(w, k)), w, k)
    case Grant(e) =>
      var n := a.events[e].queue[0];
      Got(WithServed(WithQueue(a, e, a.events[e].queue[1..]), e, n), n.waiter, n.index)
    case Latch(e) => WithLatch(a, e, true)
    case Leave(w) => Gone(a, w, a.waits[w].status)
    case Clear(e) => WithLatch(a, e, false)
    case Consume(e) => WithLatch(a, e, !a.events[e].autoReset)
    case Stutter => a
  }

  // ----------------------------------------------------------- abstraction

  predicate Live(r: Wfmo) {
    r.stillWaiting && (r.waitAll || r.status == -1)
  }

  /** The entries whose wait is still waiting, in order. */
  function LiveOf(ns: seq<Entry>, ws: seq<Waiter>): seq<Entry> {
    if ns == [] then []
    else if ns[0].waiter < |ws| && Live(ws[ns[0].waiter].rec) then [ns[0]] + LiveOf(ns[1..], ws)
    else LiveOf(ns[1..], ws)
  }

  ghost function AbsEvent(s: State, e: nat): SimpleEvent
    requires e in s.events
  {
    SimpleEvent(s.events[e].autoReset, Latched(s, e), LiveOf(Pending(s.events[e]), s.waiters),
                s.events[e].ledger.grants)
  }

  function AbsWait(v: Waiter): SimpleWait {
    SimpleWait(v.events, v.rec.waitAll, Live(v.rec), v.rec.status)
  }

  ghost function Abs(s: State): Simple {
    Simple(map e | e in s.events ::
      AbsEvent(s, e), seq(|s.waiters|, w requires 0 <= w < |s.waiters| => AbsWait(s.waiters[w])))
  }

  /** What a step of the protocol does to the simple events.  Locking, cleaning
      up and discarding expired entries do nothing. */
  function StepOf(s: State, t: nat, a: Action): Step
    requires Enabled(s, t, a)
  {
    var p := s.threads[t];
    match a
    case BeginWait(es, waitAll, _) => Arrive(es, waitAll)
    case Go =>
      (match p
       case Clean(w, i, e, j) =>
         if j < |s.events[e].waits| then Stutter
         else if s.events[e].state then Take(w, i) else Join(w, i)
       case Finish(w, _) => if Live(s.waiters[w].rec) then Leave(w) else Stutter
       case SetLoop(e, _) => if s.events[e].fired < |s.events[e].waits| then Stutter else Latch(e)
       case SetHold(e, _, x) => if s.waiters[x].rec.stillWaiting then Grant(e) else Stutter
       case ResetLock(e) => Clear(e)
       case SingleLock(e, _) => if s.events[e].owner.None? && s.events[e].state then Consume(e) else Stutter
       case _ => Stutter)
    case Wake => if p.SingleAsleep? && s.events[p.e].state then Consume(p.e) else Stutter
    case _ => Stutter
  }

  // ------------------------------------------------------ the live queue

  lemma {:induction false} LiveSame(ns: seq<Entry>, ws: seq<Waiter>, ws': seq<Waiter>)
    requires forall n | n in ns ::
      n.waiter < |ws| && n.waiter < |ws'| && Live(ws[n.waiter].rec) == Live(ws'[n.waiter].rec)
    ensures LiveOf(ns, ws') == LiveOf(ns, ws)
  {
    if ns != [] { LiveSame(ns[1..], ws, ws'); }
  }

  lemma {:induction false} LivePurged(ns: seq<Entry>, ws: seq<Waiter>, ws': seq<Waiter>, w: nat)
    requires forall n | n in ns && n.waiter != w ::
      n.waiter < |ws| && n.waiter < |ws'| && Live(ws[n.waiter].rec) == Live(ws'[n.waiter].rec)
    requires w < |ws'| && !Live(ws'[w].rec)
    ensures LiveOf(ns, ws') == Purge(LiveOf(ns, ws), w)
  {
    if ns != [] {
      LivePurged(ns[1..], ws, ws', w);
      if ns[0].waiter < |ws| && Live(ws[ns[0].waiter].rec) {
        assert LiveOf(ns, ws)[1..] == LiveOf(ns[1..], ws);
      }
    }
  }

  lemma {:induction false} LiveWithin(ns: seq<Entry>, ws: seq<Waiter>)
    ensures forall n | n in LiveOf(ns, ws) :: n in ns && n.waiter < |ws| && Live(ws[n.waiter].rec)
  {
    if ns != [] { LiveWithin(ns[1..], ws); }
  }

  lemma LiveHead(n: Entry, ns: seq<Entry>, ws: seq<Waiter>)
    ensures LiveOf([n] + ns, ws) ==
      (if n.waiter < |ws| && Live(ws[n.waiter].rec) then [n] else []) + LiveOf(ns, ws)
  {
    assert ([n] + ns)[1..] == ns;
  }

  lemma {:induction false} LiveConcat(ms: seq<Entry>, ns: seq<Entry>, ws: seq<Waiter>)
    ensures LiveOf(ms + ns, ws) == LiveOf(ms, ws) + LiveOf(ns, ws)
  {
    if ms == [] {
      assert ms + ns == ns;
    } else {
      var rest := ms[1..];
      assert ms == [ms[0]] + rest && ms + ns == [ms[0]] + (rest + ns);
      hide LiveOf, Live;
      LiveConcat(rest, ns, ws);
      LiveHead(ms[0], rest, ws);
      LiveHead(ms[0], rest + ns, ws);
    }
  }

  /** Dropping an entry whose wait has expired is invisible. */
  lemma LiveDropped(ns: seq<Entry>, j: nat, ws: seq<Waiter>)
    requires j < |ns| && ns[j].waiter < |ws| && !Live(ws[ns[j].waiter].rec)
    ensures LiveOf(Without(ns, j), ws) == LiveOf(ns, ws)
  {
    var ms, rest := ns[..j], ns[j + 1..];
    assert ns == ms + ([ns[j]] + rest);
    LiveConcat(ms, rest, ws);
    LiveConcat(ms, [ns[j]] + rest, ws);
    assert ([ns[j]] + rest)[1..] == rest;
  }

  // ------------------------------------------------------------ simulation

  lemma EventSame(s: State, s': State, t: nat, es: set<nat>, ws: set<nat>, gone: set<Entry>, e: nat)
    requires Touches(s, s', t, es, ws, gone) && EventsOk(s) && e in s.events && e !in es
    requires forall w: nat | w in ws && w < |s.waiters| :: Live(s'.waiters[w].rec) == Live(s.waiters[w].rec)
    ensures AbsEvent(s', e) == AbsEvent(s, e)
  {
    assert EventOk(s, e);
    assert HeldBySetter(s', e) == HeldBySetter(s, e);
    var ns := Pending(s.events[e]);
    forall n | n in ns
      ensures n.waiter < |s.waiters| && Live(s'.waiters[n.waiter].rec) == Live(s.waiters[n.waiter].rec)
    {
      assert ValidEntry(s, e, n);
    }
    LiveSame(ns, s.waiters, s'.waiters);
  }

  lemma EventPurged(s: State, s': State, t: nat, es: set<nat>, gone: set<Entry>, e: nat, w: nat)
    requires Touches(s, s', t, es, {w}, gone) && EventsOk(s) && e in s.events && e !in es
    requires w < |s.waiters| && !Live(s'.waiters[w].rec)
    ensures AbsEvent(s', e) == AbsEvent(s, e).(queue := Purge(AbsEvent(s, e).queue, w))
  {
    assert EventOk(s, e);
    assert HeldBySetter(s', e) == HeldBySetter(s, e);
    var ns := Pending(s.events[e]);
    forall n | n in ns && n.waiter != w
      ensures n.waiter < |s.waiters| && Live(s'.waiters[n.waiter].rec) == Live(s.waiters[n.waiter].rec)
    {
      assert ValidEntry(s, e, n);
    }
    LivePurged(ns, s.waiters, s'.waiters, w);
  }

  /** A step is invisible when what it touches looks the same. */
  lemma Invisible(s: State, s': State, t: nat, es: set<nat>, ws: set<nat>, gone: set<Entry>)
    requires Touches(s, s', t, es, ws, gone) && EventsOk(s) && |s'.waiters| == |s.waiters|
    requires forall w: nat | w in ws && w < |s.waiters| :: AbsWait(s'.waiters[w]) == AbsWait(s.waiters[w])
    requires forall e | e in es && e in s.events :: AbsEvent(s', e) == AbsEvent(s, e)
    ensures Abs(s') == Abs(s)
  {
    forall e | e in s.events ensures AbsEvent(s', e) == AbsEvent(s, e) {
      if e !in es { EventSame(s, s', t, es, ws, gone, e); }
    }
    assert Abs(s').events == Abs(s).events;
    forall w | 0 <= w < |s.waiters| ensures Abs(s').waits[w] == Abs(s).waits[w] {}
    assert Abs(s').waits == Abs(s).waits;
  }

  /** ... and a step on one event and one wait shows as what happens to these. */
  lemma Visible(s: State, s': State, t: nat, e: nat, w: nat, gone: set<Entry>, b: Simple)
    requires Touches(s, s', t, {e}, {w}, gone) && EventsOk(s) && |s'.waiters| == |s.waiters| && e in s.events
    requires w < |s.waiters|
    requires b.events.Keys == s.events.Keys && |b.waits| == |s.waiters|
    requires b.events[e] == AbsEvent(s', e) && b.waits == Abs(s).waits[w := AbsWait(s'.waiters[w])]
    requires forall f | f in s.events && f != e ::
      b.events[f] == if Live(s'.waiters[w].rec) == Live(s.waiters[w].rec) then AbsEvent(s, f)
                     else AbsEvent(s, f).(queue := Purge(AbsEvent(s, f).queue, w))
    requires Live(s'.waiters[w].rec) ==> Live(s.waiters[w].rec)
    ensures Abs(s') == b
  {
    hide AbsEvent, EventEvolves, PcEvolves, Live, EventsOk;
    forall f | f in s.events ensures AbsEvent(s', f) == b.events[f] {
      if f != e {
        if Live(s'.waiters[w].rec) == Live(s.waiters[w].rec) { EventSame(s, s', t, {e}, {w}, gone, f); }
        else { EventPurged(s, s', t, {e}, gone, f, w); }
      }
    }
    assert Abs(s').events == b.events;
    forall v | 0 <= v < |s.waiters| ensures Abs(s').waits[v] == b.waits[v] {}
    assert Abs(s').waits == b.waits;
  }

  lemma ArriveStep(s: State, t: nat, es: seq<nat>, waitAll: bool, limit: Limit)
    requires Inv(s) && t in s.threads && AtRest(s.threads[t]) && forall k | 0 <= k < |es| :: es[k] in s.events
    ensures CanDo(Abs(s), Arrive(es, waitAll))
    ensures Abs(BeginWaiting(s, t, es, waitAll, limit)) == Do(Abs(s), Arrive(es, waitAll))
  {
    var s' := BeginWaiting(s, t, es, waitAll, limit);
    assert Touches(s, s', t, {}, {}, {});
    forall e | e in s.events ensures AbsEvent(s', e) == AbsEvent(s, e) { EventSame(s, s', t, {}, {}, {}, e); }
    assert Abs(s').events == Abs(s).events;
    assert Abs(s').waits == Do(Abs(s), Arrive(es, waitAll)).waits;
  }

  lemma RegisterStep(s: State, t: nat, w: nat, i: nat)
    requires Inv(s) && Enabled(s, t, Go) && s.threads[t] == Register(w, i)
    ensures Abs(GoRegister(s, t, w, i)) == Abs(s)
  {
    hide EventsOk, CountsOk, LinksOk, ListOk, LedgerOk, LiveOf;
    var s' := GoRegister(s, t, w, i);
    assert WaiterOk(s, w);
    if i < |s.waiters[w].events| {
      var e := s.waiters[w].events[i];
      assert EventOk(s, e) by { EventHolds(s, e); }
      LockEvent(s, s', t, w, i, e);
      assert AbsEvent(s', e) == AbsEvent(s, e);
      Invisible(s, s', t, {e}, {w}, {});
    } else {
      LeaveLoop(s, s', t, w, i);
      Invisible(s, s', t, {}, {w}, {});
    }
  }

  lemma EventHolds(s: State, e: nat)
    requires EventsOk(s) && e in s.events
    ensures EventOk(s, e)
  {
  }

  lemma TakeVisible(s: State, s': State, t: nat, w: nat, i: nat, e: nat)
    requires EventsOk(s) && e in s.events && w < |s.waiters| == |s'.waiters| && Touches(s, s', t, {e}, {w}, {})
    requires i < |s.waiters[w].events| && s.waiters[w].events[i] == e
    requires AbsEvent(s, e).latched && AbsEvent(s, e).queue == []
    requires AbsEvent(s', e) ==
      AbsEvent(s, e).(latched := !AbsEvent(s, e).autoReset, served := AbsEvent(s, e).served + [Entry(w, i)])
    requires Live(s.waiters[w].rec) && Live(s'.waiters[w].rec) == s.waiters[w].rec.waitAll
    requires AbsWait(s'.waiters[w]) == AbsWait(s.waiters[w]).(waiting := s.waiters[w].rec.waitAll,
               status := if s.waiters[w].rec.waitAll then s.waiters[w].rec.status - 1 else i)
    ensures CanDo(Abs(s), Step.Take(w, i)) && Abs(s') == Do(Abs(s), Step.Take(w, i))
  {
    hide EventsOk, AbsEvent, Live, EventEvolves, WaiterEvolves, PcEvolves;
    Visible(s, s', t, e, w, {}, Do(Abs(s), Step.Take(w, i)));
  }

  lemma TakeStep(s: State, t: nat, w: nat, i: nat, e: nat, j: nat)
    requires Inv(s) && AtClean(s, t, w, i, e, j) && s.events[e].state
    ensures CanDo(Abs(s), Step.Take(w, i))
    ensures Abs(GoTake(s, t, w, i, e)) == Do(Abs(s), Step.Take(w, i))
  {
    hide Touches, LinksOk, CountsOk, Do, CanDo, Abs;
    var s' := GoTake(s, t, w, i, e);
    assert WaiterOk(s, w) && EventOk(s, e);
    StillJoining(s, t, w, i, e, j);
    TakeTouches(s, s', t, w, i, e, j);
    TakeShows(s, s', t, w, i, e, j);
    TakeVisible(s, s', t, w, i, e);
  }

  lemma TakeShows(s: State, s': State, t: nat, w: nat, i: nat, e: nat, j: nat)
    requires AtClean(s, t, w, i, e, j) && s.events[e].state && s' == GoTake(s, t, w, i, e)
    requires StateOk(s, e) && ListOk(s, e) && Joining(s.waiters[w], i)
    ensures AbsEvent(s, e) == SimpleEvent(s.events[e].autoReset, true, [], AbsEvent(s, e).served)
    ensures AbsEvent(s', e) ==
      SimpleEvent(s.events[e].autoReset, !s.events[e].autoReset, [], AbsEvent(s, e).served + [Entry(w, i)])
    ensures Live(s.waiters[w].rec) && Live(s'.waiters[w].rec) == s.waiters[w].rec.waitAll
    ensures AbsWait(s'.waiters[w]) == AbsWait(s.waiters[w]).(waiting := s.waiters[w].rec.waitAll,
              status := if s.waiters[w].rec.waitAll then s.waiters[w].rec.status - 1 else i)
  {
    assert s.events[e].waits == [];
  }

  lemma JoinVisible(s: State, s': State, t: nat, w: nat, i: nat, e: nat)
    requires EventsOk(s) && e in s.events && w < |s.waiters| == |s'.waiters| && Touches(s, s', t, {e}, {w}, {})
    requires i < |s.waiters[w].events| && s.waiters[w].events[i] == e && !AbsEvent(s, e).latched
    requires AbsEvent(s', e) == AbsEvent(s, e).(queue := AbsEvent(s, e).queue + [Entry(w, i)])
    requires Entry(w, i) !in AbsEvent(s, e).queue && Entry(w, i) !in AbsEvent(s, e).served
    requires Live(s.waiters[w].rec) && Live(s'.waiters[w].rec) && AbsWait(s'.waiters[w]) == AbsWait(s.waiters[w])
    ensures CanDo(Abs(s), Join(w, i)) && Abs(s') == Do(Abs(s), Join(w, i))
  {
    hide EventsOk, AbsEvent, Live, EventEvolves, WaiterEvolves, PcEvolves;
    Visible(s, s', t, e, w, {}, Do(Abs(s), Join(w, i)));
  }

  lemma JoinStep(s: State, t: nat, w: nat, i: nat, e: nat, j: nat)
    requires Inv(s) && AtClean(s, t, w, i, e, j) && !s.events[e].state
    ensures CanDo(Abs(s), Join(w, i))
    ensures Abs(GoEnlist(s, t, w, i, e)) == Do(Abs(s), Join(w, i))
  {
    hide Touches, LinksOk, CountsOk, Do, CanDo, Abs;
    var s' := GoEnlist(s, t, w, i, e);
    assert WaiterOk(s, w) && EventOk(s, e);
    StillJoining(s, t, w, i, e, j);
    EnlistTouches(s, s', t, w, i, e, j);
    JoinShows(s, s', t, w, i, e, j);
    JoinVisible(s, s', t, w, i, e);
  }

  lemma JoinShows(s: State, s': State, t: nat, w: nat, i: nat, e: nat, j: nat)
    requires AtClean(s, t, w, i, e, j) && !s.events[e].state && s' == GoEnlist(s, t, w, i, e)
    requires StateOk(s, e) && ListOk(s, e) && GrantsOk(s, e) && Joining(s.waiters[w], i)
    ensures !AbsEvent(s, e).latched
    ensures Entry(w, i) !in AbsEvent(s, e).queue && Entry(w, i) !in AbsEvent(s, e).served
    ensures AbsEvent(s', e) == AbsEvent(s, e).(queue := AbsEvent(s, e).queue + [Entry(w, i)])
    ensures Live(s.waiters[w].rec) && Live(s'.waiters[w].rec) && AbsWait(s'.waiters[w]) == AbsWait(s.waiters[w])
  {
    var ns := Pending(s.events[e]);
    assert Pending(s'.events[e]) == ns + [Entry(w, i)];
    LiveConcat(ns, [Entry(w, i)], s'.waiters);
    forall n | n in ns ensures n.waiter < |s.waiters| { assert ValidEntry(s, e, n); }
    LiveSame(ns, s.waiters, s'.waiters);
    LiveWithin(ns, s.waiters);
    assert !Registered(s, Entry(w, i)) && !Consumer(s, Entry(w, i));
  }

  lemma CleanStep(s: State, t: nat, w: nat, i: nat, e: nat, j: nat)
    requires Inv(s) && AtClean(s, t, w, i, e, j) && j < |s.events[e].waits|
    ensures Abs(GoClean(s, t, w, i, e, j)) == Abs(s)
  {
    hide CountsOk, LinksOk;
    var s' := GoClean(s, t, w, i, e, j);
    var x := s.events[e].waits[j].waiter;
    assert WaiterOk(s, w);
    if s.waiters[x].owner.Some? {
      BusyWaiter(s, s', t, w, i, e, j);
      Invisible(s, s', t, {}, {w}, {});
    } else {
      TryTouches(s, s', t, w, i, e, j, x);
      Invisible(s, s', t, {}, {w, x}, {});
    }
  }

  /** Cleaning up an expired entry is invisible. */
  lemma CleanHoldStep(s: State, t: nat, w: nat, i: nat, e: nat, j: nat, x: nat)
    requires Inv(s) && AtCleanHold(s, t, w, i, e, j, x)
    ensures Abs(GoCleanHold(s, t, w, i, e, j, x)) == Abs(s)
  {
    var s' := GoCleanHold(s, t, w, i, e, j, x);
    assert EventOk(s, e);
    if s.waiters[x].rec.stillWaiting {
      SpareTouches(s, s', t, w, i, e, j, x);
      hide EventsOk, Touches;
      Invisible(s, s', t, {}, {w, x}, {});
    } else {
      DropTouches(s, s', t, w, i, e, j, x);
      DropShows(s, s', t, w, i, e, j, x);
      hide EventsOk, Touches, AbsEvent, EventOk;
      Invisible(s, s', t, {e}, {w, x}, {s.events[e].waits[j]});
    }
  }

  lemma DropShows(s: State, s': State, t: nat, w: nat, i: nat, e: nat, j: nat, x: nat)
    requires AtCleanHold(s, t, w, i, e, j, x) && s' == GoCleanHold(s, t, w, i, e, j, x)
    requires !s.waiters[x].rec.stillWaiting
    requires StateOk(s, e) && ListOk(s, e)
    ensures AbsEvent(s', e) == AbsEvent(s, e)
  {
    var ns := s.events[e].waits;
    LiveDropped(ns, j, s'.waiters);
    forall n | n in ns
      ensures n.waiter < |s.waiters| && Live(s'.waiters[n.waiter].rec) == Live(s.waiters[n.waiter].rec)
    {
      assert ValidEntry(s, e, n);
    }
    LiveSame(ns, s.waiters, s'.waiters);
  }

  lemma CheckStep(s: State, t: nat, w: nat)
    requires Inv(s) && t in s.threads && Mine(s, t, w) && s.threads[t] == Check(w)
    ensures Abs(GoCheck(s, t, w)) == Abs(s)
  {
    CheckTouches(s, GoCheck(s, t, w), t, w);
    hide EventsOk, WaitersOk, ThreadsOk, Touches;
    Invisible(s, GoCheck(s, t, w), t, {}, {w}, {});
  }

  lemma FinishStep(s: State, t: nat, w: nat, timedOut: bool)
    requires Inv(s) && t in s.threads && Mine(s, t, w) && s.threads[t] == Finish(w, timedOut)
    ensures Live(s.waiters[w].rec) ==> CanDo(Abs(s), Leave(w))
    ensures Abs(GoFinish(s, t, w, timedOut)) == if Live(s.waiters[w].rec) then Do(Abs(s), Leave(w)) else Abs(s)
  {
    var s' := GoFinish(s, t, w, timedOut);
    assert Touches(s, s', t, {}, {w}, {});
    if Live(s.waiters[w].rec) {
      var b := Do(Abs(s), Leave(w));
      forall e | e in s.events ensures AbsEvent(s', e) == b.events[e] { EventPurged(s, s', t, {}, {}, e, w); }
      assert Abs(s').events == b.events;
      assert Abs(s').waits == b.waits;
    } else {
      Invisible(s, s', t, {}, {w}, {});
    }
  }

  lemma WakenStep(s: State, t: nat, w: nat, next: Pc)
    requires Inv(s) && t in s.threads && s.threads[t] == Asleep(w) && w < |s.waiters|
    requires s.waiters[w].thread == t && s.waiters[w].owner.None?
    requires next == Check(w) || (next == Finish(w, true) && s.waiters[w].limit == Finite)
    ensures Abs(GoWaken(s, t, w, next)) == Abs(s)
  {
    assert WaiterOk(s, w);
    WakenWaiter(s, GoWaken(s, t, w, next), t, w, next);
    hide EventsOk, WaitersOk, ThreadsOk, Touches, WaiterOk;
    Invisible(s, GoWaken(s, t, w, next), t, {}, {w}, {});
  }

  /** A step on event e alone. */
  lemma EventStep(s: State, s': State, t: nat, e: nat, latched: bool)
    requires EventsOk(s) && Touches(s, s', t, {e}, {}, {}) && e in s.events && |s'.waiters| == |s.waiters|
    requires AbsEvent(s', e) == AbsEvent(s, e).(latched := latched)
    ensures Abs(s') == WithLatch(Abs(s), e, latched)
  {
    hide AbsEvent, EventsOk;
    var b := WithLatch(Abs(s), e, latched);
    forall f | f in s.events ensures AbsEvent(s', f) == b.events[f] {
      if f != e { EventSame(s, s', t, {e}, {}, {}, f); }
    }
    assert Abs(s').events == b.events;
    assert Abs(s').waits == b.waits;
  }

  lemma SetLockStep(s: State, t: nat, e: nat)
    requires Inv(s) && t in s.threads && s.threads[t] == SetLock(e) && e in s.events && s.events[e].owner.None?
    ensures Abs(GoSetLock(s, t, e)) == Abs(s)
  {
    var s' := GoSetLock(s, t, e);
    assert EventOk(s, e);
    assert Touches(s, s', t, {e}, {}, {});
    EventStep(s, s', t, e, Latched(s, e));
    assert WithLatch(Abs(s), e, Latched(s, e)).events == Abs(s).events;
  }

  lemma LatchStep(s: State, t: nat, e: nat, was: bool)
    requires EventsOk(s) && AtSet(s, t, e, was) && s.events[e].fired == |s.events[e].waits|
    ensures CanDo(Abs(s), Latch(e)) && Abs(GoSetLoop(s, t, e, was)) == Do(Abs(s), Latch(e))
  {
    var s' := GoSetLoop(s, t, e, was);
    assert EventOk(s, e);
    EndSet(s, s', t, e, was);
    hide EventsOk, Touches;
    EventStep(s, s', t, e, true);
  }

  lemma LockStep(s: State, t: nat, e: nat, was: bool, x: nat)
    requires Inv(s) && AtSet(s, t, e, was) && s.events[e].fired < |s.events[e].waits|
    requires x == s.events[e].waits[s.events[e].fired].waiter && s.waiters[x].owner.None?
    ensures Abs(GoSetLoop(s, t, e, was)) == Abs(s)
  {
    hide EventsOk, CountsOk, LinksOk, PhaseOk, Touches;
    assert WaiterOk(s, x);
    LockEntry(s, GoSetLoop(s, t, e, was), t, e, was, x);
    Invisible(s, GoSetLoop(s, t, e, was), t, {}, {x}, {});
  }

  lemma ServeShows(s: State, s': State, t: nat, e: nat, was: bool, x: nat)
    requires AtSetHold(s, t, e, was, x) && s' == GoSetHold(s, t, e, was, x) && ListOk(s, e) && StateOk(s, e)
    requires s.waiters[x].rec.stillWaiting ==> Joined(s.waiters[x])
    ensures !AbsEvent(s, e).latched && !AbsEvent(s', e).latched && AbsEvent(s', e).autoReset == AbsEvent(s, e).autoReset
    ensures Live(s.waiters[x].rec) == s.waiters[x].rec.stillWaiting
    ensures LiveOf(Pending(s.events[e]), s.waiters) ==
      (if s.waiters[x].rec.stillWaiting then [Current(s.events[e])] else []) + LiveOf(Pending(s'.events[e]), s.waiters)
  {
    hide Joined;
    var ev := s.events[e];
    assert Live(s.waiters[x].rec) == s.waiters[x].rec.stillWaiting by { JoinedLive(s.waiters[x]); }
    ServedKeeps(ev);
    assert Pending(s'.events[e]) == Pending(Served(ev)) by { SamePending(s'.events[e], Served(ev)); }
    assert Pending(ev)[0] == Current(ev);
  }

  lemma JoinedLive(v: Waiter)
    requires v.rec.stillWaiting ==> Joined(v)
    ensures Live(v.rec) == v.rec.stillWaiting
  {
  }

  lemma GrantVisible(s: State, s': State, t: nat, e: nat, x: nat, n: Entry)
    requires EventsOk(s) && e in s.events && x < |s.waiters| == |s'.waiters| && Touches(s, s', t, {e}, {x}, {n})
    requires n.waiter == x && !AbsEvent(s, e).latched && Live(s.waiters[x].rec)
    requires AbsEvent(s, e).queue == [n] + LiveOf(Pending(s'.events[e]), s.waiters)
    requires Live(s'.waiters[x].rec) == s.waiters[x].rec.waitAll
    requires s'.events[e].autoReset == s.events[e].autoReset && !Latched(s', e)
    requires s'.events[e].ledger.grants == s.events[e].ledger.grants + [n]
    requires forall m | m in Pending(s'.events[e]) :: m.waiter < |s.waiters|
    requires AbsWait(s'.waiters[x]) == AbsWait(s.waiters[x]).(waiting := s.waiters[x].rec.waitAll,
               status := if s.waiters[x].rec.waitAll then s.waiters[x].rec.status - 1 else n.index)
    ensures CanDo(Abs(s), Step.Grant(e)) && Abs(s') == Do(Abs(s), Step.Grant(e))
  {
    hide EventsOk, LiveOf, Live, EventEvolves, WaiterEvolves, PcEvolves, Latched, Pending;
    var ns := Pending(s'.events[e]);
    if s.waiters[x].rec.waitAll { LiveSame(ns, s.waiters, s'.waiters); }
    else { LivePurged(ns, s.waiters, s'.waiters, x); }
    assert ([n] + LiveOf(ns, s.waiters))[1..] == LiveOf(ns, s.waiters);
    assert AbsEvent(s, e).queue[1..] == LiveOf(ns, s.waiters);
    Visible(s, s', t, e, x, {n}, Do(Abs(s), Step.Grant(e)));
  }

  lemma GrantStep(s: State, t: nat, e: nat, was: bool, x: nat)
    requires Inv(s) && AtSetHold(s, t, e, was, x) && s.waiters[x].rec.stillWaiting
    ensures CanDo(Abs(s), Step.Grant(e)) && Abs(GoSetHold(s, t, e, was, x)) == Do(Abs(s), Step.Grant(e))
  {
    var s' := GoSetHold(s, t, e, was, x);
    assert EventOk(s, e) && WaiterOk(s, x);
    HeldAsleep(s, t, e, was, x);
    hide EventsOk, WaitersOk, ThreadsOk, CountsOk, LinksOk, Joined, LedgerOk, Touches, Abs, Do, CanDo, Live;
    ServeShows(s, s', t, e, was, x);
    GrantTouches(s, s', t, e, was, x);
    ServedEntries(s, s', t, e, was, x);
    GrantLive(s, s', t, e, was, x);
    GrantVisible(s, s', t, e, x, Current(s.events[e]));
  }

  lemma GrantLive(s: State, s': State, t: nat, e: nat, was: bool, x: nat)
    requires AtSetHold(s, t, e, was, x) && s' == GoSetHold(s, t, e, was, x)
    requires s.waiters[x].rec.stillWaiting && Live(s.waiters[x].rec)
    ensures x < |s'.waiters| && Live(s'.waiters[x].rec) == s.waiters[x].rec.waitAll
    ensures AbsWait(s'.waiters[x]) == AbsWait(s.waiters[x]).(waiting := s.waiters[x].rec.waitAll,
              status := if s.waiters[x].rec.waitAll then s.waiters[x].rec.status - 1 else Current(s.events[e]).index)
  {
  }

  /** A setter drops an expired entry unseen. */
  lemma ServeStep(s: State, t: nat, e: nat, was: bool, x: nat)
    requires Inv(s) && AtSetHold(s, t, e, was, x) && !s.waiters[x].rec.stillWaiting
    ensures Abs(GoSetHold(s, t, e, was, x)) == Abs(s)
  {
    var s' := GoSetHold(s, t, e, was, x);
    assert EventOk(s, e);
    ServeTouches(s, s', t, e, was, x);
    ServeSame(s, s', t, e, was, x);
    hide EventsOk, WaitersOk, ThreadsOk, EventOk, AbsEvent, GoSetHold, Touches;
    Invisible(s, s', t, {e}, {x}, {Current(s.events[e])});
  }

  lemma ServeSame(s: State, s': State, t: nat, e: nat, was: bool, x: nat)
    requires AtSetHold(s, t, e, was, x) && s' == GoSetHold(s, t, e, was, x) && ListOk(s, e) && StateOk(s, e)
    requires !s.waiters[x].rec.stillWaiting
    ensures AbsEvent(s', e) == AbsEvent(s, e) && |s'.waiters| == |s.waiters|
    ensures AbsWait(s'.waiters[x]) == AbsWait(s.waiters[x])
  {
    hide ListOk, StateOk, LiveOf, Latched, Pending;
    ServeShows(s, s', t, e, was, x);
    ServedEntries(s, s', t, e, was, x);
    var ns := Pending(s'.events[e]);
    assert LiveOf(ns, s'.waiters) == LiveOf(ns, s.waiters) by { ServedLive(s, s', t, e, was, x); }
  }

  lemma ServedLive(s: State, s': State, t: nat, e: nat, was: bool, x: nat)
    requires AtSetHold(s, t, e, was, x) && s' == GoSetHold(s, t, e, was, x) && ListOk(s, e)
    requires !s.waiters[x].rec.stillWaiting
    ensures var ns := Pending(s'.events[e]); LiveOf(ns, s'.waiters) == LiveOf(ns, s.waiters)
  {
    assert |s'.waiters| == |s.waiters| && !s'.waiters[x].rec.stillWaiting;
    ServedEntries(s, s', t, e, was, x);
    hide ListOk, LiveOf, Pending, GoSetHold, AtSetHold;
    LiveSame(Pending(s'.events[e]), s.waiters, s'.waiters);
  }

  lemma ServedEntries(s: State, s': State, t: nat, e: nat, was: bool, x: nat)
    requires AtSetHold(s, t, e, was, x) && s' == GoSetHold(s, t, e, was, x) && ListOk(s, e)
    ensures |s'.waiters| == |s.waiters|
    ensures forall n | n in Pending(s'.events[e]) :: n.waiter < |s.waiters|
    ensures forall v: nat | v < |s.waiters| && v != x :: s'.waiters[v] == s.waiters[v]
  {
    ServedKeeps(s.events[e]);
    assert Pending(s'.events[e]) == Pending(Served(s.events[e])) by { SamePending(s'.events[e], Served(s.events[e])); }
    forall n | n in Pending(s'.events[e]) ensures n.waiter < |s.waiters| {
      assert ValidEntry(s, e, n);
    }
  }

  lemma ResetStep(s: State, t: nat, e: nat)
    requires Inv(s) && t in s.threads && s.threads[t] == ResetLock(e) && e in s.events && s.events[e].owner.None?
    ensures CanDo(Abs(s), Clear(e))
    ensures Abs(GoReset(s, t, e)) == Do(Abs(s), Clear(e))
  {
    hide EventsOk, WaitersOk, ThreadsOk, ListOk, LedgerOk, LiveOf;
    var s' := GoReset(s, t, e);
    assert Touches(s, s', t, {e}, {}, {});
    hide Touches;
    assert AbsEvent(s', e) == AbsEvent(s, e).(latched := false);
    EventStep(s, s', t, e, false);
  }

  lemma SingleShows(s: State, s': State, t: nat, e: nat, idle: Pc)
    requires t in s.threads && e in s.events && s.events[e].owner.None? && s' == GoSingle(s, t, e, idle)
    ensures e in s'.events && AbsEvent(s, e).latched == s.events[e].state
    ensures AbsEvent(s, e).autoReset == s.events[e].autoReset
    ensures s.events[e].state ==> AbsEvent(s', e) == AbsEvent(s, e).(latched := !s.events[e].autoReset)
    ensures !s.events[e].state ==> AbsEvent(s', e) == AbsEvent(s, e)
  {
    hide LiveOf;
  }

  lemma SingleVisible(s: State, s': State, t: nat, e: nat)
    requires EventsOk(s) && Touches(s, s', t, {e}, {}, {}) && e in s.events && |s'.waiters| == |s.waiters|
    requires AbsEvent(s, e).latched == s.events[e].state
    requires AbsEvent(s', e) ==
      if s.events[e].state then AbsEvent(s, e).(latched := !AbsEvent(s, e).autoReset) else AbsEvent(s, e)
    ensures if s.events[e].state then CanDo(Abs(s), Consume(e)) && Abs(s') == Do(Abs(s), Consume(e))
            else Abs(s') == Abs(s)
  {
    hide EventsOk, AbsEvent, Touches;
    if s.events[e].state { EventStep(s, s', t, e, !AbsEvent(s, e).autoReset); }
    else { Invisible(s, s', t, {e}, {}, {}); }
  }

  lemma SingleStep(s: State, t: nat, e: nat, idle: Pc)
    requires Inv(s) && t in s.threads && e in s.events && s.events[e].owner.None?
    requires s.threads[t].SingleLock? || s.threads[t].SingleAsleep?
    requires idle == SingleReturned(e, true) || (idle.SingleAsleep? && idle.e == e)
    ensures if s.events[e].state
            then CanDo(Abs(s), Consume(e)) && Abs(GoSingle(s, t, e, idle)) == Do(Abs(s), Consume(e))
            else Abs(GoSingle(s, t, e, idle)) == Abs(s)
  {
    var s' := GoSingle(s, t, e, idle);
    hide EventOk, AbsEvent, Touches, Abs, Do, CanDo, GoSingle;
    EventHolds(s, e);
    SingleEvent(s, s', t, e, idle);
    SingleShows(s, s', t, e, idle);
    SingleVisible(s, s', t, e);
  }

  lemma MoveStep(s: State, t: nat, p: Pc)
    requires Inv(s) && t in s.threads
    requires AtRest(s.threads[t]) || s.threads[t].SingleLock? || s.threads[t].SingleAsleep? || s.threads[t].SetSignal?
    requires p.SetLock? || p.ResetLock? || p.SingleLock? || p.SingleAsleep? || p.SingleReturned? || p.Idle?
    ensures Abs(Move(s, t, p)) == Abs(s)
  {
    Invisible(s, Move(s, t, p), t, {}, {}, {});
  }

  // A signal on a wait's condition does not show.
  lemma NotifiedStep(s: State, x: nat)
    requires EventsOk(s) && x < |s.waiters|
    ensures Abs(Notified(s, x)) == Abs(s)
  {
    var s' := Notified(s, x);
    forall e | e in s.events ensures AbsEvent(s', e) == AbsEvent(s, e) {
      assert EventOk(s, e);
      var ns := Pending(s.events[e]);
      forall n | n in ns ensures n.waiter < |s.waiters| { assert ValidEntry(s, e, n); }
      LiveSame(ns, s.waiters, s'.waiters);
    }
    assert Abs(s').events == Abs(s).events;
    assert Abs(s').waits == Abs(s).waits;
  }

  // Nor does the end of an auto-reset SetEvent that has been heard.
  lemma ReleaseStep(s: State, t: nat, e: nat, x: nat)
    requires EventsOk(s) && t in s.threads && s.threads[t] == HandOver(e, x) && e in s.events
    requires s.events[e].owner == Some(t)
    ensures Abs(Move(PutEvent(s, e, s.events[e].(owner := None)), t, Idle)) == Abs(s)
  {
    var s' := Move(PutEvent(s, e, s.events[e].(owner := None)), t, Idle);
    assert EventOk(s, e);
    assert Touches(s, s', t, {e}, {}, {});
    assert AbsEvent(s', e) == AbsEvent(s, e);
    Invisible(s, s', t, {e}, {}, {});
  }

  lemma HandOverStep(s: State, t: nat, e: nat, x: nat)
    requires Inv(s) && t in s.threads && s.threads[t] == HandOver(e, x) && PcOk(s, t)
    ensures Abs(GoHandOver(s, t, e, x)) == Abs(s)
  {
    NotifiedOk(s, x);
    LatchHolds(Notified(s, x));
    LatchHolds(s);
    hide Inv, EventsOk, Abs;
    NotifiedStep(s, x);
    ReleaseStep(Notified(s, x), t, e, x);
  }

  lemma SetNotifyStep(s: State, t: nat, e: nat, was: bool, x: nat)
    requires Inv(s) && t in s.threads && s.threads[t] == SetNotify(e, was, x) && PcOk(s, t)
    ensures Abs(GoSetNotify(s, t, e, was, x)) == Abs(s)
  {
    NotifiedOk(s, x);
    LatchHolds(Notified(s, x));
    LatchHolds(s);
    hide Inv, EventsOk, Abs;
    NotifiedStep(s, x);
    var m := Notified(s, x);
    assert Touches(m, GoSetNotify(s, t, e, was, x), t, {}, {}, {});
    Invisible(m, GoSetNotify(s, t, e, was, x), t, {}, {}, {});
  }

  lemma RouseStep(s: State, woken: set<nat>)
    requires EventsOk(s)
    ensures Abs(Rouse(s, woken)) == Abs(s)
  {
    var s' := Rouse(s, woken);
    forall e | e in s.events ensures AbsEvent(s', e) == AbsEvent(s, e) { assert EventOk(s, e); }
    assert Abs(s').events == Abs(s).events;
    assert Abs(s').waits == Abs(s).waits;
  }

  lemma GoSimulates(s: State, t: nat)
    requires Inv(s) && Enabled(s, t, Go)
    ensures CanDo(Abs(s), StepOf(s, t, Go)) && Abs(GoFrom(s, t)) == Do(Abs(s), StepOf(s, t, Go))
  {
    hide Inv, Abs;
    match s.threads[t]
    case Register(w, i) => RegisterStep(s, t, w, i);
    case Clean(w, i, e, j) =>
      if j < |s.events[e].waits| { CleanStep(s, t, w, i, e, j); }
      else if s.events[e].state { TakeStep(s, t, w, i, e, j); }
      else { JoinStep(s, t, w, i, e, j); }
    case CleanHold(w, i, e, j, x) => CleanHoldStep(s, t, w, i, e, j, x);
    case Check(w) => CheckStep(s, t, w);
    case Finish(w, timedOut) => FinishStep(s, t, w, timedOut);
    case SetLock(e) => SetLockStep(s, t, e);
    case SetLoop(e, was) =>
      if s.events[e].fired < |s.events[e].waits| {
        LockStep(s, t, e, was, s.events[e].waits[s.events[e].fired].waiter);
      }
      else { LatchHolds(s); LatchStep(s, t, e, was); }
    case SetHold(e, was, x) =>
      if s.waiters[x].rec.stillWaiting { GrantStep(s, t, e, was, x); } else { ServeStep(s, t, e, was, x); }
    case HandOver(e, x) => HandOverStep(s, t, e, x);
    case SetNotify(e, was, x) => SetNotifyStep(s, t, e, was, x);
    case ResetLock(e) => ResetStep(s, t, e);
    case SingleLock(e, limit) =>
      if s.events[e].owner.Some? { MoveStep(s, t, SingleReturned(e, true)); }
      else { SingleStep(s, t, e, if limit == Zero then SingleReturned(e, true) else SingleAsleep(e, limit, false)); }
  }

  lemma LatchHolds(s: State)
    requires Inv(s)
    ensures EventsOk(s)
  {
  }

  /** Every step of the protocol is a step of the simple events, or none. */
  lemma Simulates(s: State, t: nat, a: Action)
    requires Inv(s) && Enabled(s, t, a)
    ensures CanDo(Abs(s), StepOf(s, t, a)) && Abs(Next(s, t, a)) == Do(Abs(s), StepOf(s, t, a))
  {
    hide Inv;
    var p := s.threads[t];
    match a
    case BeginWait(es, waitAll, limit) => ArriveStep(s, t, es, waitAll, limit);
    case BeginSet(e) => MoveStep(s, t, SetLock(e));
    case BeginReset(e) => MoveStep(s, t, ResetLock(e));
    case BeginSingle(e, limit) => MoveStep(s, t, SingleLock(e, limit));
    case Go => GoSimulates(s, t);
    case Wake =>
      if p.Asleep? { WakenStep(s, t, p.w, Check(p.w)); }
      else { SingleStep(s, t, p.e, SingleAsleep(p.e, p.limit, false)); }
    case TimeOut =>
      if p.Asleep? { WakenStep(s, t, p.w, Finish(p.w, true)); }
      else { MoveStep(s, t, SingleReturned(p.e, true)); }
    case Signal(woken) =>
      LatchHolds(s);
      RouseStep(s, woken);
      RouseOk(s, woken);
      MoveStep(Rouse(s, woken), t, Idle);
  }

  /** a' is where the steps lead from a. */
  predicate Does(a: Simple, steps: seq<Step>, a': Simple)
    decreases |steps|
  {
    if steps == [] then a == a' else CanDo(a, steps[0]) && Does(Do(a, steps[0]), steps[1..], a')
  }

  /** What the steps of a run do to the simple events. */
  ghost function StepsOf(s: State, run: seq<Turn>): seq<Step>
    decreases |run|
  {
    if run == [] || !Enabled(s, run[0].thread, run[0].action) then []
    else [StepOf(s, run[0].thread, run[0].action)] + StepsOf(Next(s, run[0].thread, run[0].action), run[1..])
  }

  /** Every run of the protocol is a run of the simple events. */
  lemma {:induction false} Refines(s: State, run: seq<Turn>, s': State)
    requires Inv(s) && Leads(s, run, s')
    ensures Does(Abs(s), StepsOf(s, run), Abs(s'))
    decreases |run|
  {
    hide Inv, Abs, Enabled, StepOf, Next, CanDo, Do;
    if run != [] {
      var t, a := run[0].thread, run[0].action;
      Simulates(s, t, a);
      NextOk(s, t, a);
      Refines(Next(s, t, a), run[1..], s');
      var steps := StepsOf(s, run);
      assert steps[0] == StepOf(s, t, a) && steps[1..] == StepsOf(Next(s, t, a), run[1..]);
    }
  }

  // ----------------------------------------------- first come, first served

  /** Queues hold each entry once, only for waits still waiting, and nobody who has been served. */
  ghost predicate Tidy(a: Simple) {
    forall e {:trigger TidyEvent(a, e)} | e in a.events :: TidyEvent(a, e)
  }

  ghost predicate TidyEvent(a: Simple, e: nat)
    requires e in a.events
  {
    var ev := a.events[e];
    && Distinct(ev.queue)
    && forall n | n in ev.queue :: Waiting(a, n) && n !in ev.served
  }

  predicate Waiting(a: Simple, n: Entry) {
    n.waiter < |a.waits| && a.waits[n.waiter].waiting
  }

  /** n comes before m. */
  ghost predicate Before(q: seq<Entry>, n: Entry, m: Entry) {
    exists i, j :: 0 <= i < j < |q| && q[i] == n && q[j] == m
  }

  /** n has left e's queue for good. */
  predicate Past(a: Simple, e: nat, n: Entry)
    requires e in a.events
  {
    n !in a.events[e].queue && n.waiter < |a.waits| && (n in a.events[e].served || !a.waits[n.waiter].waiting)
  }

  /** From a to b nobody is let in front at e: those who stay keep their order, those who have left stay away. */
  ghost predicate InLine(a: Simple, b: Simple, e: nat) {
    && e in a.events && e in b.events
    && (forall n :: Past(a, e, n) ==> Past(b, e, n) && (n in b.events[e].served ==> n in a.events[e].served))
    && (forall n | n in a.events[e].queue :: n in b.events[e].queue || Past(b, e, n))
    && (forall n, m | Before(a.events[e].queue, n, m) && n in b.events[e].queue ::
          Before(b.events[e].queue, n, m) || (Past(b, e, m) && m !in b.events[e].served))
  }

  lemma InLineTwice(a: Simple, b: Simple, c: Simple, e: nat)
    requires InLine(a, b, e) && InLine(b, c, e)
    ensures InLine(a, c, e)
  {
    forall n, m | Before(a.events[e].queue, n, m) && n in c.events[e].queue
      ensures Before(c.events[e].queue, n, m) || (Past(c, e, m) && m !in c.events[e].served)
    {
      assert n in a.events[e].queue;
      assert n in b.events[e].queue || Past(b, e, n);
      assert Past(b, e, n) ==> Past(c, e, n);
    }
  }

  lemma {:induction false} PurgeMembers(q: seq<Entry>, w: nat)
    ensures forall n :: n in Purge(q, w) <==> n in q && n.waiter != w
    ensures Distinct(q) ==> Distinct(Purge(q, w))
  {
    if q != [] {
      PurgeMembers(q[1..], w);
      assert forall n :: n in q <==> n == q[0] || n in q[1..];
    }
  }

  lemma BeforeIn(n: Entry, m: Entry, q: seq<Entry>)
    requires m in q
    ensures Before([n] + q, n, m)
  {
    var k :| 0 <= k < |q| && q[k] == m;
    assert ([n] + q)[0] == n && ([n] + q)[k + 1] == m;
  }

  lemma BeforeLater(x: Entry, q: seq<Entry>, n: Entry, m: Entry)
    requires Before(q, n, m)
    ensures Before([x] + q, n, m)
  {
    var k, l :| 0 <= k < l < |q| && q[k] == n && q[l] == m;
    assert ([x] + q)[k + 1] == n && ([x] + q)[l + 1] == m;
  }

  lemma {:induction false} PurgeOrder(q: seq<Entry>, w: nat, n: Entry, m: Entry)
    requires Before(q, n, m) && n.waiter != w && m.waiter != w
    ensures Before(Purge(q, w), n, m)
  {
    var i, j :| 0 <= i < j < |q| && q[i] == n && q[j] == m;
    assert q[1..][j - 1] == m;
    if i == 0 {
      PurgeMembers(q[1..], w);
      BeforeIn(n, m, Purge(q[1..], w));
    } else {
      assert q[1..][i - 1] == n;
      PurgeOrder(q[1..], w, n, m);
      BeforeLater(q[0], Purge(q[1..], w), n, m);
    }
  }

  lemma GoneTidy(a: Simple, w: nat, status: int)
    requires Tidy(a) && w < |a.waits|
    ensures Tidy(Gone(a, w, status))
    ensures forall e | e in a.events :: InLine(a, Gone(a, w, status), e)
  {
    var b := Gone(a, w, status);
    forall e | e in a.events ensures TidyEvent(b, e) && InLine(a, b, e) {
      assert TidyEvent(a, e);
      var q := a.events[e].queue;
      PurgeMembers(q, w);
      forall n, m | Before(q, n, m) && n in b.events[e].queue
        ensures Before(b.events[e].queue, n, m) || (Past(b, e, m) && m !in b.events[e].served)
      {
        if m.waiter != w { PurgeOrder(q, w, n, m); }
      }
    }
  }

  lemma GotTidy(a: Simple, w: nat, k: nat)
    requires Tidy(a) && w < |a.waits|
    ensures Tidy(Got(a, w, k))
    ensures forall e | e in a.events :: InLine(a, Got(a, w, k), e)
  {
    if a.waits[w].waitAll {
      SameTidy(a, Got(a, w, k));
    } else {
      GoneTidy(a, w, k);
    }
  }

  /** Queues and waits that do not change. */
  lemma SameTidy(a: Simple, b: Simple)
    requires Tidy(a) && b.events.Keys == a.events.Keys && |a.waits| <= |b.waits|
    requires forall e | e in a.events ::
      b.events[e].queue == a.events[e].queue && b.events[e].served == a.events[e].served
    requires forall w | 0 <= w < |a.waits| :: b.waits[w].waiting == a.waits[w].waiting
    ensures Tidy(b)
    ensures forall e | e in a.events :: InLine(a, b, e)
  {
    forall e | e in b.events ensures TidyEvent(b, e) { assert TidyEvent(a, e); }
  }

  lemma JoinTidy(a: Simple, w: nat, k: nat)
    requires Tidy(a) && CanDo(a, Join(w, k))
    ensures Tidy(Do(a, Join(w, k)))
    ensures forall e | e in a.events :: InLine(a, Do(a, Join(w, k)), e)
  {
    var b := Do(a, Join(w, k));
    forall e | e in a.events ensures TidyEvent(b, e) && InLine(a, b, e) {
      assert TidyEvent(a, e);
      var q := a.events[e].queue;
      forall n, m | Before(q, n, m) ensures Before(b.events[e].queue, n, m) {
        var i, j :| 0 <= i < j < |q| && q[i] == n && q[j] == m;
        assert b.events[e].queue[i] == n && b.events[e].queue[j] == m;
      }
    }
  }

  lemma QueueTail(q: seq<Entry>, n: Entry, m: Entry)
    requires q != [] && Before(q, n, m) && n in q[1..] && Distinct(q)
    ensures Before(q[1..], n, m)
  {
    var i, j :| 0 <= i < j < |q| && q[i] == n && q[j] == m;
    assert q[1..][i - 1] == n && q[1..][j - 1] == m;
  }

  // The first in the queue of e is served.
  lemma PopTidy(a: Simple, e: nat)
    requires Tidy(a) && CanDo(a, Step.Grant(e))
    ensures var b := WithServed(WithQueue(a, e, a.events[e].queue[1..]), e, a.events[e].queue[0]);
      Tidy(b) && forall f | f in a.events :: InLine(a, b, f)
  {
    var q := a.events[e].queue;
    var b := WithServed(WithQueue(a, e, q[1..]), e, q[0]);
    forall f | f in a.events ensures TidyEvent(b, f) && InLine(a, b, f) {
      assert TidyEvent(a, f);
      if f == e { PopInLine(a, b, e); }
      hide Before;
    }
  }

  lemma PopInLine(a: Simple, b: Simple, e: nat)
    requires e in a.events && TidyEvent(a, e) && a.events[e].queue != []
    requires b == WithServed(WithQueue(a, e, a.events[e].queue[1..]), e, a.events[e].queue[0])
    ensures TidyEvent(b, e) && InLine(a, b, e)
  {
    var q := a.events[e].queue;
    assert forall n :: n in q <==> n == q[0] || n in q[1..];
    forall n, m | Before(q, n, m) && n in q[1..] ensures Before(q[1..], n, m) { QueueTail(q, n, m); }
    hide Before;
  }

  lemma TakeTidy(a: Simple, w: nat, k: nat)
    requires Tidy(a) && CanDo(a, Step.Take(w, k))
    ensures var e := a.waits[w].events[k];
      var b := WithServed(WithLatch(a, e, !a.events[e].autoReset), e, Entry(w, k));
      Tidy(b) && forall f | f in a.events :: InLine(a, b, f)
  {
    var e := a.waits[w].events[k];
    var b := WithServed(WithLatch(a, e, !a.events[e].autoReset), e, Entry(w, k));
    forall f | f in a.events ensures TidyEvent(b, f) && InLine(a, b, f) {
      assert TidyEvent(a, f);
    }
  }

  lemma StepTidy(a: Simple, step: Step)
    requires Tidy(a) && CanDo(a, step)
    ensures Tidy(Do(a, step)) && Do(a, step).events.Keys == a.events.Keys
    ensures forall e | e in a.events :: InLine(a, Do(a, step), e)
  {
    hide Tidy, InLine;
    match step
    case Join(w, k) => JoinTidy(a, w, k);
    case Take(w, k) =>
      var e := a.waits[w].events[k];
      var b := WithServed(WithLatch(a, e, !a.events[e].autoReset), e, Entry(w, k));
      TakeTidy(a, w, k);
      GotTidy(b, w, k);
      forall f | f in a.events ensures InLine(a, Do(a, step), f) { InLineTwice(a, b, Do(a, step), f); }
    case Grant(e) =>
      var n := a.events[e].queue[0];
      var b := WithServed(WithQueue(a, e, a.events[e].queue[1..]), e, n);
      PopTidy(a, e);
      GotTidy(b, n.waiter, n.index);
      forall f | f in a.events ensures InLine(a, Do(a, step), f) { InLineTwice(a, b, Do(a, step), f); }
    case Leave(w) => GoneTidy(a, w, a.waits[w].status);
    case _ => SameTidy(a, Do(a, step));
  }

  lemma {:induction false} RunTidy(a: Simple, steps: seq<Step>, a': Simple)
    requires Tidy(a) && Does(a, steps, a')
    ensures Tidy(a') && forall e | e in a.events :: InLine(a, a', e)
    decreases |steps|
  {
    hide Tidy, InLine, Do, CanDo;
    if steps == [] {
      SameTidy(a, a);
    } else {
      var b := Do(a, steps[0]);
      StepTidy(a, steps[0]);
      RunTidy(b, steps[1..], a');
      forall e | e in a.events ensures InLine(a, a', e) { InLineTwice(a, b, a', e); }
    }
  }

  /** The waits still waiting for e, in the order they queued up. */
  ghost function Queue(s: State, e: nat): seq<Entry>
    requires e in s.events
  {
    LiveOf(Pending(s.events[e]), s.waiters)
  }

  lemma ReachableTidy(s: State)
    requires Reachable(s)
    ensures Tidy(Abs(s))
  {
    var s0, run :| Initial(s0) && Leads(s0, run, s);
    InitialOk(s0);
    Refines(s0, run, s);
    assert Tidy(Abs(s0)) by { hide Leads; }
    RunTidy(Abs(s0), StepsOf(s0, run), Abs(s));
  }

  /** Whatever happens in between, a wait that is behind another at an event is
      not given the event as long as the other stands in line, and does not get ahead of it. */
  lemma FirstComeFirstServed(s: State, run: seq<Turn>, s': State, e: nat, n: Entry, m: Entry)
    requires Reachable(s) && Leads(s, run, s') && e in s.events && e in s'.events
    requires Before(Queue(s, e), n, m) && n in Queue(s', e)
    ensures !Granted(s', m, e)
    ensures m in Queue(s', e) ==> Before(Queue(s', e), n, m)
  {
    hide Reachable, Leads, Inv, Before, LiveOf, Pending, Tidy;
    ReachableOk(s);
    ReachableTidy(s);
    Refines(s, run, s');
    RunTidy(Abs(s), StepsOf(s, run), Abs(s'));
    assert Abs(s).events[e].queue == Queue(s, e) && Abs(s').events[e].queue == Queue(s', e);
    assert InLine(Abs(s), Abs(s'), e);
    if Before(Queue(s', e), n, m) { BehindUnserved(Abs(s'), e, n, m); }
  }

  /** The wait a SetEvent hands its signal to is the one that has stood in line longest. */
  lemma EarliestServed(s: State, t: nat, e: nat, was: bool, x: nat)
    requires Reachable(s) && Enabled(s, t, Go) && s.threads[t] == SetHold(e, was, x) && s.waiters[x].rec.stillWaiting
    ensures e in GoFrom(s, t).events && Queue(s, e) != []
    ensures GoFrom(s, t).events[e].ledger.grants == s.events[e].ledger.grants + [Queue(s, e)[0]]
  {
    ReachableOk(s);
    Simulates(s, t, Go);
    hide Inv, Reachable, LiveOf, Pending;
    assert StepOf(s, t, Go) == Step.Grant(e);
    assert Abs(GoFrom(s, t)).events[e].served == Abs(s).events[e].served + [Abs(s).events[e].queue[0]];
  }

  lemma BehindUnserved(a: Simple, e: nat, n: Entry, m: Entry)
    requires Tidy(a) && e in a.events && Before(a.events[e].queue, n, m)
    ensures m !in a.events[e].served
  {
    assert TidyEvent(a, e);
  }
}
