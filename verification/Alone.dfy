/** A SetEvent or a round of registration that nobody interleaves with does, step
    by step in the protocol, what the section of the event object does at once. */
module Alone {
  import opened Records
  import opened Protocol
  import opened Invariant
  import opened Sections
  import Runs

  ghost function Recs(ws: seq<Waiter>): map<nat, Wfmo> {
    map w: nat | w < |ws| :: ws[w].rec
  }

  function Infos(ns: seq<Entry>): seq<Info<nat>> {
    seq(|ns|, i requires 0 <= i < |ns| => Info(ns[i].waiter, ns[i].index))
  }

  /** Every wait that an entry of ns mentions exists, and its mutex is free. */
  ghost predicate AllFree(ws: seq<Waiter>, ns: seq<Entry>) {
    forall n | n in ns :: n.waiter < |ws| && ws[n.waiter].owner.None?
  }

  lemma FreeKnown(ws: seq<Waiter>, ns: seq<Entry>)
    requires AllFree(ws, ns)
    ensures Known(Recs(ws), Infos(ns))
  {
    forall i | 0 <= i < |ns| ensures Infos(ns)[i].waiter in Recs(ws) { assert ns[i] in ns; }
  }

  /** s' is s after the setter t of e is done, with o as its outcome. */
  ghost predicate Settled(s: State, s': State, t: nat, e: nat, o: Outcome<nat>)
    requires e in s.events
  {
    && s'.threads == s.threads[t := if o.state then SetSignal(e) else Idle]
    && s'.events.Keys == s.events.Keys && (forall f | f in s.events && f != e :: s'.events[f] == s.events[f])
    && s'.events[e].owner.None? && s'.events[e].fired == 0 && s'.events[e].autoReset == s.events[e].autoReset
    && s'.events[e].state == o.state && Infos(s'.events[e].waits) == o.waits
    && |s'.waiters| == |s.waiters| && Recs(s'.waiters) == o.records
    && (forall w | 0 <= w < |s.waiters| :: s'.waiters[w].owner == s.waiters[w].owner)
  }

  // The setter at its loop head.
  predicate AtLoop(s: State, t: nat, e: nat, was: bool) {
    && t in s.threads && s.threads[t] == SetLoop(e, was) && Setting(s, t, e, was)
    && (s.events[e].autoReset ==> s.events[e].fired == 0)
  }

  lemma LastTurn(s: State, t: nat, e: nat, was: bool) returns (s': State)
    requires AtLoop(s, t, e, was) && Pending(s.events[e]) == []
    ensures Runs.Leadable(s, s') && Settled(s, s', t, e, Outcome(Recs(s.waiters), [], true))
  {
    s' := GoSetLoop(s, t, e, was);
    Runs.OneStep(s, t, Go);
  }

  // One entry: its mutex is locked, and it is offered the signal.
  lemma OneTurn(s: State, t: nat, e: nat, was: bool) returns (s': State)
    requires AtLoop(s, t, e, was) && Pending(s.events[e]) != [] && AllFree(s.waiters, Pending(s.events[e]))
    ensures var n := Pending(s.events[e])[0];
      && s' == GoSetHold(GoSetLoop(s, t, e, was), t, e, was, n.waiter)
      && Runs.Leadable(s, s')
  {
    var n := Pending(s.events[e])[0];
    assert n == s.events[e].waits[s.events[e].fired];
    var m := GoSetLoop(s, t, e, was);
    Runs.OneStep(s, t, Go);
    s' := GoSetHold(m, t, e, was, n.waiter);
    Runs.OneStep(m, t, Go);
    Runs.ThenLeads(s, m, s');
  }

  /** s' is s with one entry of e's list less, whose wait has been dealt with. */
  ghost predicate OneLess(s: State, s': State, t: nat, e: nat, was: bool)
    requires AtLoop(s, t, e, was) && Pending(s.events[e]) != [] && AllFree(s.waiters, Pending(s.events[e]))
  {
    var n := Pending(s.events[e])[0];
    var r := s.waiters[n.waiter].rec;
    && AtLoop(s', t, e, was) && s'.threads == s.threads
    && s'.events.Keys == s.events.Keys && (forall f | f in s.events && f != e :: s'.events[f] == s.events[f])
    && s'.events[e].autoReset == s.events[e].autoReset
    && Pending(s'.events[e]) == Pending(s.events[e])[1..]
    && |s'.waiters| == |s.waiters| && (forall w | 0 <= w < |s.waiters| :: s'.waiters[w].owner == s.waiters[w].owner)
    && Recs(s'.waiters) == Recs(s.waiters)[n.waiter := if r.stillWaiting then Grant(r, n.index) else Discard(r)]
  }

  // An auto-reset event has found its wait: the signal, and the end.
  lemma TurnTaken(s: State, m: State, t: nat, e: nat, was: bool) returns (s': State)
    requires AtLoop(s, t, e, was) && Pending(s.events[e]) != [] && AllFree(s.waiters, Pending(s.events[e]))
    requires s.events[e].autoReset && s.waiters[Pending(s.events[e])[0].waiter].rec.stillWaiting
    requires m == GoSetHold(GoSetLoop(s, t, e, was), t, e, was, Pending(s.events[e])[0].waiter)
    ensures Runs.Leadable(m, s')
    ensures var n := Pending(s.events[e])[0];
      Settled(s, s', t, e, Outcome(Recs(s.waiters)[n.waiter := Grant(s.waiters[n.waiter].rec, n.index)],
                                   Infos(Pending(s.events[e])[1..]), false))
  {
    var n := Pending(s.events[e])[0];
    assert n == s.events[e].waits[0];
    s' := GoHandOver(m, t, e, n.waiter);
    Runs.OneStep(m, t, Go);
    assert s'.events[e].waits == Pending(s.events[e])[1..];
    assert s'.threads == s.threads[t := Idle];
    hide Runs.Leadable;
  }

  // A manual-reset event has found a wait: the signal, and on to the next entry.
  lemma TurnTold(s: State, m: State, t: nat, e: nat, was: bool) returns (s': State)
    requires AtLoop(s, t, e, was) && Pending(s.events[e]) != [] && AllFree(s.waiters, Pending(s.events[e]))
    requires !s.events[e].autoReset && s.waiters[Pending(s.events[e])[0].waiter].rec.stillWaiting
    requires m == GoSetHold(GoSetLoop(s, t, e, was), t, e, was, Pending(s.events[e])[0].waiter)
    ensures Runs.Leadable(m, s') && OneLess(s, s', t, e, was)
  {
    var x := Pending(s.events[e])[0].waiter;
    NotifyNext(s, m, t, e, was, x);
    ToldLess(s, m, t, e, was, x);
    hide Runs.Leadable, OneLess, Next, Enabled;
    s' := GoSetNotify(m, t, e, was, x);
    Runs.OneStep(m, t, Go);
  }

  lemma NotifyNext(s: State, m: State, t: nat, e: nat, was: bool, x: nat)
    requires AtLoop(s, t, e, was) && Pending(s.events[e]) != [] && AllFree(s.waiters, Pending(s.events[e]))
    requires !s.events[e].autoReset && x == Pending(s.events[e])[0].waiter && s.waiters[x].rec.stillWaiting
    requires m == GoSetHold(GoSetLoop(s, t, e, was), t, e, was, x)
    ensures Enabled(m, t, Go) && Next(m, t, Go) == GoSetNotify(m, t, e, was, x)
  {
    assert Pending(s.events[e])[0] == s.events[e].waits[s.events[e].fired];
  }

  lemma ToldLess(s: State, m: State, t: nat, e: nat, was: bool, x: nat)
    requires AtLoop(s, t, e, was) && Pending(s.events[e]) != [] && AllFree(s.waiters, Pending(s.events[e]))
    requires !s.events[e].autoReset && x == Pending(s.events[e])[0].waiter && s.waiters[x].rec.stillWaiting
    requires m == GoSetHold(GoSetLoop(s, t, e, was), t, e, was, x)
    ensures x < |m.waiters| && OneLess(s, GoSetNotify(m, t, e, was, x), t, e, was)
  {
    assert Pending(s.events[e])[0] == s.events[e].waits[s.events[e].fired];
    var s' := GoSetNotify(m, t, e, was, x);
    assert s'.threads == s.threads;
    ToldPending(s, m, t, e, was, x);
    ToldRecs(s, m, t, e, was, x);
    hide Recs, AllFree, Pending, Served;
  }

  lemma ToldPending(s: State, m: State, t: nat, e: nat, was: bool, x: nat)
    requires AtLoop(s, t, e, was) && Pending(s.events[e]) != []
    requires !s.events[e].autoReset && x == Pending(s.events[e])[0].waiter && x < |s.waiters|
    requires s.waiters[x].rec.stillWaiting && m == GoSetHold(GoSetLoop(s, t, e, was), t, e, was, x)
    ensures x < |m.waiters| && e in GoSetNotify(m, t, e, was, x).events
    ensures Pending(GoSetNotify(m, t, e, was, x).events[e]) == Pending(s.events[e])[1..]
  {
    assert Pending(s.events[e])[0] == s.events[e].waits[s.events[e].fired];
    ServedTail(s.events[e]);
  }

  lemma ToldRecs(s: State, m: State, t: nat, e: nat, was: bool, x: nat)
    requires AtLoop(s, t, e, was) && Pending(s.events[e]) != [] && AllFree(s.waiters, Pending(s.events[e]))
    requires !s.events[e].autoReset && x == Pending(s.events[e])[0].waiter && s.waiters[x].rec.stillWaiting
    requires m == GoSetHold(GoSetLoop(s, t, e, was), t, e, was, x)
    ensures x < |m.waiters|
    ensures Recs(GoSetNotify(m, t, e, was, x).waiters) ==
      Recs(s.waiters)[x := Grant(s.waiters[x].rec, Pending(s.events[e])[0].index)]
  {
    assert Pending(s.events[e])[0] == s.events[e].waits[s.events[e].fired];
  }

  // The entry of an expired wait is dropped, and on to the next.
  lemma TurnDropped(s: State, m: State, t: nat, e: nat, was: bool)
    requires AtLoop(s, t, e, was) && Pending(s.events[e]) != [] && AllFree(s.waiters, Pending(s.events[e]))
    requires !s.waiters[Pending(s.events[e])[0].waiter].rec.stillWaiting
    requires m == GoSetHold(GoSetLoop(s, t, e, was), t, e, was, Pending(s.events[e])[0].waiter)
    ensures OneLess(s, m, t, e, was)
  {
    var n := Pending(s.events[e])[0];
    assert n == s.events[e].waits[s.events[e].fired];
    assert m.threads == s.threads;
    ServedTail(s.events[e]);
    assert Pending(m.events[e]) == Pending(Served(s.events[e]));
  }

  lemma ServedTail(ev: Event)
    requires ev.fired < |ev.waits|
    ensures Pending(Served(ev)) == Pending(ev)[1..]
  {
  }

  // What is left to do after the first entry.
  lemma Unfolds(s: State, s': State, t: nat, e: nat, was: bool)
    requires AtLoop(s, t, e, was) && Pending(s.events[e]) != [] && AllFree(s.waiters, Pending(s.events[e]))
    requires OneLess(s, s', t, e, was)
    requires var n := Pending(s.events[e])[0]; !(s.events[e].autoReset && s.waiters[n.waiter].rec.stillWaiting)
    ensures AllFree(s'.waiters, Pending(s'.events[e]))
    ensures Known(Recs(s.waiters), Infos(Pending(s.events[e]))) && Known(Recs(s'.waiters), Infos(Pending(s'.events[e])))
    ensures Set(s.events[e].autoReset, Recs(s.waiters), Infos(Pending(s.events[e])))
         == Set(s.events[e].autoReset, Recs(s'.waiters), Infos(Pending(s'.events[e])))
  {
    var ns := Pending(s.events[e]);
    FreeKnown(s.waiters, ns);
    assert forall n | n in ns[1..] :: n in ns;
    FreeKnown(s'.waiters, ns[1..]);
    assert Infos(ns)[1..] == Infos(ns[1..]);
    assert Infos(ns)[0] == Info(ns[0].waiter, ns[0].index);
    hide Known;
    assert ns[0] in ns;
    assert Recs(s.waiters)[ns[0].waiter] == s.waiters[ns[0].waiter].rec;
  }

  /** From the loop head to the end. */
  lemma {:induction false} LoopAlone(s: State, t: nat, e: nat, was: bool) returns (s': State)
    requires AtLoop(s, t, e, was) && AllFree(s.waiters, Pending(s.events[e]))
    ensures Known(Recs(s.waiters), Infos(Pending(s.events[e])))
    ensures Runs.Leadable(s, s')
    ensures Settled(s, s', t, e, Set(s.events[e].autoReset, Recs(s.waiters), Infos(Pending(s.events[e]))))
    decreases |Pending(s.events[e])|
  {
    var ns := Pending(s.events[e]);
    FreeKnown(s.waiters, ns);
    if ns == [] {
      s' := LastTurn(s, t, e, was);
      assert Infos(ns) == [];
    } else {
      hide Runs.Leadable, Settled, OneLess, Known, Set;
      if s.events[e].autoReset && s.waiters[ns[0].waiter].rec.stillWaiting {
        s' := OneGiven(s, t, e, was);
      } else {
        var m := OneDone(s, t, e, was);
        Unfolds(s, m, t, e, was);
        LessAhead(s, m, t, e, was);
        s' := LoopAlone(m, t, e, was);
        Runs.ThenLeads(s, m, s');
        SettledLater(s, m, s', t, e, was, Set(s.events[e].autoReset, Recs(s.waiters), Infos(ns)));
      }
    }
  }

  lemma LessAhead(s: State, m: State, t: nat, e: nat, was: bool)
    requires AtLoop(s, t, e, was) && Pending(s.events[e]) != [] && AllFree(s.waiters, Pending(s.events[e]))
    requires OneLess(s, m, t, e, was)
    ensures AtLoop(m, t, e, was) && m.events[e].autoReset == s.events[e].autoReset
    ensures |Pending(m.events[e])| < |Pending(s.events[e])|
  {
  }

  lemma SettledLater(s: State, m: State, s': State, t: nat, e: nat, was: bool, o: Outcome<nat>)
    requires AtLoop(s, t, e, was) && Pending(s.events[e]) != [] && AllFree(s.waiters, Pending(s.events[e]))
    requires OneLess(s, m, t, e, was) && Settled(m, s', t, e, o)
    ensures Settled(s, s', t, e, o)
  {
  }

  // The first entry takes the signal of an auto-reset event.
  lemma OneGiven(s: State, t: nat, e: nat, was: bool) returns (s': State)
    requires AtLoop(s, t, e, was) && Pending(s.events[e]) != [] && AllFree(s.waiters, Pending(s.events[e]))
    requires s.events[e].autoReset && s.waiters[Pending(s.events[e])[0].waiter].rec.stillWaiting
    ensures Known(Recs(s.waiters), Infos(Pending(s.events[e]))) && Runs.Leadable(s, s')
    ensures Settled(s, s', t, e, SetAuto(Recs(s.waiters), Infos(Pending(s.events[e]))))
  {
    hide Runs.Leadable, Settled;
    FreeKnown(s.waiters, Pending(s.events[e]));
    var m := OneTurn(s, t, e, was);
    s' := TurnTaken(s, m, t, e, was);
    Runs.ThenLeads(s, m, s');
    GivenAtOnce(s.waiters, Pending(s.events[e]));
  }

  // The first entry is dealt with, and the loop goes on.
  lemma OneDone(s: State, t: nat, e: nat, was: bool) returns (m: State)
    requires AtLoop(s, t, e, was) && Pending(s.events[e]) != [] && AllFree(s.waiters, Pending(s.events[e]))
    requires !(s.events[e].autoReset && s.waiters[Pending(s.events[e])[0].waiter].rec.stillWaiting)
    ensures Runs.Leadable(s, m) && OneLess(s, m, t, e, was)
  {
    hide Runs.Leadable, OneLess;
    m := OneTurn(s, t, e, was);
    if s.waiters[Pending(s.events[e])[0].waiter].rec.stillWaiting {
      var k := TurnTold(s, m, t, e, was);
      Runs.ThenLeads(s, m, k);
      m := k;
    } else {
      TurnDropped(s, m, t, e, was);
    }
  }

  lemma GivenAtOnce(ws: seq<Waiter>, ns: seq<Entry>)
    requires ns != [] && AllFree(ws, ns) && ns[0].waiter < |ws| && ws[ns[0].waiter].rec.stillWaiting
    requires Known(Recs(ws), Infos(ns))
    ensures SetAuto(Recs(ws), Infos(ns)) ==
      Outcome(Recs(ws)[ns[0].waiter := Grant(ws[ns[0].waiter].rec, ns[0].index)], Infos(ns[1..]), false)
  {
    assert Infos(ns)[1..] == Infos(ns[1..]) && Infos(ns)[0] == Info(ns[0].waiter, ns[0].index);
  }

  lemma FreeEvent(s: State, e: nat)
    requires Reachable(s) && e in s.events && s.events[e].owner.None?
    ensures s.events[e].fired == 0 && (s.events[e].state ==> s.events[e].waits == [])
  {
    ReachableOk(s);
    assert EventOk(s, e);
  }

  /** A whole SetEvent, while e and every wait on its list are free: run by its
      thread alone it comes to exactly the outcome of the section on the event object. */
  lemma SetAlone(s: State, t: nat, e: nat) returns (s': State)
    requires Reachable(s) && t in s.threads && s.threads[t] == SetLock(e) && e in s.events
    requires s.events[e].owner.None? && AllFree(s.waiters, s.events[e].waits)
    ensures Known(Recs(s.waiters), Infos(s.events[e].waits)) && Runs.Leadable(s, s')
    ensures Settled(s, s', t, e, Set(s.events[e].autoReset, Recs(s.waiters), Infos(s.events[e].waits)))
  {
    FreeEvent(s, e);
    hide Reachable, Set, Known, Leads;
    var m := GoSetLock(s, t, e);
    Runs.OneStep(s, t, Go);
    assert Pending(m.events[e]) == s.events[e].waits && m.waiters == s.waiters;
    assert AtLoop(m, t, e, s.events[e].state);
    s' := LoopAlone(m, t, e, s.events[e].state);
    Runs.ThenLeads(s, m, s');
    SettledBefore(s, m, s', t, e, Set(s.events[e].autoReset, Recs(s.waiters), Infos(s.events[e].waits)));
  }

  lemma SettledBefore(s: State, m: State, s': State, t: nat, e: nat, o: Outcome<nat>)
    requires t in s.threads && e in s.events && m == GoSetLock(s, t, e) && Settled(m, s', t, e, o)
    ensures Settled(s, s', t, e, o)
  {
  }

  // ------------------------------------------- a round of registration

  ghost function Whole(s: State): World<nat, nat> {
    World(map e | e in s.events :: Shape(s.events[e].autoReset, s.events[e].state, Infos(s.events[e].waits)),
          Recs(s.waiters))
  }

  /** The waits whose mutex somebody has. */
  ghost function Busy(ws: seq<Waiter>): set<nat> {
    set w: nat | w < |ws| && ws[w].owner.Some?
  }

  /** m is s with wait w's clean-up of e moved on from entry j to entry k. */
  ghost predicate Swept(s: State, m: State, t: nat, w: nat, i: nat, e: nat, k: nat)
    requires e in s.events
  {
    && t in m.threads && m.threads == s.threads[t := Clean(w, i, e, k)]
    && m.events.Keys == s.events.Keys && (forall f | f in s.events && f != e :: m.events[f] == s.events[f])
    && m.events[e] == s.events[e].(waits := m.events[e].waits)
    && |m.waiters| == |s.waiters| && (forall x | 0 <= x < |s.waiters| :: SameWait(s.waiters[x], m.waiters[x]))
  }

  predicate SameWait(v: Waiter, v': Waiter) {
    && v'.thread == v.thread && v'.events == v.events && v'.owner == v.owner && v'.limit == v.limit
    && v'.rec.waitAll == v.rec.waitAll
  }

  /** Entry j has been looked at: it has stayed, or it has gone. */
  ghost predicate Looked(s: State, m: State, t: nat, w: nat, i: nat, e: nat, j: nat, stays: bool)
    requires AtClean(s, t, w, i, e, j) && j < |s.events[e].waits|
  {
    var x := s.events[e].waits[j].waiter;
    && stays == (s.waiters[x].owner.Some? || s.waiters[x].rec.stillWaiting)
    && Swept(s, m, t, w, i, e, if stays then j + 1 else j)
    && m.events[e].waits == (if stays then s.events[e].waits else Without(s.events[e].waits, j))
    && Recs(m.waiters) == if stays then Recs(s.waiters) else Recs(s.waiters)[x := Discard(s.waiters[x].rec)]
  }

  lemma LooksAt(s: State, t: nat, w: nat, i: nat, e: nat, j: nat) returns (m: State, stays: bool)
    requires AtClean(s, t, w, i, e, j) && j < |s.events[e].waits|
    ensures Runs.Leadable(s, m) && Looked(s, m, t, w, i, e, j, stays)
  {
    var x := s.events[e].waits[j].waiter;
    stays := s.waiters[x].owner.Some? || s.waiters[x].rec.stillWaiting;
    Runs.OneStep(s, t, Go);
    m := GoClean(s, t, w, i, e, j);
    if s.waiters[x].owner.None? {
      hide Runs.Leadable, Looked, GoClean, GoCleanHold;
      var k := GoCleanHold(m, t, w, i, e, j, x);
      HeldNext(s, m, t, w, i, e, j, x);
      Runs.OneStep(m, t, Go);
      Runs.ThenLeads(s, m, k);
      HeldLooked(s, m, t, w, i, e, j, x);
      m := k;
    } else {
      BusyLooked(s, t, w, i, e, j);
    }
  }

  lemma BusyLooked(s: State, t: nat, w: nat, i: nat, e: nat, j: nat)
    requires AtClean(s, t, w, i, e, j) && j < |s.events[e].waits| && s.waiters[s.events[e].waits[j].waiter].owner.Some?
    ensures Looked(s, GoClean(s, t, w, i, e, j), t, w, i, e, j, true)
  {
  }

  lemma HeldLooked(s: State, m: State, t: nat, w: nat, i: nat, e: nat, j: nat, x: nat)
    requires AtClean(s, t, w, i, e, j) && j < |s.events[e].waits| && x == s.events[e].waits[j].waiter
    requires s.waiters[x].owner.None? && m == GoClean(s, t, w, i, e, j)
    ensures Looked(s, GoCleanHold(m, t, w, i, e, j, x), t, w, i, e, j, s.waiters[x].rec.stillWaiting)
  {
    var k := GoCleanHold(m, t, w, i, e, j, x);
    assert k.threads == s.threads[t := k.threads[t]];
  }

  lemma HeldNext(s: State, m: State, t: nat, w: nat, i: nat, e: nat, j: nat, x: nat)
    requires AtClean(s, t, w, i, e, j) && j < |s.events[e].waits| && x == s.events[e].waits[j].waiter
    requires s.waiters[x].owner.None? && m == GoClean(s, t, w, i, e, j)
    ensures Enabled(m, t, Go) && Next(m, t, Go) == GoCleanHold(m, t, w, i, e, j, x)
  {
  }

  /** The clean-up from entry j has come to its end, and done what a sweep does. */
  ghost predicate SweptFrom(s: State, m: State, t: nat, w: nat, i: nat, e: nat, j: nat)
    requires e in s.events && j <= |s.events[e].waits| && Known(Recs(s.waiters), Infos(s.events[e].waits[j..]))
  {
    var (r, kept) := Sweep(Recs(s.waiters), Infos(s.events[e].waits[j..]), Busy(s.waiters));
    && e in m.events && Swept(s, m, t, w, i, e, |m.events[e].waits|)
    && Recs(m.waiters) == r && Infos(m.events[e].waits) == Infos(s.events[e].waits[..j]) + kept
  }

  lemma CleaningKnown(s: State, t: nat, w: nat, i: nat, e: nat, j: nat)
    requires AtClean(s, t, w, i, e, j)
    ensures Known(Recs(s.waiters), Infos(s.events[e].waits[j..]))
  {
  }

  // After Looked the clean-up is still in order, and the rest of the list is the rest.
  lemma LookedOn(s: State, m: State, t: nat, w: nat, i: nat, e: nat, j: nat, stays: bool)
    requires AtClean(s, t, w, i, e, j) && j < |s.events[e].waits| && Looked(s, m, t, w, i, e, j, stays)
    ensures var k := if stays then j + 1 else j;
      && AtClean(m, t, w, i, e, k) && m.events[e].waits[k..] == s.events[e].waits[j + 1..]
      && m.events[e].waits[..k] == s.events[e].waits[..j] + (if stays then [s.events[e].waits[j]] else [])
      && Busy(m.waiters) == Busy(s.waiters)
  {
    forall x: nat ensures x in Busy(m.waiters) <==> x in Busy(s.waiters) {
      if x < |s.waiters| { assert SameWait(s.waiters[x], m.waiters[x]); }
    }
    assert SameWait(s.waiters[w], m.waiters[w]);
    forall n | n in m.events[e].waits ensures n in s.events[e].waits {}
  }

  lemma SweptOn(s: State, m: State, l: State, t: nat, w: nat, i: nat, e: nat, j: nat, k: nat)
    requires e in s.events && e in m.events && Swept(s, m, t, w, i, e, j) && Swept(m, l, t, w, i, e, k)
    ensures Swept(s, l, t, w, i, e, k)
  {
    forall x | 0 <= x < |s.waiters| ensures SameWait(s.waiters[x], l.waiters[x]) {
      assert SameWait(s.waiters[x], m.waiters[x]) && SameWait(m.waiters[x], l.waiters[x]);
    }
    assert l.threads == s.threads[t := Clean(w, i, e, k)];
  }

  lemma InfosHead(ns: seq<Entry>, j: nat)
    requires j < |ns|
    ensures Infos(ns[j..]) == [Info(ns[j].waiter, ns[j].index)] + Infos(ns[j + 1..])
  {
  }

  lemma InfosPart(ms: seq<Entry>, ns: seq<Entry>)
    ensures Infos(ms + ns) == Infos(ms) + Infos(ns)
  {
  }

  lemma {:induction false} CleansAlone(s: State, t: nat, w: nat, i: nat, e: nat, j: nat) returns (m: State)
    requires AtClean(s, t, w, i, e, j)
    ensures Known(Recs(s.waiters), Infos(s.events[e].waits[j..])) && Runs.Leadable(s, m)
    ensures SweptFrom(s, m, t, w, i, e, j) && AtClean(m, t, w, i, e, |m.events[e].waits|)
    decreases |s.events[e].waits| - j
  {
    CleaningKnown(s, t, w, i, e, j);
    if j == |s.events[e].waits| {
      m := s;
      SweptNone(s, t, w, i, e);
      assert Leads(s, [], s);
    } else {
      hide Runs.Leadable, Looked, SweptFrom, AtClean;
      var k, stays := LooksAt(s, t, w, i, e, j);
      assert AtClean(s, t, w, i, e, j);
      LookedOn(s, k, t, w, i, e, j, stays);
      LessToClean(s, k, t, w, i, e, j, stays);
      m := CleansAlone(k, t, w, i, e, if stays then j + 1 else j);
      Runs.ThenLeads(s, k, m);
      CleansOn(s, k, m, t, w, i, e, j, stays);
    }
  }

  lemma LessToClean(s: State, m: State, t: nat, w: nat, i: nat, e: nat, j: nat, stays: bool)
    requires AtClean(s, t, w, i, e, j) && j < |s.events[e].waits| && Looked(s, m, t, w, i, e, j, stays)
    ensures e in m.events && |m.events[e].waits| - (if stays then j + 1 else j) < |s.events[e].waits| - j
  {
  }

  lemma SweptNone(s: State, t: nat, w: nat, i: nat, e: nat)
    requires e in s.events && AtClean(s, t, w, i, e, |s.events[e].waits|)
    ensures Known(Recs(s.waiters), Infos(s.events[e].waits[|s.events[e].waits|..]))
    ensures SweptFrom(s, s, t, w, i, e, |s.events[e].waits|)
  {
    var ns := s.events[e].waits;
    assert ns[|ns|..] == [] && ns[..|ns|] == ns && Infos([]) == [];
    assert s.threads == s.threads[t := Clean(w, i, e, |ns|)];
  }

  lemma CleansOn(s: State, k: State, m: State, t: nat, w: nat, i: nat, e: nat, j: nat, stays: bool)
    requires AtClean(s, t, w, i, e, j) && j < |s.events[e].waits| && Looked(s, k, t, w, i, e, j, stays)
    requires AtClean(k, t, w, i, e, if stays then j + 1 else j)
    requires Known(Recs(k.waiters), Infos(k.events[e].waits[if stays then j + 1 else j..]))
    requires SweptFrom(k, m, t, w, i, e, if stays then j + 1 else j)
    requires Known(Recs(s.waiters), Infos(s.events[e].waits[j..]))
    ensures SweptFrom(s, m, t, w, i, e, j)
  {
    var ns := s.events[e].waits;
    LookedOn(s, k, t, w, i, e, j, stays);
    SweepOn(s, k, t, w, i, e, j, stays);
    LookedSwept(s, k, t, w, i, e, j, stays);
    hide Looked, AtClean, Swept, Sweep, Known, Busy, Recs, Infos;
    SweptOn(s, k, m, t, w, i, e, if stays then j + 1 else j, |m.events[e].waits|);
    ListOn(ns[..j], ns[j], Sweep(Recs(k.waiters), Infos(ns[j + 1..]), Busy(s.waiters)).1, stays);
  }

  lemma LookedSwept(s: State, m: State, t: nat, w: nat, i: nat, e: nat, j: nat, stays: bool)
    requires AtClean(s, t, w, i, e, j) && j < |s.events[e].waits| && Looked(s, m, t, w, i, e, j, stays)
    ensures e in s.events && e in m.events && Swept(s, m, t, w, i, e, if stays then j + 1 else j)
  {
  }

  lemma ListOn(ms: seq<Entry>, n: Entry, kept: seq<Info<nat>>, stays: bool)
    ensures Infos(ms + if stays then [n] else []) + kept ==
      Infos(ms) + if stays then [Info(n.waiter, n.index)] + kept else kept
  {
    InfosPart(ms, if stays then [n] else []);
    assert Infos([n]) == [Info(n.waiter, n.index)] && Infos([]) == [] && Infos(ms) + [] == Infos(ms);
  }

  // The sweep of a list, from the sweep of its rest.
  lemma SweepOn(s: State, k: State, t: nat, w: nat, i: nat, e: nat, j: nat, stays: bool)
    requires AtClean(s, t, w, i, e, j) && j < |s.events[e].waits| && Looked(s, k, t, w, i, e, j, stays)
    requires Known(Recs(k.waiters), Infos(s.events[e].waits[j + 1..]))
    requires Known(Recs(s.waiters), Infos(s.events[e].waits[j..]))
    ensures var n := Info(s.events[e].waits[j].waiter, s.events[e].waits[j].index);
      var (r, kept) := Sweep(Recs(k.waiters), Infos(s.events[e].waits[j + 1..]), Busy(s.waiters));
      Sweep(Recs(s.waiters), Infos(s.events[e].waits[j..]), Busy(s.waiters)) == (r, if stays then [n] + kept else kept)
  {
    var ns := s.events[e].waits;
    var n := Info(ns[j].waiter, ns[j].index);
    InfosHead(ns, j);
    KnownParts(Recs(s.waiters), [n], Infos(ns[j + 1..]));
    SweepHead(Recs(s.waiters), n, Infos(ns[j + 1..]), Busy(s.waiters));
    assert n.waiter in Busy(s.waiters) <==> s.waiters[n.waiter].owner.Some?;
    hide Sweep, Swept, Known;
  }

  // The round ends: the event is consumed, or its list joined.
  lemma SettlesAlone(s: State, t: nat, w: nat, i: nat, e: nat) returns (s': State)
    requires e in s.events && AtClean(s, t, w, i, e, |s.events[e].waits|)
    ensures Runs.Leadable(s, s') && Settles(s, s', t, w, i, e)
  {
    Runs.OneStep(s, t, Go);
    s' := Next(s, t, Go);
    hide Runs.Leadable;
    assert s'.threads == s.threads[t := s'.threads[t]];
  }

  ghost predicate Settles(s: State, s': State, t: nat, w: nat, i: nat, e: nat)
    requires e in s.events && w < |s.waiters|
  {
    var ev, v := s.events[e], s.waiters[w];
    && t in s'.threads
    && s'.threads == s.threads[t := if ev.state && !v.rec.waitAll then Finish(w, false) else Register(w, i + 1)]
    && s'.events.Keys == s.events.Keys && (forall f | f in s.events && f != e :: s'.events[f] == s.events[f])
    && s'.events[e].autoReset == ev.autoReset && s'.events[e].state == (ev.state && !ev.autoReset)
    && s'.events[e].owner.None?
    && s'.events[e].waits == ev.waits + (if ev.state then [] else [Entry(w, i)])
    && |s'.waiters| == |s.waiters| && (forall x | 0 <= x < |s.waiters| :: SameWait(s.waiters[x], s'.waiters[x]))
    && Recs(s'.waiters) == Recs(s.waiters)[w := if ev.state then Take(v.rec, i) else Enlist(v.rec)]
  }

  /** A whole round of registration, while its event is free: run by its thread
      alone it comes to exactly the outcome of the round of the event objects. */
  lemma RoundAlone(s: State, t: nat, w: nat, i: nat) returns (s': State)
    requires Reachable(s) && t in s.threads && s.threads[t] == Register(w, i) && w < |s.waiters|
    requires i < |s.waiters[w].events| && s.waiters[w].events[i] in s.events
    requires s.events[s.waiters[w].events[i]].owner.None?
    ensures Closed(Whole(s)) && Runs.Leadable(s, s')
    ensures Whole(s') == Round(Whole(s), w, s.waiters[w].events[i], i, Busy(s.waiters))
    ensures t in s'.threads && s'.threads == s.threads[t := s'.threads[t]]
    ensures s'.threads[t] == if s.events[s.waiters[w].events[i]].state && !s.waiters[w].rec.waitAll
                             then Finish(w, false) else Register(w, i + 1)
  {
    var e := s.waiters[w].events[i];
    LocksAlone(s, t, w, i, e);
    WholeClosed(s);
    assert Known(Recs(s.waiters), Infos(s.events[e].waits)) by {
      assert Known(Whole(s).records, Whole(s).events[e].waits);
    }
    var m := GoRegister(s, t, w, i);
    Runs.OneStep(s, t, Go);
    hide Reachable, Runs.Leadable, Swept, Settles, Round, Known, Closed, SweptFrom, AtClean, Next, Enabled;
    var k := CleansAlone(m, t, w, i, e, 0);
    Runs.ThenLeads(s, m, k);
    SweepIs(s, m, k, t, w, i, e);
    s' := SettlesAlone(k, t, w, i, e);
    Runs.ThenLeads(s, k, s');
    RoundIs(s, k, s', t, w, i, e);
    RoundLeft(s, m, k, s', t, w, i, e);
  }

  lemma RoundLeft(s: State, m: State, k: State, s': State, t: nat, w: nat, i: nat, e: nat)
    requires t in s.threads && Mine(s, t, w) && i < |s.waiters[w].events| && e == s.waiters[w].events[i]
    requires e in s.events
    requires m == GoRegister(s, t, w, i) && AtClean(m, t, w, i, e, 0)
    requires Known(Recs(m.waiters), Infos(m.events[e].waits[0..])) && SweptFrom(m, k, t, w, i, e, 0)
    requires e in k.events && w < |k.waiters| && Settles(k, s', t, w, i, e)
    ensures t in s'.threads && s'.threads == s.threads[t := s'.threads[t]]
    ensures s'.threads[t] ==
      if s.events[e].state && !s.waiters[w].rec.waitAll then Finish(w, false) else Register(w, i + 1)
  {
  }

  lemma WholeClosed(s: State)
    requires Reachable(s)
    ensures Closed(Whole(s))
  {
    ReachableOk(s);
    forall e | e in s.events ensures Known(Recs(s.waiters), Infos(s.events[e].waits)) {
      assert EventOk(s, e);
      forall p | 0 <= p < |s.events[e].waits| ensures Infos(s.events[e].waits)[p].waiter in Recs(s.waiters) {
        assert ValidEntry(s, e, s.events[e].waits[p]);
      }
    }
  }

  lemma LocksAlone(s: State, t: nat, w: nat, i: nat, e: nat)
    requires Reachable(s) && t in s.threads && s.threads[t] == Register(w, i) && w < |s.waiters|
    requires i < |s.waiters[w].events| && e == s.waiters[w].events[i] && e in s.events && s.events[e].owner.None?
    ensures Enabled(s, t, Go) && Next(s, t, Go) == GoRegister(s, t, w, i)
    ensures AtClean(GoRegister(s, t, w, i), t, w, i, e, 0)
    ensures Mine(s, t, w)
  {
    ReachableOk(s);
    assert PcOk(s, t);
    NextOk(s, t, Go);
    assert PcOk(Next(s, t, Go), t);
  }

  // The clean-up, in terms of the whole world.
  lemma SweepIs(s: State, m: State, k: State, t: nat, w: nat, i: nat, e: nat)
    requires t in s.threads && Mine(s, t, w) && i < |s.waiters[w].events| && e == s.waiters[w].events[i]
    requires e in s.events
    requires m == GoRegister(s, t, w, i) && AtClean(m, t, w, i, e, 0)
    requires Known(Recs(m.waiters), Infos(m.events[e].waits[0..])) && SweptFrom(m, k, t, w, i, e, 0)
    requires Known(Recs(s.waiters), Infos(s.events[e].waits))
    ensures e in k.events && w < |k.waiters| == |s.waiters|
    ensures (Recs(k.waiters), Infos(k.events[e].waits)) ==
      Sweep(Recs(s.waiters), Infos(s.events[e].waits), Busy(s.waiters) + {w})
    ensures k.events == s.events[e := k.events[e]] && k.events[e].state == s.events[e].state
    ensures k.events[e].autoReset == s.events[e].autoReset
  {
    assert m.waiters == s.waiters && m.events[e].waits == s.events[e].waits;
    assert s.events[e].waits[0..] == s.events[e].waits && s.events[e].waits[..0] == [];
    assert Infos([]) == [] && Busy(s.waiters) + {w} == Busy(s.waiters);
    hide Sweep, Known;
    var kept := Sweep(Recs(s.waiters), Infos(s.events[e].waits), Busy(s.waiters)).1;
    assert Infos(m.events[e].waits[..0]) + kept == kept;
    assert k.events == s.events[e := k.events[e]];
  }

  lemma RoundIs(s: State, k: State, s': State, t: nat, w: nat, i: nat, e: nat)
    requires e in s.events && e in k.events && w < |k.waiters| == |s.waiters| && Closed(Whole(s))
    requires Known(Recs(s.waiters), Infos(s.events[e].waits))
    requires (Recs(k.waiters), Infos(k.events[e].waits)) ==
      Sweep(Recs(s.waiters), Infos(s.events[e].waits), Busy(s.waiters) + {w})
    requires k.events == s.events[e := k.events[e]] && k.events[e].state == s.events[e].state
    requires k.events[e].autoReset == s.events[e].autoReset
    requires Settles(k, s', t, w, i, e)
    ensures Whole(s') == Round(Whole(s), w, e, i, Busy(s.waiters))
  {
    RoundGives(s, k, w, i, e);
    SettledWhole(s, k, s', t, w, i, e);
    hide Sweep, Known, Closed, Busy, Round, Settles, Infos, Recs;
  }

  lemma SettledWhole(s: State, k: State, s': State, t: nat, w: nat, i: nat, e: nat)
    requires e in s.events && e in k.events && w < |k.waiters| && k.events == s.events[e := k.events[e]]
    requires Settles(k, s', t, w, i, e)
    ensures var ev, r := k.events[e], k.waiters[w].rec;
      && Whole(s').records == Recs(k.waiters)[w := if ev.state then Take(r, i) else Enlist(r)]
      && Whole(s').events == Whole(s).events[e :=
           Shape(ev.autoReset, ev.state && !ev.autoReset, Infos(ev.waits) + if ev.state then [] else [Info(w, i)])]
  {
    var ev := k.events[e];
    InfosPart(ev.waits, if ev.state then [] else [Entry(w, i)]);
    assert Infos([Entry(w, i)]) == [Info(w, i)] && Infos([]) == [];
    hide Infos, Recs;
  }

  lemma RoundGives(s: State, k: State, w: nat, i: nat, e: nat)
    requires e in s.events && e in k.events && w < |k.waiters| == |s.waiters| && Closed(Whole(s))
    requires Known(Recs(s.waiters), Infos(s.events[e].waits))
    requires (Recs(k.waiters), Infos(k.events[e].waits)) ==
      Sweep(Recs(s.waiters), Infos(s.events[e].waits), Busy(s.waiters) + {w})
    ensures var g := Whole(s); var g' := Round(g, w, e, i, Busy(s.waiters)); var r := k.waiters[w].rec;
      if s.events[e].state then
        g'.records == Recs(k.waiters)[w := Take(r, i)]
        && g'.events ==
             g.events[e := Shape(s.events[e].autoReset, !s.events[e].autoReset, Infos(k.events[e].waits) + [])]
      else
        g'.records == Recs(k.waiters)[w := Enlist(r)]
        && g'.events == g.events[e := Shape(s.events[e].autoReset, false, Infos(k.events[e].waits) + [Info(w, i)])]
  {
    var g := Whole(s);
    assert g.events[e].waits == Infos(s.events[e].waits) && g.records == Recs(s.waiters);
    assert Recs(k.waiters)[w] == k.waiters[w].rec;
    assert Infos(k.events[e].waits) + [] == Infos(k.events[e].waits);
    hide Sweep, Known, Closed, Busy;
  }
}
