/** The event library as objects that change in place.  Each method is a whole
    critical section, or a sequence of them with nobody else in between; what
    other threads may do in between is the subject of Protocol. */
module EventObjects {
  import opened Records
  import opened Sections

  /** neosmart_wfmo_t_.  In the methods ws is any set of waits with this one among them. */
  class Waiter {
    var RefCount: int
    var Status: int          // FiredEvent or EventsLeft
    var WaitAll: bool
    var StillWaiting: bool
    var Notified: bool
    var Freed: bool

    /** The record that the fields make up. */
    function Value(): Wfmo
      reads this
    {
      Wfmo(WaitAll, RefCount, StillWaiting, Status, Notified, Freed)
    }

    constructor (count: nat, waitAll: bool)
      ensures Value() == Open(count, waitAll)
    {
      WaitAll, StillWaiting, RefCount := waitAll, true, 1;
      Status := if waitAll then count else -1;
      Notified, Freed := false, false;
    }

    /** RemoveExpiredWaitHelper: whether the caller is to drop the entry. */
    method RemoveExpired(busy: bool, ghost ws: set<Waiter>)
      returns (remove: bool)
      requires this in ws
      requires !busy && !StillWaiting ==> RefCount >= 1
      modifies this
      ensures remove == (!busy && !old(StillWaiting))
      ensures remove ==> Values(ws) == old(Values(ws))[this := Discard(old(Value()))]
      ensures !remove ==> Values(ws) == old(Values(ws))
    {
      if busy {
        return false;
      }
      if !StillWaiting {
        RefCount := RefCount - 1;
        assert RefCount >= 0;
        if RefCount == 0 {
          Freed := true;
        }
        return true;
      }
      return false;
    }

    /** What SetEvent does with a list entry of this wait: whether it took the signal. */
    method Offer(index: nat, ghost ws: set<Waiter>) returns (taken: bool)
      requires this in ws
      requires RefCount >= 1 && (WaitAll && StillWaiting ==> Status >= 1)
      modifies this
      ensures taken == old(StillWaiting)
      ensures taken ==> Values(ws) == old(Values(ws))[this := Grant(old(Value()), index)]
      ensures !taken ==> Values(ws) == old(Values(ws))[this := Discard(old(Value()))]
    {
      RefCount := RefCount - 1;
      assert RefCount >= 0;
      if !StillWaiting {
        if RefCount == 0 {
          Freed := true;
        }
        return false;
      }
      if WaitAll {
        Status := Status - 1;
        assert Status >= 0;
      } else {
        Status := index;
        StillWaiting := false;
      }
      Notified := true;
      return true;
    }

    /** The registration loop has consumed event i for this wait. */
    method Consume(i: nat, ghost ws: set<Waiter>)
      requires this in ws && (WaitAll ==> Status >= 1)
      modifies this`Status
      ensures Values(ws) == old(Values(ws))[this := Take(old(Value()), i)]
    {
      if WaitAll {
        Status := Status - 1;
        assert Status >= 0;
      } else {
        Status := i;
      }
    }

    /** The registration loop has put this wait on a list. */
    method AddReference(ghost ws: set<Waiter>)
      requires this in ws
      modifies this`RefCount
      ensures Values(ws) == old(Values(ws))[this := Enlist(old(Value()))]
    {
      RefCount := RefCount + 1;
    }

    /** The end of WaitForMultipleEvents: waitIndex is read from the union. */
    method Leave(ghost ws: set<Waiter>) returns (waitIndex: int)
      requires this in ws && RefCount >= 1
      modifies this
      ensures Values(ws) == old(Values(ws))[this := Close(old(Value()))] && waitIndex == old(Status)
    {
      waitIndex := Status;
      StillWaiting := false;
      RefCount := RefCount - 1;
      assert RefCount >= 0;
      if RefCount == 0 {
        Freed := true;
      }
    }
  }

  ghost function Values(ws: set<Waiter>): map<Waiter, Wfmo>
    reads ws
  {
    map w | w in ws :: w.Value()
  }

  lemma NoneLeft(m: map<Waiter, Wfmo>, goal: Outcome<Waiter>)
    requires Serving(m, [], goal)
    ensures goal == Outcome(m, [], true)
  {
  }

  lemma AllTold(m: map<Waiter, Wfmo>, goal: Outcome<Waiter>)
    requires Telling(m, [], goal)
    ensures goal == Outcome(m, [], true)
  {
  }

  lemma ValueOf(ws: set<Waiter>, w: Waiter)
    requires w in Values(ws)
    ensures w in ws && Values(ws)[w] == w.Value()
  {
  }

  ghost function Shapes(es: set<Event>): map<Event, Shape<Waiter>>
    reads es
  {
    map e | e in es :: Shape(e.AutoReset, e.State, e.RegisteredWaits)
  }

  /** neosmart_event_t_ */
  class Event {
    const AutoReset: bool
    var State: bool
    var RegisteredWaits: seq<Info<Waiter>>

    /** A signalled event has no registered waits. */
    predicate Valid()
      reads this
    {
      State ==> RegisteredWaits == []
    }

    /** CreateEvent */
    constructor (manualReset: bool, initialState: bool)
      ensures Valid() && AutoReset == !manualReset && State == initialState && RegisteredWaits == []
    {
      AutoReset := !manualReset;
      State := false;
      RegisteredWaits := [];
      new;
      if initialState {
        SetEvent({});
      }
    }

    /** UnlockedWaitForEvent with 0 milliseconds: whether the event was consumed. */
    method UnlockedPoll() returns (consumed: bool)
      modifies this`State
      ensures consumed == old(State) && State == (old(State) && !AutoReset)
    {
      if !State {
        return false;
      } else if AutoReset {
        State := false;
      }
      return true;
    }

    /** After the clean-up in the registration loop: consume the event or put n on its list. */
    method Admit(n: Info<Waiter>, ghost es: set<Event>) returns (consumed: bool)
      requires this in es
      modifies this`State, this`RegisteredWaits
      ensures consumed == old(State)
      ensures consumed ==> Shapes(es) == old(Shapes(es))[this := Shape(AutoReset, !AutoReset, old(RegisteredWaits))]
      ensures !consumed ==> Shapes(es) == old(Shapes(es))[this := Shape(AutoReset, false, old(RegisteredWaits) + [n])]
    {
      consumed := UnlockedPoll();
      if !consumed {
        RegisteredWaits := RegisteredWaits + [n];
      }
    }

    method ResetEvent()
      modifies this`State
      ensures !State
    {
      State := false;
    }

    /** SetEvent.  ws holds the waits on the list. */
    method SetEvent(ghost ws: set<Waiter>)
      requires Backed(Values(ws), RegisteredWaits)
      modifies this, ws
      ensures var o := Set(AutoReset, old(Values(ws)), old(RegisteredWaits));
        State == o.state && RegisteredWaits == o.waits && Values(ws) == o.records
      ensures Valid() && Backed(Values(ws), RegisteredWaits)
    {
      SetKeepsBacked(AutoReset, Values(ws), RegisteredWaits);
      State := true;
      if AutoReset {
        SetAutoReset(ws);
      } else {
        SetManualReset(ws);
      }
    }

    method SetAutoReset(ghost ws: set<Waiter>)
      requires AutoReset && State && Backed(Values(ws), RegisteredWaits)
      modifies this, ws
      ensures var o := SetAuto(old(Values(ws)), old(RegisteredWaits));
        State == o.state && RegisteredWaits == o.waits && Values(ws) == o.records
    {
      ghost var m := Values(ws);
      ghost var goal := SetAuto(m, RegisteredWaits);
      hide Backed, Serving, SetAuto, Values;
      while RegisteredWaits != []
        invariant State && Serving(Values(ws), RegisteredWaits, goal)
        decreases |RegisteredWaits|
      {
        var taken := ServeFront(ws, goal);
        if taken {
          State := false;
          return;
        }
      }
      NoneLeft(Values(ws), goal);
    }

    /** The first entry of the list is offered the signal, and popped. */
    method ServeFront(ghost ws: set<Waiter>, ghost goal: Outcome<Waiter>) returns (taken: bool)
      requires RegisteredWaits != [] && Serving(Values(ws), RegisteredWaits, goal)
      modifies this`RegisteredWaits, ws
      ensures taken ==> goal == Outcome(Values(ws), RegisteredWaits, false)
      ensures !taken ==> Serving(Values(ws), RegisteredWaits, goal) && |RegisteredWaits| < old(|RegisteredWaits|)
    {
      var i := RegisteredWaits[0];
      assert RegisteredWaits == [i] + RegisteredWaits[1..];
      ServeStep(Values(ws), i, RegisteredWaits[1..], goal);
      ValueOf(ws, i.waiter);
      hide Serving, Values, Discard, Grant;
      taken := i.waiter.Offer(i.index, ws);
      RegisteredWaits := RegisteredWaits[1..];
    }

    method SetManualReset(ghost ws: set<Waiter>)
      requires !AutoReset && State && Backed(Values(ws), RegisteredWaits)
      modifies this`RegisteredWaits, ws
      ensures var o := SetManual(old(Values(ws)), old(RegisteredWaits));
        o.state && RegisteredWaits == o.waits && Values(ws) == o.records
    {
      ghost var goal := SetManual(Values(ws), RegisteredWaits);
      var i := 0;
      WholeSlice(RegisteredWaits);
      assert Telling(Values(ws), RegisteredWaits, goal);
      hide Backed, SetManual, Telling, Values;
      while i < |RegisteredWaits|
        invariant 0 <= i <= |RegisteredWaits| && Telling(Values(ws), RegisteredWaits[i..], goal)
      {
        HeadAndRest(RegisteredWaits, i);
        TellOne(RegisteredWaits[i], RegisteredWaits[i + 1..], goal, ws);
        i := i + 1;
      }
      AllTold(Values(ws), goal);
      RegisteredWaits := [];
    }

    /** A manual-reset SetEvent offers the signal to entry n, with `rest` to go. */
    static method TellOne(n: Info<Waiter>, ghost rest: seq<Info<Waiter>>, ghost goal: Outcome<Waiter>,
                          ghost ws: set<Waiter>)
      requires Telling(Values(ws), [n] + rest, goal)
      modifies ws
      ensures Telling(Values(ws), rest, goal)
    {
      TellStep(Values(ws), n, rest, goal);
      ValueOf(ws, n.waiter);
      hide Telling, Values, Discard, Grant;
      var taken := n.waiter.Offer(n.index, ws);
    }

    /** remove_if looks at entry n, having kept `kept` and with `rest` to go. */
    static method Examine(n: Info<Waiter>, ghost kept: seq<Info<Waiter>>, ghost rest: seq<Info<Waiter>>,
                          busy: set<Waiter>,
                          ghost goal: (map<Waiter, Wfmo>, seq<Info<Waiter>>), ghost ws: set<Waiter>)
      returns (remove: bool)
      requires Sweeping(Values(ws), kept, [n] + rest, busy, goal)
      modifies ws
      ensures Sweeping(Values(ws), if remove then kept else kept + [n], rest, busy, goal)
    {
      SweepStep(Values(ws), kept, n, rest, busy, goal);
      ValueOf(ws, n.waiter);
      hide Sweeping, Values, Discard;
      remove := n.waiter.RemoveExpired(n.waiter in busy, ws);
    }

    /** std::remove_if with RemoveExpiredWaitHelper: compacts the entries that stay
        and returns their number.  A wait in busy is locked by another thread. */
    method RemoveIf(busy: set<Waiter>, ghost ws: set<Waiter>) returns (result: nat)
      requires Backed(Values(ws), RegisteredWaits)
      modifies this`RegisteredWaits, ws
      ensures result <= |RegisteredWaits|
      ensures (Values(ws), RegisteredWaits[..result]) == Sweep(old(Values(ws)), old(RegisteredWaits), busy)
    {
      ghost var goal := Sweep(Values(ws), RegisteredWaits, busy);
      SweepStarts(Values(ws), RegisteredWaits, busy);
      hide Backed, Sweep, Sweeping, Values;
      var first := 0;
      result := 0;
      ghost var kept: seq<Info<Waiter>> := [];
      WholeSlice(RegisteredWaits);
      while first < |RegisteredWaits|
        invariant result <= first <= |RegisteredWaits| && kept == RegisteredWaits[..result]
        invariant Sweeping(Values(ws), kept, RegisteredWaits[first..], busy, goal)
      {
        var n := RegisteredWaits[first];
        ghost var rest := RegisteredWaits[first + 1..];
        HeadAndRest(RegisteredWaits, first);
        var remove := Examine(n, kept, rest, busy, goal, ws);
        first := first + 1;
        if !remove {
          kept := kept + [n];
          result := PutBack(n, result, first);
        }
      }
      WholeSlice(RegisteredWaits);
      SweepEnds(Values(ws), kept, busy, goal);
    }

    /** *result++ = n, where the entries from `first` on have not been looked at yet. */
    method PutBack(n: Info<Waiter>, result: nat, ghost first: nat) returns (next: nat)
      requires result < first <= |RegisteredWaits|
      modifies this`RegisteredWaits
      ensures next == result + 1 && |RegisteredWaits| == old(|RegisteredWaits|)
      ensures RegisteredWaits[..next] == old(RegisteredWaits[..result]) + [n]
      ensures RegisteredWaits[first..] == old(RegisteredWaits[first..])
    {
      RegisteredWaits := RegisteredWaits[result := n];
      next := result + 1;
    }

    /** RegisteredWaits.erase(remove_if(...), end) */
    method RemoveExpiredWaits(busy: set<Waiter>, ghost es: set<Event>, ghost ws: set<Waiter>)
      requires this in es && Backed(Values(ws), RegisteredWaits)
      modifies this`RegisteredWaits, ws
      ensures (Values(ws), RegisteredWaits) == Sweep(old(Values(ws)), old(RegisteredWaits), busy)
      ensures Shapes(es) == old(Shapes(es))[this := Shape(AutoReset, State, RegisteredWaits)]
    {
      hide Backed, Sweep, Values;
      var end := RemoveIf(busy, ws);
      RegisteredWaits := RegisteredWaits[..end];
    }
  }

  ghost function WorldOf(es: set<Event>, ws: set<Waiter>): World<Event, Waiter>
    reads es, ws
  {
    World(Shapes(es), Values(ws))
  }

  lemma RoundIs(g: World<Event, Waiter>, w: Waiter, e: Event, i: nat, busy: set<Waiter>, m: map<Waiter, Wfmo>,
                kept: seq<Info<Waiter>>)
    requires WorldBacked(g) && e in g.events && w in g.records
    requires (m, kept) == Sweep(g.records, g.events[e].waits, busy + {w})
    ensures w in m && m[w] == g.records[w]
    ensures var ev := g.events[e];
      var h: map<Event, Shape<Waiter>> := g.events[e := Shape(ev.autoReset, ev.state, kept)];
      Round(g, w, e, i, busy) ==
        if ev.state then World(h[e := Shape(ev.autoReset, !ev.autoReset, kept)], m[w := Take(m[w], i)])
        else World(h[e := Shape(ev.autoReset, false, kept + [Info(w, i)])], m[w := Enlist(m[w])])
  {
    SweepMeaning(g.records, g.events[e].waits, busy + {w});
    var h: map<Event, Shape<Waiter>> := g.events[e := Shape(g.events[e].autoReset, g.events[e].state, kept)];
    assert forall ev: Shape<Waiter> {:trigger h[e := ev]} :: h[e := ev] == g.events[e := ev];
  }

  lemma ValueAt(es: set<Event>, ws: set<Waiter>, w: Waiter)
    requires w in WorldOf(es, ws).records
    ensures w in ws && WorldOf(es, ws).records[w] == w.Value()
  {
  }

  lemma ShapeAt(es: set<Event>, ws: set<Waiter>, e: Event)
    requires e in WorldOf(es, ws).events
    ensures e in es && WorldOf(es, ws).events[e] == Shape(e.AutoReset, e.State, e.RegisteredWaits)
  {
  }

  lemma ShapeOf(es: set<Event>, e: Event)
    requires e in es
    ensures e in Shapes(es) && Shapes(es)[e] == Shape(e.AutoReset, e.State, e.RegisteredWaits)
  {
  }

  /** The list of e has been cleaned up: consume e or join its list. */
  method Settle(w: Waiter, e: Event, i: nat, ghost es: set<Event>, ghost ws: set<Waiter>) returns (consumed: bool)
    requires e in es && w in ws && (w.WaitAll ==> w.Status >= 1)
    modifies e`State, e`RegisteredWaits, w`Status, w`RefCount
    ensures consumed == old(e.State)
    ensures consumed ==> WorldOf(es, ws) == World(
      old(Shapes(es))[e := Shape(e.AutoReset, !e.AutoReset, old(e.RegisteredWaits))],
      old(Values(ws))[w := Take(old(w.Value()), i)])
    ensures !consumed ==> WorldOf(es, ws) == World(
      old(Shapes(es))[e := Shape(e.AutoReset, false, old(e.RegisteredWaits) + [Info(w, i)])],
      old(Values(ws))[w := Enlist(old(w.Value()))])
  {
    hide Values, Shapes, Take, Enlist;
    consumed := e.Admit(Info(w, i), es);
    if consumed {
      w.Consume(i, ws);
    } else {
      w.AddReference(ws);
    }
  }

  /** A round of registration. */
  method RegisterOne(w: Waiter, e: Event, i: nat, busy: set<Waiter>, ghost es: set<Event>, ghost ws: set<Waiter>)
    returns (consumed: bool)
    requires e in es && w in ws && WorldBacked(WorldOf(es, ws)) && (w.WaitAll ==> w.Status >= 1)
    modifies e`State, e`RegisteredWaits, ws
    ensures WorldOf(es, ws) == Round(old(WorldOf(es, ws)), w, e, i, busy)
    ensures consumed == old(e.State) && w.WaitAll == old(w.WaitAll)
  {
    ghost var g := WorldOf(es, ws);
    assert w in g.records;
    ShapeOf(es, e);
    ValueOf(ws, w);
    BackedOne(g, e);
    hide WorldBacked, Backed, Round, Sweep, Values, Shapes, Take, Enlist;
    e.RemoveExpiredWaits(busy + {w}, es, ws);
    RoundIs(g, w, e, i, busy, Values(ws), e.RegisteredWaits);
    ValueOf(ws, w);
    consumed := Settle(w, e, i, es, ws);
  }

  /** Round i of the registration loop that will end in goal. */
  method RegisterNext(w: Waiter, events: seq<Event>, i: nat, busy: set<Waiter>, ghost goal: (World<Event, Waiter>, int),
                      ghost es: set<Event>, ghost ws: set<Waiter>) returns (consumed: bool)
    requires i < |events| && Underway(WorldOf(es, ws), w, events, i, busy, goal)
    modifies es, ws
    ensures w in ws
    ensures if consumed && !w.WaitAll then goal == (WorldOf(es, ws), i) && WorldBacked(goal.0)
            else Underway(WorldOf(es, ws), w, events, i + 1, busy, goal)
  {
    UnderwayStep(WorldOf(es, ws), w, events, i, busy, goal);
    ValueAt(es, ws, w);
    ShapeAt(es, ws, events[i]);
    hide Underway, WorldOf, WorldBacked, Rounds, Round;
    consumed := RegisterOne(w, events[i], i, busy, es, ws);
  }

  /** The registration loop of WaitForMultipleEvents: the index of the event that
      a wait-any has consumed, or -1. */
  method Register(w: Waiter, events: seq<Event>, busy: set<Waiter>, ghost es: set<Event>, ghost ws: set<Waiter>)
    returns (waitIndex: int)
    requires (forall e | e in events :: e in es) && w in ws && Registering(WorldOf(es, ws), w, |events|)
    modifies es, ws
    ensures (WorldOf(es, ws), waitIndex) == Rounds(old(WorldOf(es, ws)), w, events, 0, busy)
    ensures WorldBacked(WorldOf(es, ws))
  {
    ghost var g := WorldOf(es, ws);
    ghost var goal := Rounds(g, w, events, 0, busy);
    assert Underway(g, w, events, 0, busy, goal);
    waitIndex := -1;
    var i := 0;
    hide Underway, WorldOf, WorldBacked, Rounds, Round;
    while i < |events|
      invariant 0 <= i <= |events| && Underway(WorldOf(es, ws), w, events, i, busy, goal)
    {
      var consumed := RegisterNext(w, events, i, busy, goal, es, ws);
      if consumed && !w.WaitAll {
        waitIndex := i;
        return;
      }
      i := i + 1;
    }
    UnderwayEnds(WorldOf(es, ws), w, events, busy, goal);
  }

  method NewWait(count: nat, waitAll: bool, ghost es: set<Event>, ghost ws: set<Waiter>) returns (w: Waiter)
    requires WorldBacked(WorldOf(es, ws))
    ensures fresh(w) && Registering(WorldOf(es, ws + {w}), w, count)
    ensures WorldOf(es, ws + {w}) == World(Shapes(es), Values(ws)[w := Open(count, waitAll)])
  {
    ghost var g := WorldOf(es, ws);
    w := new Waiter(count, waitAll);
    NewWaitBacked(g, w, count, waitAll);
    ghost var h := WorldOf(es, ws + {w});
    assert h == World(g.events, g.records[w := Open(count, waitAll)]);
  }

  /** The end of WaitForMultipleEvents. */
  method Finish(w: Waiter, ghost es: set<Event>, ghost ws: set<Waiter>) returns (waitIndex: int)
    requires w in WorldOf(es, ws).records && WorldOf(es, ws).records[w].refCount >= 1
    modifies w
    ensures var h := old(WorldOf(es, ws));
      && waitIndex == h.records[w].status
      && WorldOf(es, ws) == World(h.events, h.records[w := Close(h.records[w])])
  {
    ValueAt(es, ws, w);
    hide Values;
    waitIndex := w.Leave(ws);
  }

  /** WaitForMultipleEvents with 0 milliseconds, from end to end. */
  method PollMultiple(events: seq<Event>, waitAll: bool, busy: set<Waiter>, ghost es: set<Event>, ghost ws: set<Waiter>)
    returns (timedOut: bool, waitIndex: int, w: Waiter)
    requires (forall e | e in events :: e in es) && WorldBacked(WorldOf(es, ws))
    modifies es, ws
    ensures fresh(w)
    ensures var g := World(old(Shapes(es)), old(Values(ws))[w := Open(|events|, waitAll)]);
      && Registering(g, w, |events|)
      && var (h, k) := Rounds(g, w, events, 0, busy);
         && w in h.records && waitIndex == h.records[w].status && timedOut == (k == -1)
         && WorldOf(es, ws + {w}) == World(h.events, h.records[w := Close(h.records[w])])
  {
    assert WorldOf(es, ws).events.Keys == es;
    w := NewWait(|events|, waitAll, es, ws);
    ghost var all := ws + {w};
    assert w in WorldOf(es, all).records && old(WorldOf(es, ws)) == World(old(Shapes(es)), old(Values(ws)));
    hide WorldBacked, Rounds, Closed, Shapes, Values, Registering, WorldOf;
    StillIn(WorldOf(es, all), w, events, busy);
    var k := Register(w, events, busy, es, all);
    timedOut := k == -1;
    waitIndex := Finish(w, es, all);
  }

  lemma StillIn(g: World<Event, Waiter>, w: Waiter, events: seq<Event>, busy: set<Waiter>)
    requires Registering(g, w, |events|) && forall e | e in events :: e in g.events
    ensures w in Rounds(g, w, events, 0, busy).0.records
    ensures Rounds(g, w, events, 0, busy).0.records[w].refCount >= 1
  {
    RoundsRecord(g, w, events, 0, busy);
  }
}
