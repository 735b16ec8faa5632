/** Runs of one multi-wait, by thread 0, on events that threads 1 and 2 set. */
module Scenes {
  import opened Records
  import opened Protocol
  import opened Invariant
  import opened Runs

  /** The entries of wait 0 for e, from position lo up to hi of its array. */
  function Span(es: seq<nat>, e: nat, lo: nat, hi: nat): seq<Entry>
    requires lo <= hi <= |es|
    decreases hi - lo
  {
    if lo == hi then []
    else (if es[lo] == e then [Entry(0, lo)] else []) + Span(es, e, lo + 1, hi)
  }

  lemma {:induction false} SpanGrows(es: seq<nat>, e: nat, lo: nat, hi: nat)
    requires lo <= hi < |es|
    ensures Span(es, e, lo, hi + 1) == Span(es, e, lo, hi) + if es[hi] == e then [Entry(0, hi)] else []
    decreases hi - lo
  {
    if lo < hi { SpanGrows(es, e, lo + 1, hi); }
  }

  lemma {:induction false} SpanOwn(es: seq<nat>, e: nat, lo: nat, hi: nat)
    requires lo <= hi <= |es|
    ensures forall n | n in Span(es, e, lo, hi) :: n.waiter == 0 && lo <= n.index < hi && es[n.index] == e
    ensures (forall k | lo <= k < hi :: es[k] != e) ==> Span(es, e, lo, hi) == []
    decreases hi - lo
  {
    if lo < hi { SpanOwn(es, e, lo + 1, hi); }
  }

  /** One call of WaitForMultipleEvents. */
  datatype Call = Call(es: seq<nat>, waitAll: bool, limit: Limit)

  function Crew(p: Pc, q: Pc, r: Pc): map<nat, Pc> {
    map[0 := p, 1 := q, 2 := r]
  }

  /** A free, unsignalled auto-reset event with these entries. */
  predicate Quiet(ev: Event, waits: seq<Entry>) {
    ev.autoReset && !ev.state && ev.fired == 0 && ev.owner == None && ev.waits == waits
  }

  /** Every event of the call is quiet and lists positions lo up to hi, but for event x. */
  ghost predicate Lists(events: map<nat, Event>, es: seq<nat>, lo: nat, hi: nat, x: Option<nat>)
    requires lo <= hi <= |es|
  {
    forall e {:trigger e in events} | e in es :: e in events && (Some(e) != x ==> Quiet(events[e], Span(es, e, lo, hi)))
  }

  /** The wait of the call, as long as it still waits: the first lo of its events have been given to it. */
  predicate Waits(v: Waiter, c: Call, lo: nat) {
    && v.thread == 0 && v.events == c.es && v.limit == c.limit && v.rec.waitAll == c.waitAll && v.rec.stillWaiting
    && v.rec.status == if c.waitAll then |c.es| - lo else -1
  }

  /** Thread 0 is at p in its call, listed for positions lo up to hi; the others are idle. */
  ghost predicate Scene(s: State, c: Call, lo: nat, hi: nat, p: Pc) {
    && lo <= hi <= |c.es| && (lo == 0 || c.waitAll)
    && s.threads == Crew(p, Idle, Idle) && |s.waiters| == 1 && Waits(s.waiters[0], c, lo)
    && s.waiters[0].owner == (if p.Asleep? then None else Some(0))
    && Lists(s.events, c.es, lo, hi, None)
  }

  // ------------------------------------------------------- registration

  ghost function Start(es: seq<nat>): State {
    State(Crew(Idle, Idle, Idle), map e | e in es :: Created(true, false), [])
  }

  lemma StartIs(c: Call)
    ensures Initial(Start(c.es)) && Enabled(Start(c.es), 0, BeginWait(c.es, c.waitAll, c.limit))
    ensures Next(Start(c.es), 0, BeginWait(c.es, c.waitAll, c.limit)) == Entered(c)
  {
  }

  ghost function Entered(c: Call): State {
    BeginWaiting(Start(c.es), 0, c.es, c.waitAll, c.limit)
  }

  lemma EnteredScene(c: Call)
    ensures Scene(Entered(c), c, 0, 0, Register(0, 0))
  {
    forall e | e in c.es ensures Span(c.es, e, 0, 0) == [] {}
    assert Entered(c).threads == Crew(Register(0, 0), Idle, Idle);
  }

  lemma Enters(rule: Rule, c: Call) returns (s: State)
    ensures ReachableBy(rule, s) && Scene(s, c, 0, 0, Register(0, 0))
  {
    s := Entered(c);
    StartIs(c);
    EnteredScene(c);
    hide ReachableBy, Scene, Initial, Enabled, Next;
    Begins(rule, Start(c.es));
    StepBy(rule, Start(c.es), 0, BeginWait(c.es, c.waitAll, c.limit));
  }

  // Event e of position i is locked, and the clean-up is at entry j.
  ghost predicate Cleaned(s: State, c: Call, i: nat, e: nat, j: nat) {
    && i < |c.es| && e == c.es[i] && e in s.events
    && s.threads == Crew(Clean(0, i, e, j), Idle, Idle) && |s.waiters| == 1 && Waits(s.waiters[0], c, 0)
    && s.waiters[0].owner == Some(0)
    && Lists(s.events, c.es, 0, i, Some(e))
    && s.events[e].owner == Some(0)
    && Quiet(s.events[e].(owner := None), Span(c.es, e, 0, i)) && j <= |s.events[e].waits|
  }

  lemma Locks(rule: Rule, s: State, c: Call, i: nat) returns (s': State)
    requires ReachableBy(rule, s) && Scene(s, c, 0, i, Register(0, i)) && i < |c.es|
    ensures ReachableBy(rule, s') && Cleaned(s', c, i, c.es[i], 0)
  {
    hide ReachableBy, Span;
    assert PcOk(s, 0);
    StepBy(rule, s, 0, Go);
    s' := Next(s, 0, Go);
    assert s'.threads == Crew(Clean(0, i, c.es[i], 0), Idle, Idle);
  }

  lemma CleanedIn(s: State, c: Call, i: nat, e: nat, j: nat)
    requires Cleaned(s, c, i, e, j)
    ensures e in s.events && j <= |s.events[e].waits| && forall n | n in s.events[e].waits :: n.waiter == 0
    ensures Enabled(s, 0, Go) && s.threads[0] == Clean(0, i, e, j) && !s.events[e].state
    ensures |s.waiters| == 1 && s.waiters[0].owner.Some?
  {
    SpanOwn(c.es, e, 0, i);
    hide Span;
  }

  // The wait's own entries are busy.
  lemma {:induction false} Skips(rule: Rule, s: State, c: Call, i: nat, e: nat, j: nat) returns (s': State, k: nat)
    requires ReachableBy(rule, s) && Cleaned(s, c, i, e, j)
    ensures ReachableBy(rule, s') && Cleaned(s', c, i, e, k) && e in s'.events && k == |s'.events[e].waits|
    decreases e in s.events, if e in s.events then |s.events[e].waits| - j else 0
  {
    hide Cleaned, ReachableBy, Enabled, Next;
    CleanedIn(s, c, i, e, j);
    if j == |s.events[e].waits| {
      s', k := s, j;
    } else {
      OneSkip(s, c, i, e, j);
      StepBy(rule, s, 0, Go);
      s', k := Skips(rule, Next(s, 0, Go), c, i, e, j + 1);
    }
  }

  lemma OneSkip(s: State, c: Call, i: nat, e: nat, j: nat)
    requires Cleaned(s, c, i, e, j) && e in s.events && j < |s.events[e].waits|
    ensures Enabled(s, 0, Go) && Cleaned(Next(s, 0, Go), c, i, e, j + 1) && Next(s, 0, Go).events == s.events
    ensures Allowed(NoSpurious, s, 0, Go)
  {
    CleanedIn(s, c, i, e, j);
    assert s.events[e].waits[j] in s.events[e].waits;
    hide Span, PcOk;
  }

  lemma JoinsScene(s: State, c: Call, i: nat, e: nat)
    requires e in s.events && Cleaned(s, c, i, e, |s.events[e].waits|)
    ensures Scene(GoEnlist(s, 0, 0, i, e), c, 0, i + 1, Register(0, i + 1))
  {
    var s' := GoEnlist(s, 0, 0, i, e);
    forall f | f in c.es ensures f in s'.events && Quiet(s'.events[f], Span(c.es, f, 0, i + 1)) {
      SpanGrows(c.es, f, 0, i);
      hide Span;
    }
    hide Span;
  }

  lemma {:induction false} RegistersAll(rule: Rule, s: State, c: Call, i: nat) returns (s': State)
    requires ReachableBy(rule, s) && Scene(s, c, 0, i, Register(0, i))
    ensures ReachableBy(rule, s') && Scene(s', c, 0, |c.es|, Register(0, |c.es|))
    decreases |c.es| - i
  {
    if i == |c.es| {
      s' := s;
    } else {
      hide Scene, Cleaned, ReachableBy;
      assert i <= |c.es| by { InBounds(s, c, i); }
      var e := c.es[i];
      var m := Locks(rule, s, c, i);
      var k;
      m, k := Skips(rule, m, c, i, e, 0);
      CleanedIn(m, c, i, e, k);
      JoinsScene(m, c, i, e);
      StepBy(rule, m, 0, Go);
      s' := RegistersAll(rule, GoEnlist(m, 0, 0, i, e), c, i + 1);
    }
  }

  lemma InBounds(s: State, c: Call, i: nat)
    requires Scene(s, c, 0, i, Register(0, i))
    ensures i <= |c.es|
  {
  }

  /** A call on some events that may sleep gets to sleep, listed everywhere. */
  lemma FallsAsleep(rule: Rule, c: Call) returns (s: State)
    requires c.limit != Zero && c.es != []
    ensures ReachableBy(rule, s) && Scene(s, c, 0, |c.es|, Asleep(0)) && !s.waiters[0].rec.notified
  {
    var m := Enters(rule, c);
    m := RegistersAll(rule, m, c, 0);
    ToCheck(m, c);
    hide ReachableBy, Scene, Next, Enabled;
    StepBy(rule, m, 0, Go);
    s := Sleeps(rule, Next(m, 0, Go), c);
  }

  lemma ToCheck(s: State, c: Call)
    requires Scene(s, c, 0, |c.es|, Register(0, |c.es|)) && c.limit != Zero
    ensures Enabled(s, 0, Go) && Scene(Next(s, 0, Go), c, 0, |c.es|, Check(0))
  {
    hide Span;
    assert Next(s, 0, Go).threads == Crew(Check(0), Idle, Idle);
  }

  lemma Sleeps(rule: Rule, s: State, c: Call) returns (s': State)
    requires ReachableBy(rule, s) && Scene(s, c, 0, |c.es|, Check(0)) && c.es != []
    ensures ReachableBy(rule, s') && Scene(s', c, 0, |c.es|, Asleep(0)) && !s'.waiters[0].rec.notified
  {
    hide ReachableBy, Span;
    StepBy(rule, s, 0, Go);
    s' := Next(s, 0, Go);
    assert s'.threads == Crew(Asleep(0), Idle, Idle);
  }

  // ----------------------------------------------------------- SetEvent

  // Thread 1 is setting x while the wait sleeps.
  ghost predicate Raised(s: State, c: Call, lo: nat, x: nat, p: Pc, held: bool) {
    && lo <= |c.es| && (lo == 0 || c.waitAll) && x in s.events
    && s.threads == Crew(Asleep(0), p, Idle) && |s.waiters| == 1 && Waits(s.waiters[0], c, lo)
    && s.waiters[0].owner == (if held then Some(1) else None)
    && Lists(s.events, c.es, lo, |c.es|, Some(x))
    && s.events[x].autoReset && s.events[x].state && s.events[x].fired == 0 && s.events[x].owner == Some(1)
    && s.events[x].waits == Span(c.es, x, lo, |c.es|)
  }

  /** Thread 1 has given the wait its k-th event x, and is about to signal it. */
  ghost predicate Handed(s: State, c: Call, lo: nat, k: nat, x: nat) {
    && lo <= |c.es| && x in s.events
    && s.threads == Crew(Asleep(0), HandOver(x, 0), Idle) && |s.waiters| == 1 && Got(s.waiters[0], c, lo, k)
    && Lists(s.events, c.es, lo, |c.es|, Some(x))
    && s.events[x].owner == Some(1)
    && Span(c.es, x, lo, |c.es|) != [] && Span(c.es, x, lo, |c.es|)[0] == Entry(0, k)
    && Quiet(s.events[x].(owner := None), Span(c.es, x, lo, |c.es|)[1..])
  }

  /** The wait after it has been given its k-th event, and lo others before. */
  predicate Got(v: Waiter, c: Call, lo: nat, k: nat) {
    && v.thread == 0 && v.events == c.es && v.limit == c.limit && v.rec.waitAll == c.waitAll && v.owner == None
    && v.rec.stillWaiting == c.waitAll && v.rec.status == if c.waitAll then |c.es| - lo - 1 else k
  }

  lemma Raises(rule: Rule, s: State, c: Call, lo: nat, x: nat) returns (s': State)
    requires ReachableBy(rule, s) && Scene(s, c, lo, |c.es|, Asleep(0)) && x in c.es
    ensures ReachableBy(rule, s') && Raised(s', c, lo, x, SetLoop(x, false), false)
    ensures s'.waiters == s.waiters
  {
    hide ReachableBy, Span;
    assert x in s.events;
    StepBy(rule, s, 1, BeginSet(x));
    var m := Move(s, 1, SetLock(x));
    StepBy(rule, m, 1, Go);
    s' := GoSetLock(m, 1, x);
  }

  lemma HoldsHead(s: State, c: Call, lo: nat, x: nat)
    requires Raised(s, c, lo, x, SetLoop(x, false), false) && Span(c.es, x, lo, |c.es|) != []
    ensures Enabled(s, 1, Go) && Raised(Next(s, 1, Go), c, lo, x, SetHold(x, false, 0), true)
    ensures Next(s, 1, Go).waiters[0].rec == s.waiters[0].rec
  {
    SpanOwn(c.es, x, lo, |c.es|);
    assert s.events[x].waits[0] in s.events[x].waits;
    hide Span;
  }

  lemma HeldEnabled(s: State, c: Call, lo: nat, x: nat)
    requires Raised(s, c, lo, x, SetHold(x, false, 0), true) && Span(c.es, x, lo, |c.es|) != []
    ensures Enabled(s, 1, Go) && Next(s, 1, Go) == GoSetHold(s, 1, x, false, 0)
  {
    SpanOwn(c.es, x, lo, |c.es|);
    assert s.events[x].waits[0] in s.events[x].waits;
    hide Span, GoSetHold, Lists;
  }

  lemma GivesHead(s: State, c: Call, lo: nat, k: nat, x: nat)
    requires Raised(s, c, lo, x, SetHold(x, false, 0), true)
    requires Span(c.es, x, lo, |c.es|) != [] && Span(c.es, x, lo, |c.es|)[0] == Entry(0, k)
    ensures Enabled(s, 1, Go) && Handed(Next(s, 1, Go), c, lo, k, x)
    ensures Next(s, 1, Go).waiters[0].rec.notified == s.waiters[0].rec.notified
  {
    HeldEnabled(s, c, lo, x);
    hide Span, Next, Enabled, PcOk;
    var s' := GoSetHold(s, 1, x, false, 0);
    assert s'.events[x].waits == s.events[x].waits[1..];
    assert s'.threads == Crew(Asleep(0), HandOver(x, 0), Idle);
    ListsBut(s.events, s'.events, c.es, lo, |c.es|, x);
    hide Lists;
  }

  lemma ListsBut(evs: map<nat, Event>, evs': map<nat, Event>, es: seq<nat>, lo: nat, hi: nat, x: nat)
    requires lo <= hi <= |es| && Lists(evs, es, lo, hi, Some(x))
    requires evs'.Keys == evs.Keys && forall e | e in evs && e != x :: evs'[e] == evs[e]
    ensures Lists(evs', es, lo, hi, Some(x))
  {
  }

  /** SetEvent on x up to the point where its signal is to be sent. */
  lemma Gives(rule: Rule, s: State, c: Call, lo: nat, k: nat, x: nat) returns (s': State)
    requires ReachableBy(rule, s) && Scene(s, c, lo, |c.es|, Asleep(0)) && x in c.es
    requires Span(c.es, x, lo, |c.es|) != [] && Span(c.es, x, lo, |c.es|)[0] == Entry(0, k)
    ensures ReachableBy(rule, s') && Handed(s', c, lo, k, x)
    ensures s'.waiters[0].rec.notified == s.waiters[0].rec.notified
  {
    var m := Raises(rule, s, c, lo, x);
    HoldsHead(m, c, lo, x);
    StepBy(rule, m, 1, Go);
    var h := Next(m, 1, Go);
    GivesHead(h, c, lo, k, x);
    StepBy(rule, h, 1, Go);
    s' := Next(h, 1, Go);
    hide ReachableBy, Span, Raised, Next, Enabled;
  }

  /** ... and its end, for a wait-all given its next event. */
  lemma EndsSet(rule: Rule, s: State, c: Call, lo: nat) returns (s': State)
    requires ReachableBy(rule, s) && c.waitAll && lo < |c.es| && Handed(s, c, lo, lo, c.es[lo])
    ensures ReachableBy(rule, s') && Scene(s', c, lo + 1, |c.es|, Asleep(0))
    ensures |s'.waiters| == 1 && s'.waiters[0].rec.notified
  {
    StepBy(rule, s, 1, Go);
    s' := Next(s, 1, Go);
    forall e | e in c.es ensures e in s'.events && Quiet(s'.events[e], Span(c.es, e, lo + 1, |c.es|)) {}
  }

  /** A wait-all is given all its events up to the last n, one after another. */
  lemma {:induction false} GivesMost(rule: Rule, s: State, c: Call, lo: nat, n: nat) returns (s': State)
    requires ReachableBy(rule, s) && Scene(s, c, lo, |c.es|, Asleep(0)) && c.waitAll && lo <= n <= |c.es|
    ensures ReachableBy(rule, s') && Scene(s', c, n, |c.es|, Asleep(0))
    ensures lo == n ==> s' == s
    ensures lo < n ==> |s'.waiters| == 1 && s'.waiters[0].rec.notified
    decreases n - lo
  {
    hide ReachableBy, Scene, Handed;
    if lo == n {
      s' := s;
    } else {
      var m := Gives(rule, s, c, lo, lo, c.es[lo]);
      m := EndsSet(rule, m, c, lo);
      s' := GivesMost(rule, m, c, lo + 1, n);
    }
  }

  // ------------------------------------------------------- the end of the wait

  /** Thread 0 sleeps in its call, or is further on in it; the others are at q and r. */
  ghost predicate Alone(s: State, p: Pc, q: Pc, r: Pc) {
    && s.threads == Crew(p, q, r) && |s.waiters| == 1 && s.waiters[0].thread == 0
    && s.waiters[0].owner == (if p.Check? || p.Finish? then Some(0) else None)
    && forall e | e in s.waiters[0].events :: e in s.events
  }

  /** s' is s after thread 0 has left its call with this result. */
  ghost predicate Left(s: State, s': State, timedOut: bool, q: Pc, r: Pc) {
    && |s.waiters| == 1
    && Alone(s', Returned(0, timedOut, s.waiters[0].rec.status), q, r) && s'.events == s.events
    && s'.waiters[0] == s.waiters[0].(rec := Close(s.waiters[0].rec.(notified := false)))
  }

  lemma Finishes(rule: Rule, s: State, timedOut: bool, q: Pc, r: Pc) returns (s': State)
    requires ReachableBy(rule, s) && Alone(s, Finish(0, timedOut), q, r)
    ensures ReachableBy(rule, s') && Alone(s', Returned(0, timedOut, s.waiters[0].rec.status), q, r)
    ensures s'.events == s.events && s'.waiters[0] == s.waiters[0].(rec := Close(s.waiters[0].rec), owner := None)
  {
    hide ReachableBy;
    assert PcOk(s, 0);
    StepBy(rule, s, 0, Go);
    s' := Next(s, 0, Go);
  }

  /** A time-out, whatever the wait has been given by then. */
  lemma LeavesLate(rule: Rule, s: State, q: Pc, r: Pc) returns (s': State)
    requires ReachableBy(rule, s) && Alone(s, Asleep(0), q, r) && s.waiters[0].limit == Finite
    ensures ReachableBy(rule, s') && Left(s, s', true, q, r)
  {
    hide ReachableBy;
    StepBy(rule, s, 0, TimeOut);
    var m := Next(s, 0, TimeOut);
    assert m.threads == Crew(Finish(0, true), q, r);
    s' := Finishes(rule, m, true, q, r);
  }

  /** A wake-up, by a signal or without one. */
  lemma LeavesAwake(rule: Rule, s: State, q: Pc, r: Pc) returns (s': State)
    requires ReachableBy(rule, s) && Alone(s, Asleep(0), q, r) && Ready(s.waiters[0].rec)
    requires s.waiters[0].rec.notified || rule.Free?
    ensures ReachableBy(rule, s') && Left(s, s', false, q, r)
  {
    hide ReachableBy;
    assert Enabled(s, 0, Wake) && (rule.NoSpurious? ==> !Spurious(s, 0, Wake));
    StepBy(rule, s, 0, Wake);
    var m := Next(s, 0, Wake);
    assert m.threads == Crew(Check(0), q, r);
    s' := Leaves(rule, m, q, r);
  }

  lemma Leaves(rule: Rule, s: State, q: Pc, r: Pc) returns (s': State)
    requires ReachableBy(rule, s) && Alone(s, Check(0), q, r) && Ready(s.waiters[0].rec)
    ensures ReachableBy(rule, s') && Alone(s', Returned(0, false, s.waiters[0].rec.status), q, r)
    ensures s'.events == s.events && s'.waiters[0] == s.waiters[0].(rec := Close(s.waiters[0].rec), owner := None)
  {
    hide ReachableBy;
    assert PcOk(s, 0);
    StepBy(rule, s, 0, Go);
    var m := Next(s, 0, Go);
    assert m.threads == Crew(Finish(0, false), q, r);
    s' := Finishes(rule, m, false, q, r);
  }

  lemma HandedAlone(s: State, c: Call, lo: nat, k: nat, x: nat)
    requires Handed(s, c, lo, k, x)
    ensures Alone(s, Asleep(0), HandOver(x, 0), Idle)
  {
  }
}
