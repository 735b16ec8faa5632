/** For which calls of WaitForMultipleEvents the result code does not tell what was consumed. */
module Race {
  import opened Records
  import opened Protocol
  import opened Invariant
  import opened Runs
  import opened Scenes
  import Safety

  /** The call has reported a time-out, and its waitIndex says that it has got
      what it waited for all the same: a wait-any one of its events, a wait-all every one. */
  predicate Misled(s: State, t: nat, c: Call) {
    && t in s.threads && s.threads[t].Returned? && s.threads[t].timedOut
    && s.threads[t].w < |s.waiters|
    && var v := s.waiters[s.threads[t].w];
       && v.events == c.es && v.limit == c.limit && v.rec.waitAll == c.waitAll
       && (if c.waitAll then s.threads[t].waitIndex == 0 else s.threads[t].waitIndex != -1)
  }

  ghost predicate CanMislead(c: Call) {
    exists s, t :: Reachable(s) && Misled(s, t, c)
  }

  /** waitIndex is right: what it says has been consumed has been. */
  lemma MisledHasGot(s: State, t: nat, c: Call)
    requires Reachable(s) && Misled(s, t, c)
    ensures var v := s.waiters[s.threads[t].w];
      if c.waitAll then forall k | 0 <= k < |c.es| :: k in v.got else v.got == {s.threads[t].waitIndex}
  {
    Safety.ResultContract(s, t);
    var v := s.waiters[s.threads[t].w];
    if c.waitAll {
      ReachableOk(s);
      assert PcOk(s, t) && WaiterOk(s, s.threads[t].w);
      Safety.BelowBound(v.got, |v.events|);
    }
  }

  // ----------------------------------------------------- a late signal

  /** A call with a finite limit is given all it waits for, and then times out. */
  lemma LateSignal(c: Call) returns (s: State)
    requires c.es != [] && c.limit == Finite
    ensures Reachable(s) && Misled(s, 0, c)
  {
    hide ReachableBy, Scene, Handed, Misled;
    var n := if c.waitAll then |c.es| - 1 else 0;
    s := FallsAsleep(Free, c);
    if c.waitAll { s := GivesMost(Free, s, c, 0, n); }
    SpanHead(c.es, n);
    s := Gives(Free, s, c, n, n, c.es[n]);
    s := TimesOut(s, c, n);
    ByReachable(Free, s);
  }

  lemma SpanHead(es: seq<nat>, k: nat)
    requires k < |es|
    ensures Span(es, es[k], k, |es|) != [] && Span(es, es[k], k, |es|)[0] == Entry(0, k)
  {
  }

  lemma TimesOut(s: State, c: Call, n: nat) returns (s': State)
    requires ReachableBy(Free, s) && n < |c.es| && Handed(s, c, n, n, c.es[n]) && c.limit == Finite
    requires c.waitAll ==> n == |c.es| - 1
    ensures ReachableBy(Free, s') && Misled(s', 0, c)
  {
    HandedAlone(s, c, n, n, c.es[n]);
    s' := LeavesLate(Free, s, HandOver(c.es[n], 0), Idle);
    hide ReachableBy, Lists;
  }

  // ------------------------------------- a wait-all with 0 milliseconds

  // Every event of the call is signalled, and stays so: manual reset.
  ghost predicate Taking(s: State, c: Call, i: nat, p: Pc) {
    && i <= |c.es| && s.threads == Crew(p, Idle, Idle) && |s.waiters| == 1 && Waits(s.waiters[0], c, i)
    && s.waiters[0].owner == Some(0) && c.waitAll
    && forall e {:trigger e in s.events} | e in c.es :: e in s.events && Available(s.events[e], None)
  }

  predicate Available(ev: Event, owner: Option<nat>) {
    !ev.autoReset && ev.state && ev.waits == [] && ev.fired == 0 && ev.owner == owner
  }

  lemma Starts(c: Call) returns (s: State)
    requires c.waitAll
    ensures ReachableBy(Free, s) && Taking(s, c, 0, Register(0, 0))
  {
    var s0 := State(Crew(Idle, Idle, Idle), map e | e in c.es :: Created(false, true), []);
    Begins(Free, s0);
    StepBy(Free, s0, 0, BeginWait(c.es, true, c.limit));
    s := Next(s0, 0, BeginWait(c.es, true, c.limit));
  }

  lemma TakesOne(s: State, c: Call, i: nat)
    requires Taking(s, c, i, Register(0, i)) && i < |c.es|
    ensures Enabled(s, 0, Go) && Enabled(Next(s, 0, Go), 0, Go)
    ensures Taking(Next(Next(s, 0, Go), 0, Go), c, i + 1, Register(0, i + 1))
  {
    var e := c.es[i];
    assert e in s.events;
    var m := GoRegister(s, 0, 0, i);
    assert PcOk(s, 0) && PcOk(m, 0);
    assert Next(s, 0, Go) == m && Next(m, 0, Go) == GoTake(m, 0, 0, i, e);
  }

  lemma {:induction false} TakesAll(s: State, c: Call, i: nat) returns (s': State)
    requires ReachableBy(Free, s) && Taking(s, c, i, Register(0, i))
    ensures ReachableBy(Free, s') && Taking(s', c, |c.es|, Register(0, |c.es|))
    decreases |c.es| - i
  {
    hide ReachableBy, Enabled, Next;
    if i == |c.es| {
      s' := s;
    } else {
      TakesOne(s, c, i);
      hide Taking;
      StepBy(Free, s, 0, Go);
      var m := Next(s, 0, Go);
      StepBy(Free, m, 0, Go);
      s' := TakesAll(Next(m, 0, Go), c, i + 1);
    }
  }

  /** A wait-all with 0 milliseconds takes every event of its array, and reports a time-out. */
  lemma ZeroTakesAll(c: Call) returns (s: State)
    requires c.waitAll && c.limit == Zero
    ensures Reachable(s) && Misled(s, 0, c)
  {
    var m := Starts(c);
    m := TakesAll(m, c, 0);
    var k := Refused(m, c);
    s := Finishes(Free, k, true, Idle, Idle);
    ByReachable(Free, s);
    hide ReachableBy, Reachable, Taking;
  }

  lemma Refused(s: State, c: Call) returns (s': State)
    requires ReachableBy(Free, s) && Taking(s, c, |c.es|, Register(0, |c.es|)) && c.limit == Zero
    ensures ReachableBy(Free, s') && Alone(s', Finish(0, true), Idle, Idle)
    ensures s'.waiters == s.waiters && |s.waiters| == 1 && Waits(s.waiters[0], c, |c.es|)
  {
    assert PcOk(s, 0);
    StepBy(Free, s, 0, Go);
    s' := Next(s, 0, Go);
    assert s'.threads == Crew(Finish(0, true), Idle, Idle);
    hide ReachableBy;
  }

  /** A call on some events can report a time-out and have got what it waited for
      if and only if its limit is finite, or is 0 and it is a wait-all. */
  lemma MisleadsIff(c: Call)
    requires c.es != []
    ensures CanMislead(c) <==> c.limit == Finite || (c.limit == Zero && c.waitAll)
  {
    hide Reachable;
    if s, t :| Reachable(s) && Misled(s, t, c) { Safety.ResultContract(s, t); }
    if c.limit == Finite { var s := LateSignal(c); }
    if c.limit == Zero && c.waitAll { var s := ZeroTakesAll(c); }
  }
}
