/** When the mutexes of the protocol can deadlock: exactly when the arrays that
    multi-waits are given order their events in a cycle. */
module Deadlock {
  import opened Records
  import opened Protocol
  import opened Invariant
  import opened Runs

  /** Threads that wait for each other's mutexes and for nobody else's. */
  ghost predicate DeadlockSet(s: State, d: set<nat>) {
    && d != {}
    && forall t | t in d :: t in s.threads && PcOk(s, t) && Blocked(s, t) && Owner(s, Wants(s, t).value).value in d
  }

  ghost predicate UsesOnly(s: State, arrays: set<seq<nat>>) {
    forall w: nat | w < |s.waiters| :: s.waiters[w].events in arrays
  }

  /** Some reachable state of some system whose multi-waits use only these arrays is deadlocked. */
  ghost predicate CanDeadlock(arrays: set<seq<nat>>) {
    exists s, d :: Reachable(s) && UsesOnly(s, arrays) && DeadlockSet(s, d)
  }

  predicate InOrder(es: seq<nat>, p: nat, q: nat, e: nat, f: nat) {
    p < q < |es| && es[p] == e && es[q] == f
  }

  /** One of the arrays has e before f. */
  ghost predicate ListsBefore(arrays: set<seq<nat>>, e: nat, f: nat) {
    exists es, p, q :: es in arrays && InOrder(es, p, q, e, f)
  }

  /** c runs round: each event is listed before the next, and the last before the first. */
  ghost predicate Cycle(arrays: set<seq<nat>>, c: seq<nat>) {
    |c| > 0 && forall j | 0 <= j < |c| :: ListsBefore(arrays, c[j], c[Succ(c, j)])
  }

  function Succ(c: seq<nat>, j: nat): nat
    requires j < |c|
  {
    if j + 1 == |c| then 0 else j + 1
  }

  // ------------------------------------------------ a deadlock has a cycle

  /** A blocked thread that owns an event is a setter; one that owns a wait is registering it. */
  lemma BlockedOwners(s: State, u: nat)
    requires Inv(s) && u in s.threads && PcOk(s, u) && Blocked(s, u)
    ensures forall e | HoldsEvent(s.threads[u], e) :: s.threads[u].SetLoop? && s.threads[u].e == e
    ensures forall w | HoldsWaiter(s.threads[u], w) :: s.threads[u].Register? && s.threads[u].w == w
  {
  }

  /** The events that a setter in d holds. */
  ghost function Held(s: State, d: set<nat>): set<nat> {
    set e | e in s.events && exists u :: u in d && u in s.threads && s.threads[u].SetLoop? && s.threads[u].e == e
  }

  // From any thread of a deadlock the owners lead to a setter within two steps.
  lemma SomeHeld(s: State, d: set<nat>)
    requires Inv(s) && DeadlockSet(s, d)
    ensures Held(s, d) != {}
  {
    var t :| t in d;
    var m := Wants(s, t).value;
    var u := Owner(s, m).value;
    match m
    case OfEvent(e) => OwnedEventHeld(s, d, e);
    case OfWaiter(w) =>
      assert WaiterOk(s, w);
      BlockedOwners(s, u);
      var e := s.waiters[w].events[s.threads[u].i];
      OwnedEventHeld(s, d, e);
  }

  lemma OwnedEventHeld(s: State, d: set<nat>, e: nat)
    requires Inv(s) && DeadlockSet(s, d) && e in s.events && s.events[e].owner.Some? && s.events[e].owner.value in d
    ensures e in Held(s, d)
  {
    assert EventOk(s, e);
    BlockedOwners(s, s.events[e].owner.value);
  }

  // The setter of a held event is stuck on a wait that comes to another held event later in its array.
  lemma NextHeld(s: State, d: set<nat>, arrays: set<seq<nat>>, e: nat) returns (f: nat)
    requires Inv(s) && DeadlockSet(s, d) && UsesOnly(s, arrays) && e in Held(s, d)
    ensures f in Held(s, d) && ListsBefore(arrays, e, f)
  {
    var u :| u in d && u in s.threads && s.threads[u].SetLoop? && s.threads[u].e == e;
    assert PcOk(s, u) && EventOk(s, e);
    var n := Current(s.events[e]);
    var x := n.waiter;
    var r := s.waiters[x].owner.value;
    assert WaiterOk(s, x);
    assert r in d;
    BlockedOwners(s, r);
    var i := s.threads[r].i;
    assert PcOk(s, r);
    f := s.waiters[x].events[i];
    assert n in Pending(s.events[e]) by { assert Pending(s.events[e])[0] == n; }
    assert Registered(s, n) && ValidEntry(s, e, n);
    assert n.index < i;
    assert InOrder(s.waiters[x].events, n.index, i, e, f);
    OwnedEventHeld(s, d, f);
  }

  ghost predicate Endless(arrays: set<seq<nat>>, es: set<nat>) {
    forall e {:trigger HasNext(arrays, es, e)} | e in es :: HasNext(arrays, es, e)
  }

  ghost predicate HasNext(arrays: set<seq<nat>>, es: set<nat>, e: nat) {
    exists f :: f in es && ListsBefore(arrays, e, f)
  }

  ghost predicate Walk(arrays: set<seq<nat>>, es: set<nat>, walk: seq<nat>) {
    && walk != [] && (forall j | 0 <= j < |walk| :: walk[j] in es)
    && (forall j, k | 0 <= j < k < |walk| :: walk[j] != walk[k])
    && (forall j | 0 < j < |walk| :: ListsBefore(arrays, walk[j - 1], walk[j]))
  }

  lemma {:induction false} WalkFits(walk: seq<nat>, es: set<nat>)
    requires forall j | 0 <= j < |walk| :: walk[j] in es
    requires forall j, k | 0 <= j < k < |walk| :: walk[j] != walk[k]
    ensures |walk| <= |es|
  {
    if walk != [] {
      WalkFits(walk[1..], es - {walk[0]});
    }
  }

  lemma Closes(arrays: set<seq<nat>>, es: set<nat>, walk: seq<nat>, i: nat)
    requires Walk(arrays, es, walk) && i < |walk| && ListsBefore(arrays, walk[|walk| - 1], walk[i])
    ensures Cycle(arrays, walk[i..])
  {
    hide ListsBefore;
    var c := walk[i..];
    forall j | 0 <= j < |c| ensures ListsBefore(arrays, c[j], c[Succ(c, j)]) {
      if j + 1 < |c| { assert ListsBefore(arrays, walk[i + j + 1 - 1], walk[i + j + 1]); }
    }
  }

  lemma Extends(arrays: set<seq<nat>>, es: set<nat>, walk: seq<nat>, f: nat)
    requires Walk(arrays, es, walk) && f in es && f !in walk && ListsBefore(arrays, walk[|walk| - 1], f)
    ensures Walk(arrays, es, walk + [f]) && |walk + [f]| <= |es|
  {
    hide ListsBefore;
    WalkFits(walk + [f], es);
  }

  /** A finite set in which every event is listed before another one of the set holds a cycle. */
  lemma {:induction false} WalkToCycle(arrays: set<seq<nat>>, es: set<nat>, walk: seq<nat>) returns (c: seq<nat>)
    requires Endless(arrays, es) && Walk(arrays, es, walk) && |walk| <= |es|
    ensures Cycle(arrays, c)
    decreases |es| - |walk|
  {
    hide ListsBefore, Cycle;
    var last := walk[|walk| - 1];
    assert HasNext(arrays, es, last);
    var f :| f in es && ListsBefore(arrays, last, f);
    if f in walk {
      var i :| 0 <= i < |walk| && walk[i] == f;
      Closes(arrays, es, walk, i);
      c := walk[i..];
    } else {
      Extends(arrays, es, walk, f);
      c := WalkToCycle(arrays, es, walk + [f]);
    }
  }

  lemma HeldIsEndless(s: State, d: set<nat>, arrays: set<seq<nat>>)
    requires Inv(s) && DeadlockSet(s, d) && UsesOnly(s, arrays)
    ensures Endless(arrays, Held(s, d))
  {
    hide Inv, DeadlockSet, UsesOnly, Held, ListsBefore;
    forall e | e in Held(s, d) ensures HasNext(arrays, Held(s, d), e) {
      var f := NextHeld(s, d, arrays, e);
    }
  }

  lemma DeadlockHasCycle(s: State, d: set<nat>, arrays: set<seq<nat>>) returns (c: seq<nat>)
    requires Reachable(s) && UsesOnly(s, arrays) && DeadlockSet(s, d)
    ensures Cycle(arrays, c)
  {
    hide Inv, Reachable, UsesOnly, DeadlockSet, Held, Endless, Cycle;
    ReachableOk(s);
    SomeHeld(s, d);
    HeldIsEndless(s, d, arrays);
    var es := Held(s, d);
    var e :| e in es;
    WalkFits([e], es);
    c := WalkToCycle(arrays, es, [e]);
  }

  // --------------------------------------- a cycle has a deadlock: the run

  /** Every event is free and unsignalled, and every wait's mutex is taken by its own thread. */
  ghost predicate Calm(s: State) {
    && (forall e | e in s.events :: s.events[e].owner.None? && !s.events[e].state)
    && (forall w: nat | w < |s.waiters| :: s.waiters[w].owner == Some(s.waiters[w].thread) && !s.waiters[w].rec.waitAll)
  }

  /** s' is s but for the lists, the locks of e and the program counter of t. */
  ghost predicate Stays(s: State, s': State, t: nat, p: Pc) {
    && t in s.threads && s'.threads == s.threads[t := p] && s'.events.Keys == s.events.Keys
    && |s'.waiters| == |s.waiters|
    && (forall w: nat | w < |s.waiters| :: SameWait(s.waiters[w], s'.waiters[w]))
  }

  predicate SameWait(v: Waiter, v': Waiter) {
    v'.thread == v.thread && v'.events == v.events && v'.owner == v.owner && v'.rec.waitAll == v.rec.waitAll
  }

  // remove_if keeps every entry whose wait is busy.
  lemma {:induction false} SkipBusy(s: State, t: nat, w: nat, i: nat, e: nat, j: nat)
    requires t in s.threads && s.threads[t] == Clean(w, i, e, j) && PcOk(s, t)
    requires forall v: nat | v < |s.waiters| :: s.waiters[v].owner.Some?
    ensures Leadable(s, Move(s, t, Clean(w, i, e, |s.events[e].waits|)))
    decreases |s.events[e].waits| - j
  {
    if j < |s.events[e].waits| {
      var s' := Move(s, t, Clean(w, i, e, j + 1));
      assert Next(s, t, Go) == s';
      OneStep(s, t, Go);
      SkipBusy(s', t, w, i, e, j + 1);
      assert Move(s', t, Clean(w, i, e, |s.events[e].waits|)) == Move(s, t, Clean(w, i, e, |s.events[e].waits|));
      ThenLeads(s, s', Move(s, t, Clean(w, i, e, |s.events[e].waits|)));
    } else {
      assert Move(s, t, Clean(w, i, e, j)) == s by { assert s.threads[t := Clean(w, i, e, j)] == s.threads; }
      assert Leads(s, [], s);
    }
  }

  /** One round of a registration loop, with every other wait busy and no event signalled. */
  lemma Round(s: State, t: nat, w: nat, i: nat) returns (s': State)
    requires Inv(s) && Calm(s) && t in s.threads && s.threads[t] == Register(w, i) && PcOk(s, t)
    requires i < |s.waiters[w].events|
    ensures Leadable(s, s') && Stays(s, s', t, Register(w, i + 1)) && Calm(s')
  {
    hide EventsOk, WaitersOk, Leadable;
    var e := s.waiters[w].events[i];
    var s1 := GoRegister(s, t, w, i);
    OneStep(s, t, Go);
    assert Leadable(s, s1);
    assert PcOk(s1, t) by { LeadableOk(s, s1); }
    SkipBusy(s1, t, w, i, e, 0);
    var s2 := Move(s1, t, Clean(w, i, e, |s1.events[e].waits|));
    assert PcOk(s2, t);
    s' := GoEnlist(s2, t, w, i, e);
    assert Next(s2, t, Go) == s';
    OneStep(s2, t, Go);
    ThenLeads(s, s1, s2);
    ThenLeads(s, s2, s');
    assert s'.threads == s.threads[t := Register(w, i + 1)];
  }

  lemma {:induction false} Rounds(s: State, t: nat, w: nat, i: nat, q: nat) returns (s': State)
    requires Inv(s) && Calm(s) && t in s.threads && s.threads[t] == Register(w, i) && PcOk(s, t)
    requires i <= q <= |s.waiters[w].events|
    ensures Leadable(s, s') && Stays(s, s', t, Register(w, q)) && Calm(s')
    decreases q - i
  {
    if i == q {
      s' := s;
      assert Leads(s, [], s);
      assert s.threads[t := Register(w, q)] == s.threads;
    } else {
      var m := Round(s, t, w, i);
      LeadableOk(s, m);
      assert PcOk(m, t);
      s' := Rounds(m, t, w, i + 1, q);
      ThenLeads(s, m, s');
      assert s.threads[t := Register(w, i + 1)][t := Register(w, q)] == s.threads[t := Register(w, q)];
    }
  }

  /** The plan of a deadlock: wait j is given arrays[j], and is stopped before its stop[j]-th event. */
  datatype Plan = Plan(arrays: seq<seq<nat>>, start: seq<nat>, stop: seq<nat>, cycle: seq<nat>)

  ghost predicate Follows(plan: Plan) {
    var n := |plan.cycle|;
    && Fits(plan)
    && forall j | 0 <= j < n ::
         InOrder(plan.arrays[j], plan.start[j], plan.stop[j], plan.cycle[j], plan.cycle[Succ(plan.cycle, j)])
  }

  ghost predicate Known(es: set<nat>, plan: Plan) {
    forall m, k | 0 <= m < |plan.arrays| && 0 <= k < |plan.arrays[m]| :: plan.arrays[m][k] in es
  }

  /** The first j waits are registered up to their stops; everybody else is idle. */
  ghost predicate Staged(s: State, plan: Plan, j: nat) {
    && Fits(plan) && j <= |plan.cycle| && Calm(s) && Known(s.events.Keys, plan)
    && Posted(s.threads, plan, j) && Entered(s.waiters, plan, j)
  }

  predicate Fits(plan: Plan) {
    |plan.cycle| > 0 && |plan.arrays| == |plan.start| == |plan.stop| == |plan.cycle|
  }

  ghost predicate Posted(threads: map<nat, Pc>, plan: Plan, j: nat)
    requires Fits(plan) && j <= |plan.cycle|
  {
    var n := |plan.cycle|;
    && (forall t: nat :: t in threads <==> t < n + n)
    && (forall t: nat | t < n + n :: threads[t] == if t < j then Register(t, plan.stop[t]) else Idle)
  }

  ghost predicate Entered(waiters: seq<Waiter>, plan: Plan, j: nat)
    requires Fits(plan) && j <= |plan.cycle|
  {
    |waiters| == j && forall w: nat | w < j :: waiters[w].thread == w && waiters[w].events == plan.arrays[w]
  }

  // Thread j enters its wait.
  lemma Enters(s: State, t: nat, es: seq<nat>) returns (s': State)
    requires Inv(s) && Calm(s) && t in s.threads && s.threads[t] == Idle
    requires forall k | 0 <= k < |es| :: es[k] in s.events
    ensures s' == BeginWaiting(s, t, es, false, Infinite)
    ensures Leadable(s, s') && Inv(s') && PcOk(s', t) && Calm(s')
  {
    hide EventsOk, WaitersOk, Leadable;
    s' := BeginWaiting(s, t, es, false, Infinite);
    OneStep(s, t, BeginWait(es, false, Infinite));
    LeadableOk(s, s');
    assert PcOk(s', t);
  }

  lemma StagedGrows(s: State, s1: State, s': State, plan: Plan, j: nat)
    requires Staged(s, plan, j) && j < |plan.cycle|
    requires s1.threads == s.threads[j := Register(j, 0)] && s1.events == s.events
    requires |s1.waiters| == j + 1 && s1.waiters[..j] == s.waiters
    requires s1.waiters[j].thread == j && s1.waiters[j].events == plan.arrays[j]
    requires Stays(s1, s', j, Register(j, plan.stop[j])) && Calm(s')
    ensures Staged(s', plan, j + 1)
  {
    hide Calm, Known;
    assert s'.threads == s.threads[j := Register(j, plan.stop[j])];
    assert Entered(s'.waiters, plan, j + 1) by {
      hide Posted;
      forall w: nat | w < j + 1 ensures s'.waiters[w].thread == w && s'.waiters[w].events == plan.arrays[w] {
        assert SameWait(s1.waiters[w], s'.waiters[w]);
        if w < j { assert s1.waiters[w] == s.waiters[w]; }
      }
    }
  }

  lemma StageNext(s: State, plan: Plan, j: nat) returns (s': State)
    requires Follows(plan) && Inv(s) && Staged(s, plan, j) && j < |plan.cycle|
    ensures Leadable(s, s') && Staged(s', plan, j + 1)
  {
    hide Inv, Leadable;
    assert plan.stop[j] <= |plan.arrays[j]| by {
      assert InOrder(plan.arrays[j], plan.start[j], plan.stop[j], plan.cycle[j], plan.cycle[Succ(plan.cycle, j)]);
    }
    hide Follows, Calm, PcOk;
    var s1 := Enters(s, j, plan.arrays[j]);
    assert s1.threads == s.threads[j := Register(j, 0)];
    s' := Rounds(s1, j, j, 0, plan.stop[j]);
    ThenLeads(s, s1, s');
    StagedGrows(s, s1, s', plan, j);
  }

  lemma {:induction false} StageAll(s: State, plan: Plan, j: nat) returns (s': State)
    requires Follows(plan) && Inv(s) && Staged(s, plan, j)
    ensures Leadable(s, s') && Staged(s', plan, |plan.cycle|)
    decreases |plan.cycle| - j
  {
    if j == |plan.cycle| {
      s' := s;
      assert Leads(s, [], s);
    } else {
      var m := StageNext(s, plan, j);
      LeadableOk(s, m);
      s' := StageAll(m, plan, j + 1);
      ThenLeads(s, m, s');
    }
  }

  /** Every wait of the plan is stopped, and holds its own mutex. */
  ghost predicate Stopped(s: State, plan: Plan) {
    var n := |plan.cycle|;
    && Fits(plan) && |s.waiters| == n
    && (forall t: nat :: t in s.threads <==> t < n + n)
    && (forall w: nat | w < n :: s.threads[w] == Register(w, plan.stop[w]))
    && (forall w: nat | w < n :: s.waiters[w].thread == w && s.waiters[w].events == plan.arrays[w]
                               && s.waiters[w].owner == Some(w) && !s.waiters[w].rec.waitAll)
    && (forall m: nat | m < n :: plan.cycle[m] in s.events)
  }

  /** Then j setters have come, one for each event of the cycle: each event has an owner among them. */
  ghost predicate Jammed(s: State, plan: Plan, j: nat) {
    var n := |plan.cycle|;
    && Stopped(s, plan) && j <= n
    && (forall m: nat | m < j :: Stuck(s, n, j, n + m, plan.cycle[m]))
    && (forall t: nat | n + j <= t < n + n :: s.threads[t] == Idle)
  }

  predicate Stuck(s: State, n: nat, j: nat, t: nat, e: nat) {
    && t in s.threads && e in s.events
    && s.events[e].owner.Some? && n <= s.events[e].owner.value < n + j
    && (s.threads[t] == SetLock(e) || (s.threads[t].SetLoop? && s.threads[t].e == e))
  }

  lemma OwnedBySetter(s: State, plan: Plan, j: nat, e: nat)
    requires Jammed(s, plan, j) && e in s.events && StateOk(s, e) && s.events[e].owner.Some?
    ensures |plan.cycle| <= s.events[e].owner.value < |plan.cycle| + j
  {
    assert HoldsEvent(s.threads[s.events[e].owner.value], e);
  }

  lemma JamGrows(s: State, s': State, plan: Plan, j: nat, p: Pc)
    requires Jammed(s, plan, j) && j < |plan.cycle|
    requires s'.waiters == s.waiters && s'.events.Keys == s.events.Keys
    requires s'.threads == s.threads[|plan.cycle| + j := p]
    requires forall e | e in s.events && s.events[e].owner.Some? :: s'.events[e].owner == s.events[e].owner
    requires Stuck(s', |plan.cycle|, j + 1, |plan.cycle| + j, plan.cycle[j])
    ensures Jammed(s', plan, j + 1)
  {
    var n: nat := |plan.cycle|;
    assert Stopped(s', plan);
    hide Stopped;
    assert forall t: nat | n + j + 1 <= t < n + n :: s'.threads[t] == s.threads[t];
    forall m: nat | m < j + 1 ensures Stuck(s', n, j + 1, n + m, plan.cycle[m]) {
      if m < j { assert Stuck(s, n, j, n + m, plan.cycle[m]); }
    }
  }

  lemma JamNext(s: State, plan: Plan, j: nat) returns (s': State)
    requires Inv(s) && Jammed(s, plan, j) && j < |plan.cycle|
    ensures Leadable(s, s') && Jammed(s', plan, j + 1)
  {
    var t: nat := |plan.cycle| + j;
    var e: nat := plan.cycle[j];
    var s1 := Move(s, t, SetLock(e));
    assert s.threads[t] == Idle && e in s.events && PcOk(s, t);
    assert StateOk(s, e) by { assert EventOk(s, e); }
    assert Enabled(s, t, BeginSet(e));
    hide Jammed, Inv, Leads, StateOk;
    OneStep(s, t, BeginSet(e));
    if s.events[e].owner.Some? {
      s' := s1;
      OwnedBySetter(s, plan, j, e);
      JamGrows(s, s', plan, j, SetLock(e));
    } else {
      s' := GoSetLock(s1, t, e);
      var p := SetLoop(e, s.events[e].state);
      assert s'.threads == s.threads[t := p];
      OneStep(s1, t, Go);
      ThenLeads(s, s1, s');
      JamGrows(s, s', plan, j, p);
    }
  }

  lemma {:induction false} JamAll(s: State, plan: Plan, j: nat) returns (s': State)
    requires Inv(s) && Jammed(s, plan, j)
    ensures Leadable(s, s') && Jammed(s', plan, |plan.cycle|)
    decreases |plan.cycle| - j
  {
    hide Jammed, Inv;
    if j == |plan.cycle| {
      s' := s;
      assert Leads(s, [], s);
    } else if j < |plan.cycle| {
      var m := JamNext(s, plan, j);
      LeadableOk(s, m);
      s' := JamAll(m, plan, j + 1);
      ThenLeads(s, m, s');
    } else {
      assert false by { JamBound(s, plan, j); }
    }
  }

  lemma JamBound(s: State, plan: Plan, j: nat)
    requires Jammed(s, plan, j)
    ensures j <= |plan.cycle|
  {
  }

  // A wait-any in its registration loop has consumed nothing, so it is listed everywhere before.
  lemma StoppedListed(s: State, w: nat, i: nat, k: nat)
    requires w < |s.waiters| && WaiterOk(s, w) && PcOf(s, w) == Register(w, i)
    requires !s.waiters[w].rec.waitAll && k < i <= |s.waiters[w].events|
    ensures Listed(s, Entry(w, k), s.waiters[w].events[k])
  {
    hide Listed, Granted, CountsOk;
    assert CountsOk(s.waiters[w], true);
    assert s.waiters[w].got == {} by { NothingGot(s.waiters[w]); }
    assert k in s.waiters[w].regs;
  }

  lemma NothingGot(v: Waiter)
    requires CountsOk(v, true) && !v.rec.waitAll && v.rec.status == -1
    ensures v.got == {}
  {
  }

  lemma ListedCurrent(s: State, n: Entry, e: nat)
    requires e in s.events && Listed(s, n, e) && ListOk(s, e)
    ensures s.events[e].fired < |s.events[e].waits| && Current(s.events[e]).waiter < |s.waiters|
  {
    assert ValidEntry(s, e, Current(s.events[e]));
  }

  // The list of an event of the cycle is not empty: wait m is on it.
  lemma CycleListed(s: State, plan: Plan, m: nat)
    requires Follows(plan) && Inv(s) && Jammed(s, plan, |plan.cycle|) && m < |plan.cycle|
    ensures var e := plan.cycle[m];
      e in s.events && s.events[e].fired < |s.events[e].waits| && Current(s.events[e]).waiter < |s.waiters|
  {
    var v := s.waiters[m];
    assert InOrder(plan.arrays[m], plan.start[m], plan.stop[m], plan.cycle[m], plan.cycle[Succ(plan.cycle, m)]);
    assert v.thread == m && v.events == plan.arrays[m] && s.threads[m] == Register(m, plan.stop[m]);
    assert PcOf(s, m) == Register(m, plan.stop[m]);
    assert plan.cycle[m] in s.events;
    assert WaiterOk(s, m) && ListOk(s, plan.cycle[m]) by {
      hide Jammed, WaiterOk;
      assert EventOk(s, plan.cycle[m]);
    }
    hide Jammed, Inv, WaiterOk, ListOk;
    StoppedListed(s, m, plan.stop[m], plan.start[m]);
    ListedCurrent(s, Entry(m, plan.start[m]), plan.cycle[m]);
  }

  function Below(n: nat): (d: set<nat>)
    ensures forall t: nat :: t in d <==> t < n
  {
    if n == 0 then {} else Below(n - 1) + {n - 1}
  }

  // A stopped wait is blocked on the next event of the cycle, which a setter owns.
  lemma WaitStuck(s: State, plan: Plan, t: nat)
    requires Follows(plan) && Jammed(s, plan, |plan.cycle|) && t < |plan.cycle| && t in s.threads && PcOk(s, t)
    ensures Blocked(s, t) && |plan.cycle| <= Owner(s, Wants(s, t).value).value < |plan.cycle| + |plan.cycle|
  {
    var n: nat := |plan.cycle|;
    assert InOrder(plan.arrays[t], plan.start[t], plan.stop[t], plan.cycle[t], plan.cycle[Succ(plan.cycle, t)]);
    assert Stuck(s, n, n, n + Succ(plan.cycle, t), plan.cycle[Succ(plan.cycle, t)]);
  }

  // A setter is blocked on its event, which a setter owns, or on the first wait of its list.
  lemma SetterStuck(s: State, plan: Plan, m: nat)
    requires Follows(plan) && Inv(s) && Jammed(s, plan, |plan.cycle|) && m < |plan.cycle|
    requires |plan.cycle| + m in s.threads && PcOk(s, |plan.cycle| + m)
    ensures Blocked(s, |plan.cycle| + m)
    ensures Owner(s, Wants(s, |plan.cycle| + m).value).value < |plan.cycle| + |plan.cycle|
  {
    hide Inv, Follows;
    var n: nat := |plan.cycle|;
    CycleListed(s, plan, m);
    assert Stuck(s, n, n, n + m, plan.cycle[m]);
  }

  /** When every setter has come, all of them are stuck. */
  lemma AllStuck(s: State, plan: Plan, d: set<nat>)
    requires Follows(plan) && Inv(s) && Jammed(s, plan, |plan.cycle|)
    requires d == Below(|plan.cycle| + |plan.cycle|)
    ensures DeadlockSet(s, d)
  {
    var n: nat := |plan.cycle|;
    assert 0 in d;
    forall t | t in d ensures t in s.threads && PcOk(s, t) && Blocked(s, t) && Owner(s, Wants(s, t).value).value in d {
      assert PcOk(s, t);
      hide Inv, Jammed, Follows;
      if t < n {
        WaitStuck(s, plan, t);
      } else {
        assert n + (t - n) == t;
        SetterStuck(s, plan, t - n);
      }
    }
  }

  /** The state the run starts from: two idle threads for each event of the cycle,
      and every event of the arrays, none signalled. */
  ghost function Start(plan: Plan): State {
    var crew := Below(|plan.cycle| + |plan.cycle|);
    var all := Universe(plan);
    State(map t | t in crew :: Idle, map e | e in all :: Created(true, false), [])
  }

  ghost function Universe(plan: Plan): set<nat> {
    set m, k | 0 <= m < |plan.arrays| && 0 <= k < |plan.arrays[m]| :: plan.arrays[m][k]
  }

  ghost function ArrayFor(arrays: set<seq<nat>>, e: nat, f: nat): (x: (seq<nat>, nat, nat))
    requires ListsBefore(arrays, e, f)
    ensures x.0 in arrays && InOrder(x.0, x.1, x.2, e, f)
  {
    var es, p, q :| es in arrays && InOrder(es, p, q, e, f);
    (es, p, q)
  }

  lemma PlanOf(arrays: set<seq<nat>>, c: seq<nat>) returns (plan: Plan)
    requires Cycle(arrays, c)
    ensures Follows(plan) && forall m | 0 <= m < |plan.arrays| :: plan.arrays[m] in arrays
  {
    var n := |c|;
    plan := Plan(seq(n, j requires 0 <= j < n => ArrayFor(arrays, c[j], c[Succ(c, j)]).0),
                 seq(n, j requires 0 <= j < n => ArrayFor(arrays, c[j], c[Succ(c, j)]).1),
                 seq(n, j requires 0 <= j < n => ArrayFor(arrays, c[j], c[Succ(c, j)]).2), c);
  }

  lemma Jams(plan: Plan) returns (s: State)
    requires Follows(plan)
    ensures Reachable(s) && Jammed(s, plan, |plan.cycle|)
  {
    var s0 := Start(plan);
    assert Initial(s0);
    assert Leads(s0, [], s0);
    InitialOk(s0);
    assert Staged(s0, plan, 0);
    var s1 := StageAll(s0, plan, 0);
    LeadableOk(s0, s1);
    StagedJams(s1, plan);
    s := JamAll(s1, plan, 0);
    ThenLeads(s0, s1, s);
    StillReachable(s0, s);
  }

  lemma StagedJams(s: State, plan: Plan)
    requires Follows(plan) && Staged(s, plan, |plan.cycle|)
    ensures Jammed(s, plan, 0)
  {
    forall m: nat | m < |plan.cycle| ensures plan.cycle[m] in s.events {
      assert InOrder(plan.arrays[m], plan.start[m], plan.stop[m], plan.cycle[m], plan.cycle[Succ(plan.cycle, m)]);
    }
  }

  lemma CycleDeadlocks(arrays: set<seq<nat>>, c: seq<nat>)
    requires Cycle(arrays, c)
    ensures CanDeadlock(arrays)
  {
    var plan := PlanOf(arrays, c);
    var s := Jams(plan);
    var d := Below(|plan.cycle| + |plan.cycle|);
    assert UsesOnly(s, arrays) by { hide Reachable; }
    hide Reachable, Inv, Jammed, Follows, DeadlockSet, UsesOnly;
    ReachableOk(s);
    AllStuck(s, plan, d);
  }

  /** Whatever the threads, events and calls: a deadlock can be reached with these
      arrays if and only if they list events in a cycle. */
  lemma DeadlockIffCycle(arrays: set<seq<nat>>)
    ensures CanDeadlock(arrays) <==> exists c :: Cycle(arrays, c)
  {
    hide Reachable, UsesOnly, DeadlockSet, Cycle;
    if CanDeadlock(arrays) {
      var s, d :| Reachable(s) && UsesOnly(s, arrays) && DeadlockSet(s, d);
      var c := DeadlockHasCycle(s, d, arrays);
    }
    if c :| Cycle(arrays, c) { CycleDeadlocks(arrays, c); }
  }

  ghost predicate Ranked(arrays: set<seq<nat>>, rank: map<nat, nat>) {
    forall es, p: nat, q: nat, e, f | es in arrays && InOrder(es, p, q, e, f) ::
      e in rank && f in rank && rank[e] < rank[f]
  }

  /** Arrays that follow one global order of the events never deadlock. */
  lemma RankedNeverDeadlocks(arrays: set<seq<nat>>, rank: map<nat, nat>)
    requires Ranked(arrays, rank)
    ensures !CanDeadlock(arrays)
  {
    hide CanDeadlock;
    DeadlockIffCycle(arrays);
    if c :| Cycle(arrays, c) {
      RankClimbs(arrays, rank, c, |c| - 1);
    }
  }

  lemma {:induction false} RankClimbs(arrays: set<seq<nat>>, rank: map<nat, nat>, c: seq<nat>, j: nat)
    requires Ranked(arrays, rank) && Cycle(arrays, c) && j < |c|
    ensures ListsBefore(arrays, c[j], c[Succ(c, j)])
    ensures c[0] in rank && c[j] in rank && rank[c[0]] <= rank[c[j]]
  {
    assert ListsBefore(arrays, c[j], c[Succ(c, j)]);
    if j > 0 {
      RankClimbs(arrays, rank, c, j - 1);
      assert ListsBefore(arrays, c[j - 1], c[Succ(c, j - 1)]);
    }
  }

  /** Arrays without repetition that share no event, such as the private ones of
      each heartbeat and each request, never deadlock. */
  lemma PrivateArraysNeverDeadlock(arrays: set<seq<nat>>)
    requires (forall es | es in arrays :: NoRepeats(es))
    requires forall es, fs | es in arrays && fs in arrays && es != fs :: Disjoint(es, fs)
    ensures !CanDeadlock(arrays)
  {
    var all: set<nat> := set es, p | es in arrays && 0 <= p < |es| :: es[p];
    var rank: map<nat, nat> := map e | e in all :: Position(arrays, e);
    forall es, p: nat, q: nat, e, f | es in arrays && InOrder(es, p, q, e, f)
      ensures e in rank && f in rank && rank[e] < rank[f]
    {
      assert es[p] in all && es[q] in all;
      PositionIs(arrays, es, p);
      PositionIs(arrays, es, q);
    }
    RankedNeverDeadlocks(arrays, rank);
  }

  predicate NoRepeats(es: seq<nat>) {
    forall p, q | 0 <= p < q < |es| :: es[p] != es[q]
  }

  predicate Disjoint(es: seq<nat>, fs: seq<nat>) {
    forall e | e in es :: e !in fs
  }

  predicate At(es: seq<nat>, p: nat, e: nat) {
    p < |es| && es[p] == e
  }

  ghost function Position(arrays: set<seq<nat>>, e: nat): nat {
    if es, p: nat :| es in arrays && At(es, p, e) then p else 0
  }

  lemma PositionIs(arrays: set<seq<nat>>, es: seq<nat>, p: nat)
    requires es in arrays && p < |es|
    requires NoRepeats(es) && forall fs | fs in arrays && fs != es :: Disjoint(es, fs)
    ensures Position(arrays, es[p]) == p
  {
    assert At(es, p, es[p]);
    assert es[p] in es;
    assert forall fs | fs in arrays && es[p] in fs :: fs == es || !Disjoint(es, fs);
    assert forall q: nat | At(es, q, es[p]) :: q == p;
  }

  // -------------------------------------------------------------- progress

  /** A thread that holds a mutex goes on unless it is blocked. */
  lemma HolderGoes(s: State, u: nat, m: Mutex)
    requires Inv(s) && u in s.threads && Owner(s, m) == Some(u)
    ensures PcOk(s, u) && (Blocked(s, u) || Enabled(s, u, Go))
  {
    match m
    case OfEvent(e) => assert EventOk(s, e);
    case OfWaiter(w) => assert WaiterOk(s, w);
  }

  lemma OwnerThread(s: State, m: Mutex)
    requires Inv(s) && Owner(s, m).Some?
    ensures Owner(s, m).value in s.threads
  {
    match m
    case OfEvent(e) => assert EventOk(s, e);
    case OfWaiter(w) => assert WaiterOk(s, w);
  }

  /** Where the arrays have no cycle, a blocked thread means that some thread that
      holds a mutex can step. */
  lemma Progress(s: State, arrays: set<seq<nat>>, t: nat) returns (u: nat)
    requires Reachable(s) && UsesOnly(s, arrays) && !exists c :: Cycle(arrays, c)
    requires t in s.threads && PcOk(s, t) && Blocked(s, t)
    ensures u in s.threads && Enabled(s, u, Go) && exists m :: Owner(s, m) == Some(u)
  {
    ReachableOk(s);
    DeadlockIffCycle(arrays);
    var d := set v | v in s.threads && PcOk(s, v) && Blocked(s, v);
    assert t in d;
    assert !DeadlockSet(s, d);
    var v :| v in d && Owner(s, Wants(s, v).value).value !in d;
    var m := Wants(s, v).value;
    u := Owner(s, m).value;
    OwnerThread(s, m);
    HolderGoes(s, u, m);
  }
}
