/** What the calls of the protocol report: over every run, when WaitForEvent and
    WaitForMultipleEvents end with a time-out, and what the ledger of an event counts. */
module Results {
  import opened Records
  import opened Protocol
  import opened Invariant
  import opened Frames
  import Safety

  // ------------------------------------------------------ single steps

  /** A wait that finds what it waits for, and holds its mutex, reports success. */
  lemma ReadySucceeds(s: State, t: nat, w: nat)
    requires t in s.threads && s.threads[t] == Check(w) && PcOk(s, t) && Ready(s.waiters[w].rec)
    ensures Enabled(s, t, Go) && Enabled(Next(s, t, Go), t, Go)
    ensures var p := Next(Next(s, t, Go), t, Go);
      t in p.threads && p.threads[t] == Returned(w, false, s.waiters[w].rec.status)
  {
    var m := Next(s, t, Go);
    assert m.threads[t] == Finish(w, false);
    assert PcOk(m, t);
  }

  /** A step that ends a call of WaitForEvent: it succeeds if and only if it is no
      time-out, the mutex is free and State is set.  Success takes the signal of an
      auto-reset event and leaves the rest as it was; failure leaves everything as it was. */
  lemma SingleEnds(s: State, t: nat, a: Action, e: nat, timedOut: bool)
    requires Enabled(s, t, a) && t in Next(s, t, a).threads && Next(s, t, a).threads[t] == SingleReturned(e, timedOut)
    ensures (s.threads[t].SingleLock? || s.threads[t].SingleAsleep?) && s.threads[t].e == e && e in s.events
    ensures !timedOut <==> !a.TimeOut? && s.events[e].owner.None? && s.events[e].state
    ensures timedOut ==> s.threads[t].limit == if a.TimeOut? then Finite else Zero
    ensures var s' := Next(s, t, a);
      && s'.waiters == s.waiters && s'.threads == s.threads[t := SingleReturned(e, timedOut)]
      && if timedOut then s'.events == s.events
         else e in s'.events && s'.events == s.events[e := s'.events[e]]
              && s'.events[e].state == !s.events[e].autoReset
              && s'.events[e] == s.events[e].(state := s'.events[e].state, ledger := s'.events[e].ledger)
  {
    if a.Go? { GoFrame(s, t); }
  }

  /** A call of WaitForEvent that looks at a signalled event with a free mutex, at
      once or awakened, returns success there and then; on all other steps it does not. */
  lemma SingleSucceedsIff(s: State, t: nat, a: Action, e: nat)
    requires Enabled(s, t, a) && (s.threads[t].SingleLock? || s.threads[t].SingleAsleep?) && s.threads[t].e == e
    ensures t in Next(s, t, a).threads && e in s.events
    ensures Next(s, t, a).threads[t] == SingleReturned(e, false) <==>
      (a.Go? || a.Wake?) && s.events[e].owner.None? && s.events[e].state
  {
  }

  /** A ResetEvent that has the mutex leaves State clear, and all else as it was. */
  lemma ResetEnds(s: State, t: nat, e: nat)
    requires Enabled(s, t, Go) && s.threads[t] == ResetLock(e)
    ensures var s' := Next(s, t, Go);
      && e in s'.events && !s'.events[e].state && s'.threads == s.threads[t := Pc.Idle] && s'.waiters == s.waiters
      && s'.events == s.events[e := s'.events[e]]
      && s'.events[e] == s.events[e].(state := false, ledger := s'.events[e].ledger)
  {
  }

  // ------------------------------------------- what the callers are told

  predicate Begins(a: Action) {
    a.BeginWait? || a.BeginSet? || a.BeginReset? || a.BeginSingle?
  }

  /** The last call that t has begun in the run. */
  function Began(run: seq<Turn>, t: nat): Option<Action> {
    if run == [] then None
    else
      var n := |run| - 1;
      if run[n].thread == t && Begins(run[n].action) then Some(run[n].action) else Began(run[..n], t)
  }

  /** The last thing t has done in the run, other than to go on: to begin a call,
      to wake up, or to time out. */
  function Deed(run: seq<Turn>, t: nat): Option<Action> {
    if run == [] then None
    else
      var n := |run| - 1;
      if run[n].thread == t && !run[n].action.Go? then Some(run[n].action) else Deed(run[..n], t)
  }

  predicate Calls(s: State, w: nat, began: Option<Action>) {
    w < |s.waiters| && began == Some(BeginWait(s.waiters[w].events, s.waiters[w].rec.waitAll, s.waiters[w].limit))
  }

  // A time-out is reported after a TimeOut, and otherwise with 0 milliseconds only.
  predicate Verdict(v: Waiter, deed: Option<Action>, timedOut: bool) {
    if deed == Some(TimeOut) then timedOut && v.limit == Finite
    else (timedOut ==> v.limit == Zero) && (v.limit == Zero && v.rec.waitAll ==> timedOut)
  }

  /** Where t is agrees with the call it has begun and the last thing it did. */
  predicate Told(s: State, t: nat, began: Option<Action>, deed: Option<Action>)
    requires t in s.threads
  {
    match s.threads[t]
    case Register(w, _) => Calls(s, w, began) && deed == began
    case Clean(w, _, _, _) => Calls(s, w, began) && deed == began
    case CleanHold(w, _, _, _, _) => Calls(s, w, began) && deed == began
    case Check(w) => Calls(s, w, began) && s.waiters[w].limit != Zero && (deed == began || deed == Some(Wake))
    case Asleep(w) => Calls(s, w, began) && s.waiters[w].limit != Zero && (deed == began || deed == Some(Wake))
    case Finish(w, timedOut) => Calls(s, w, began) && Verdict(s.waiters[w], deed, timedOut)
    case Returned(w, timedOut, _) => Calls(s, w, began) && Verdict(s.waiters[w], deed, timedOut)
    case SingleLock(e, limit) => began == Some(BeginSingle(e, limit)) && deed == began
    case SingleAsleep(e, limit, _) =>
      began == Some(BeginSingle(e, limit)) && limit != Zero && (deed == began || deed == Some(Wake))
    case SingleReturned(e, timedOut) =>
      && began.Some? && began.value.BeginSingle? && began.value.e == e
      && if deed == Some(TimeOut) then timedOut && began.value.limit == Finite
         else timedOut ==> began.value.limit == Zero
    case _ => true
  }

  lemma ToldOther(s: State, t: nat, a: Action, u: nat, began: Option<Action>, deed: Option<Action>)
    requires Enabled(s, t, a) && u in s.threads && u != t && Told(s, u, began, deed)
    ensures u in Next(s, t, a).threads && Told(Next(s, t, a), u, began, deed)
  {
    if !a.BeginWait? {
      StepFrame(s, t, a);
      hide Next;
    }
  }

  // A step inside a multi-wait.
  lemma ToldOn(s: State, t: nat, began: Option<Action>, deed: Option<Action>)
    requires Enabled(s, t, Go) && OwnWait(s.threads[t]).Some? && Told(s, t, began, deed)
    ensures t in Next(s, t, Go).threads && Told(Next(s, t, Go), t, began, deed)
  {
  }

  // ... and inside any other call.
  lemma ToldElsewhere(s: State, t: nat, began: Option<Action>, deed: Option<Action>)
    requires Enabled(s, t, Go) && OwnWait(s.threads[t]).None? && Told(s, t, began, deed)
    ensures t in Next(s, t, Go).threads && Told(Next(s, t, Go), t, began, deed)
  {
  }

  // ... and every other action.
  lemma ToldNews(s: State, t: nat, a: Action, began: Option<Action>, deed: Option<Action>)
    requires Enabled(s, t, a) && Told(s, t, began, deed) && !a.Go?
    ensures t in Next(s, t, a).threads && Told(Next(s, t, a), t, if Begins(a) then Some(a) else began, Some(a))
  {
    hide GoFrom;
  }

  lemma ToldOwn(s: State, t: nat, a: Action, began: Option<Action>, deed: Option<Action>)
    requires Enabled(s, t, a) && Told(s, t, began, deed)
    ensures t in Next(s, t, a).threads
    ensures Told(Next(s, t, a), t, if Begins(a) then Some(a) else began, if a.Go? then deed else Some(a))
  {
    assert t in s.threads;
    hide Next, Enabled, Told;
    if !a.Go? { ToldNews(s, t, a, began, deed); }
    else if OwnWait(s.threads[t]).Some? { ToldOn(s, t, began, deed); }
    else { ToldElsewhere(s, t, began, deed); }
  }

  lemma {:induction false} ToldOnRuns(s: State, before: seq<Turn>, run: seq<Turn>, s': State, t: nat)
    requires Leads(s, run, s') && t in s.threads && Told(s, t, Began(before, t), Deed(before, t))
    ensures t in s'.threads && Told(s', t, Began(before + run, t), Deed(before + run, t))
    decreases |run|
  {
    hide Next, Enabled, Told;
    if run == [] {
      assert before + run == before;
    } else {
      var u, a := run[0].thread, run[0].action;
      var onward := before + [run[0]];
      assert onward[..|before|] == before && onward + run[1..] == before + run;
      if u == t { ToldOwn(s, t, a, Began(before, t), Deed(before, t)); }
      else { ToldOther(s, u, a, t, Began(before, t), Deed(before, t)); }
      ToldOnRuns(Next(s, u, a), onward, run[1..], s', t);
    }
  }

  lemma ToldAlways(s0: State, run: seq<Turn>, s: State, t: nat)
    requires Initial(s0) && Leads(s0, run, s) && t in s.threads
    ensures Told(s, t, Began(run, t), Deed(run, t))
  {
    SameThreads(s0, run, s);
    ToldOnRuns(s0, [], run, s, t);
    assert [] + run == run;
  }

  lemma {:induction false} SameThreads(s: State, run: seq<Turn>, s': State)
    requires Leads(s, run, s')
    ensures s'.threads.Keys == s.threads.Keys
    decreases |run|
  {
    if run != [] {
      KeepsThreads(s, run[0].thread, run[0].action);
      hide Next, Enabled;
      SameThreads(Next(s, run[0].thread, run[0].action), run[1..], s');
    }
  }

  lemma KeepsThreads(s: State, t: nat, a: Action)
    requires Enabled(s, t, a)
    ensures Next(s, t, a).threads.Keys == s.threads.Keys
  {
    if !a.BeginWait? {
      StepFrame(s, t, a);
      hide Next;
    }
  }

  lemma OkAfter(s0: State, run: seq<Turn>, s: State)
    requires Initial(s0) && Leads(s0, run, s)
    ensures Inv(s)
  {
    assert Reachable(s);
    ReachableOk(s);
  }

  /** Over every run, a call of WaitForMultipleEvents reports a time-out if and only
      if the last thing its thread did was to time out, or it has 0 milliseconds and
      is a wait-all or has found no event signalled. */
  lemma MultiTimesOutIff(s0: State, run: seq<Turn>, s: State, t: nat)
    requires Initial(s0) && Leads(s0, run, s) && t in s.threads && s.threads[t].Returned?
    ensures var p := s.threads[t];
      && Calls(s, p.w, Began(run, t))
      && var c := Began(run, t).value;
         p.timedOut <==> Deed(run, t) == Some(TimeOut) || (c.limit == Zero && (c.waitAll || p.waitIndex == -1))
  {
    ToldAlways(s0, run, s, t);
    OkAfter(s0, run, s);
    assert PcOk(s, t);
    hide Inv, Leads;
  }

  /** ... and a call of WaitForEvent with a limit above 0 if and only if the last
      thing its thread did was to time out. */
  lemma SingleTimesOutIff(s0: State, run: seq<Turn>, s: State, t: nat)
    requires Initial(s0) && Leads(s0, run, s) && t in s.threads && s.threads[t].SingleReturned?
    ensures var p := s.threads[t];
      && Began(run, t).Some? && Began(run, t).value.BeginSingle? && Began(run, t).value.e == p.e
      && var limit := Began(run, t).value.limit;
         && (limit != Zero ==> (p.timedOut <==> Deed(run, t) == Some(TimeOut)))
         && (limit != Finite ==> Deed(run, t) != Some(TimeOut))
  {
    ToldAlways(s0, run, s, t);
    hide Leads;
  }

  lemma {:induction false} DeedDone(run: seq<Turn>, t: nat)
    ensures Deed(run, t).Some? ==> Turn(t, Deed(run, t).value) in run
  {
    if run != [] {
      DeedDone(run[..|run| - 1], t);
      assert run == run[..|run| - 1] + [run[|run| - 1]];
    }
  }

  /** In a run in which t never times out no call of t with a limit above 0 reports a time-out. */
  lemma Unhurried(s0: State, run: seq<Turn>, s: State, t: nat)
    requires Initial(s0) && Leads(s0, run, s) && t in s.threads && Turn(t, TimeOut) !in run
    ensures s.threads[t].Returned? ==>
      s.threads[t].w < |s.waiters| && (s.threads[t].timedOut ==> s.waiters[s.threads[t].w].limit == Zero)
    ensures s.threads[t].SingleReturned? && s.threads[t].timedOut ==>
      Began(run, t).Some? && Began(run, t).value.BeginSingle? && Began(run, t).value.limit == Zero
  {
    DeedDone(run, t);
    if s.threads[t].Returned? { MultiTimesOutIff(s0, run, s, t); }
    if s.threads[t].SingleReturned? { SingleTimesOutIff(s0, run, s, t); }
    hide Leads;
  }

  // ------------------------------------------------- what a ledger counts

  /** One for each: a SetEvent on e that gets the mutex, a SetEvent that has found e
      signalled and ends, a WaitForEvent on e that returns success, and a ResetEvent that
      finds e signalled. */
  datatype Tally = Tally(sets: nat, merged: nat, singles: nat, cleared: nat)

  function OfStep(s: State, t: nat, a: Action, e: nat): Tally
    requires Enabled(s, t, a) && e in s.events
  {
    var p' := if t in Next(s, t, a).threads then Next(s, t, a).threads[t] else Idle;
    Tally(if a.Go? && s.threads[t] == SetLock(e) then 1 else 0,
          if a.Go? && s.threads[t] == SetLoop(e, true) && p' == SetSignal(e) then 1 else 0,
          if p' == SingleReturned(e, false) then 1 else 0,
          if a.Go? && s.threads[t] == ResetLock(e) && s.events[e].state then 1 else 0)
  }

  /** The ledger has counted k more. */
  predicate Counted(l: Ledger, k: Tally, l': Ledger) {
    && l'.sets == l.sets + k.sets && l'.merged == l.merged + k.merged
    && l'.singles == l.singles + k.singles && l'.cleared == l.cleared + k.cleared
  }

  lemma StepTallied(s: State, t: nat, a: Action, e: nat)
    requires Enabled(s, t, a) && e in s.events
    ensures e in Next(s, t, a).events
    ensures Counted(s.events[e].ledger, OfStep(s, t, a, e), Next(s, t, a).events[e].ledger)
  {
    if a.Go? && OwnWait(s.threads[t]).Some? { WaitTallied(s, t, e); }
    else if a.Go? && Sets(s.threads[t]) { SetTallied(s, t, e); }
    else if a.Go? { CallTallied(s, t, e); }
    else { OthersTallied(s, t, a, e); }
    hide Next, Enabled;
  }

  lemma OthersTallied(s: State, t: nat, a: Action, e: nat)
    requires Enabled(s, t, a) && e in s.events && !a.Go?
    ensures e in Next(s, t, a).events
    ensures Counted(s.events[e].ledger, OfStep(s, t, a, e), Next(s, t, a).events[e].ledger)
  {
    hide GoFrom;
  }

  lemma WaitTallied(s: State, t: nat, e: nat)
    requires Enabled(s, t, Go) && e in s.events && OwnWait(s.threads[t]).Some?
    ensures e in Next(s, t, Go).events
    ensures Counted(s.events[e].ledger, OfStep(s, t, Go, e), Next(s, t, Go).events[e].ledger)
  {
  }

  predicate Sets(p: Pc) {
    p.SetLock? || p.SetLoop? || p.SetHold? || p.HandOver? || p.SetNotify?
  }

  lemma SetTallied(s: State, t: nat, e: nat)
    requires Enabled(s, t, Go) && e in s.events && Sets(s.threads[t])
    ensures e in Next(s, t, Go).events
    ensures Counted(s.events[e].ledger, OfStep(s, t, Go, e), Next(s, t, Go).events[e].ledger)
  {
  }

  lemma CallTallied(s: State, t: nat, e: nat)
    requires Enabled(s, t, Go) && e in s.events && OwnWait(s.threads[t]).None? && !Sets(s.threads[t])
    ensures e in Next(s, t, Go).events
    ensures Counted(s.events[e].ledger, OfStep(s, t, Go, e), Next(s, t, Go).events[e].ledger)
  {
  }

  function Plus(k: Tally, m: Tally): Tally {
    Tally(k.sets + m.sets, k.merged + m.merged, k.singles + m.singles, k.cleared + m.cleared)
  }

  /** What a run from s does to e, call by call. */
  ghost function Over(s: State, run: seq<Turn>, e: nat): Tally
    decreases |run|
  {
    if run == [] || e !in s.events || !Enabled(s, run[0].thread, run[0].action) then Tally(0, 0, 0, 0)
    else
      var t, a := run[0].thread, run[0].action;
      Plus(OfStep(s, t, a, e), Over(Next(s, t, a), run[1..], e))
  }

  lemma {:induction false} RunTallied(s: State, run: seq<Turn>, s': State, e: nat)
    requires Leads(s, run, s') && e in s.events
    ensures e in s'.events && Counted(s.events[e].ledger, Over(s, run, e), s'.events[e].ledger)
    ensures s'.events[e].autoReset == s.events[e].autoReset
    decreases |run|
  {
    hide Next, Enabled, OfStep;
    if run != [] {
      var t, a := run[0].thread, run[0].action;
      StepTallied(s, t, a, e);
      StepKinds(s, t, a);
      RunTallied(Next(s, t, a), run[1..], s', e);
    }
  }

  /** Over every run the SetEvents of an auto-reset event, with one more if it was
      created signalled, are those that have found it signalled and ended, the
      WaitForEvents that have returned success, the consumptions by multi-waits, the ResetEvents that
      found it signalled, the signal still latched, and the SetEvent under way. */
  lemma EverySignalOnce(s0: State, run: seq<Turn>, s: State, e: nat)
    requires Initial(s0) && Leads(s0, run, s) && e in s0.events && s0.events[e].autoReset
    ensures e in s.events
    ensures var k := Over(s0, run, e);
      (if s0.events[e].state then 1 else 0) + k.sets
      == k.merged + k.singles + |Safety.Consumptions(s, e)| + k.cleared
         + (if Latched(s, e) then 1 else 0) + (if HeldBySetter(s, e) then 1 else 0)
  {
    RunTallied(s0, run, s, e);
    assert Reachable(s);
    Safety.Conservation(s, e);
    assert s0.events[e].ledger == Ledger(if s0.events[e].state then 1 else 0, 0, 0, 0, []);
    hide Leads, Over, Safety.Consumptions;
  }
}
