/** Threads asleep on an event's own condition (WaitForEvent): when one of them
    can miss a signal that is still there to be had. */
module Singles {
  import opened Records
  import opened Protocol
  import opened Invariant
  import opened Runs
  import opened Frames

  predicate Unnotified(p: Pc, e: nat) {
    p.SingleAsleep? && p.e == e && !p.notified
  }

  predicate Notified(p: Pc, e: nat) {
    p.SingleAsleep? && p.e == e && p.notified
  }

  ghost predicate Sleeping(s: State, e: nat) {
    exists u :: u in s.threads && Unnotified(s.threads[u], e)
  }

  /** A setter is about to signal e's condition. */
  ghost predicate Signalling(s: State, e: nat) {
    exists u :: u in s.threads && s.threads[u] == SetSignal(e)
  }

  ghost predicate Woken(s: State, e: nat) {
    exists u :: u in s.threads && Notified(s.threads[u], e)
  }

  /** While e is signalled and somebody sleeps on it, somebody else is under way. */
  ghost predicate Attended(s: State, e: nat)
    requires e in s.events
  {
    s.events[e].state && Sleeping(s, e) ==>
      HeldBySetter(s, e) || Signalling(s, e) || (s.events[e].autoReset && Woken(s, e))
  }

  // A step of t that neither raises e nor ends an effort to wake somebody up.
  lemma Ordinary(s: State, s': State, t: nat, e: nat)
    requires t in s.threads && t in s'.threads && s'.threads == s.threads[t := s'.threads[t]]
    requires e in s.events && e in s'.events && s'.events[e].autoReset == s.events[e].autoReset
    requires s'.events[e].state ==> s.events[e].state
    requires HeldBySetter(s, e) ==> HeldBySetter(s', e) || !s'.events[e].state || s'.threads[t] == SetSignal(e)
    requires s.threads[t] != SetSignal(e)
    requires Notified(s.threads[t], e) ==> !s'.events[e].state || !s.events[e].autoReset
    requires Unnotified(s'.threads[t], e) ==> !s'.events[e].state
    requires Attended(s, e)
    ensures Attended(s', e)
  {
    if s'.events[e].state && Sleeping(s', e) {
      var u :| u in s'.threads && Unnotified(s'.threads[u], e);
      assert u in s.threads && Unnotified(s.threads[u], e);
      if Signalling(s, e) {
        var v :| v in s.threads && s.threads[v] == SetSignal(e);
        assert v in s'.threads && s'.threads[v] == SetSignal(e);
      } else if s.events[e].autoReset && Woken(s, e) {
        var v :| v in s.threads && Notified(s.threads[v], e);
        assert v in s'.threads && Notified(s'.threads[v], e);
      }
    }
  }

  lemma GoAttended(s: State, t: nat, e: nat)
    requires Enabled(s, t, Go) && e in s.events && Attended(s, e)
    ensures e in GoFrom(s, t).events && Attended(GoFrom(s, t), e)
  {
    hide Attended;
    match s.threads[t]
    case SetLock(f) =>
      if f == e { Raised(GoFrom(s, t), e); } else { Ordinary(s, GoFrom(s, t), t, e); }
    case SetLoop(_, _) => SetAttended(s, t, e);
    case SetHold(_, _, _) => SetAttended(s, t, e);
    case HandOver(_, _) => SetAttended(s, t, e);
    case SetNotify(_, _, _) => SetAttended(s, t, e);
    case ResetLock(_) => Ordinary(s, GoFrom(s, t), t, e);
    case SingleLock(_, _) => Ordinary(s, GoFrom(s, t), t, e);
    case _ => WaitAttended(s, t, e);
  }

  lemma SetAttended(s: State, t: nat, e: nat)
    requires Enabled(s, t, Go) && e in s.events && Attended(s, e)
    requires var p := s.threads[t]; p.SetLoop? || p.SetHold? || p.HandOver? || p.SetNotify?
    ensures e in GoFrom(s, t).events && Attended(GoFrom(s, t), e)
  {
    hide Attended;
    Ordinary(s, GoFrom(s, t), t, e);
  }

  lemma WaitAttended(s: State, t: nat, e: nat)
    requires Enabled(s, t, Go) && e in s.events && Attended(s, e) && OwnWait(s.threads[t]).Some?
    ensures e in GoFrom(s, t).events && Attended(GoFrom(s, t), e)
  {
    hide Attended;
    Ordinary(s, GoFrom(s, t), t, e);
  }

  lemma Raised(s: State, e: nat)
    requires e in s.events && HeldBySetter(s, e)
    ensures Attended(s, e)
  {
  }

  // The signal reaches a sleeper: one of them, or all.
  lemma SignalAttended(s: State, t: nat, woken: set<nat>, e: nat)
    requires Enabled(s, t, Signal(woken)) && e in s.events && Attended(s, e)
    ensures Attended(GoSignal(s, t, woken), e)
  {
    var s' := GoSignal(s, t, woken);
    var f := s.threads[t].e;
    assert HeldBySetter(s, e) ==> HeldBySetter(s', e);
    if s'.events[e].state && Sleeping(s', e) {
      var u :| u in s'.threads && Unnotified(s'.threads[u], e);
      assert u in s.threads && Unnotified(s.threads[u], e) && u !in woken;
      if f == e {
        assert u in Sleepers(s, e);
        var v :| v in woken;
        assert v in Sleepers(s, e);
        assert Notified(s'.threads[v], e);
      } else if Signalling(s, e) {
        var v :| v in s.threads && s.threads[v] == SetSignal(e);
        assert s'.threads[v] == SetSignal(e);
      } else if s.events[e].autoReset && Woken(s, e) {
        var v :| v in s.threads && Notified(s.threads[v], e);
        assert Notified(s'.threads[v], e);
      }
    }
  }

  /** The time-out of t takes a signal for e along that others on an auto-reset event may need. */
  predicate Swallows(s: State, t: nat, a: Action, e: nat)
    requires t in s.threads && e in s.events
  {
    a.TimeOut? && Notified(s.threads[t], e) && s.events[e].autoReset
  }

  lemma StepAttended(s: State, t: nat, a: Action, e: nat)
    requires Enabled(s, t, a) && e in s.events && Attended(s, e) && !Swallows(s, t, a, e)
    ensures e in Next(s, t, a).events && Attended(Next(s, t, a), e)
  {
    hide Attended;
    match a
    case Go => GoAttended(s, t, e);
    case Signal(woken) => SignalAttended(s, t, woken, e);
    case Wake => WakeAttended(s, t, e);
    case _ => Ordinary(s, Next(s, t, a), t, e);
  }

  lemma WakeAttended(s: State, t: nat, e: nat)
    requires Enabled(s, t, Wake) && e in s.events && Attended(s, e)
    ensures e in Next(s, t, Wake).events && Attended(Next(s, t, Wake), e)
  {
    hide Attended;
    Ordinary(s, Next(s, t, Wake), t, e);
  }

  // ------------------------------------------------- when one is forgotten

  /** e is signalled and its mutex free, and u sleeps on it with nobody to wake it:
      no signal on e's condition is to come, and none is on its way to another sleeper. */
  ghost predicate Forgotten(s: State, e: nat, u: nat) {
    && e in s.events && s.events[e].state && s.events[e].owner.None?
    && u in s.threads && Unnotified(s.threads[u], e)
    && !Signalling(s, e) && !(s.events[e].autoReset && Woken(s, e))
  }

  /** Every WaitForEvent on e under way has one of these limits, and none with 0 sleeps. */
  ghost predicate Limited(s: State, e: nat, limits: set<Limit>) {
    forall t | t in s.threads && (s.threads[t].SingleLock? || s.threads[t].SingleAsleep?) && s.threads[t].e == e ::
      s.threads[t].limit in limits && (s.threads[t].SingleAsleep? ==> s.threads[t].limit != Zero)
  }

  lemma StepLimited(s: State, t: nat, a: Action, e: nat, limits: set<Limit>)
    requires Enabled(s, t, a) && Limited(s, e, limits) && Allowed(LimitsOn(e, limits), s, t, a)
    ensures Limited(Next(s, t, a), e, limits)
  {
    if a.Go? {
      GoFrame(s, t);
      if s.threads[t].SingleLock? { ZeroAwake(s, t); }
    }
    hide GoFrom;
  }

  lemma ZeroAwake(s: State, t: nat)
    requires Enabled(s, t, Go) && s.threads[t].SingleLock?
    ensures t in GoFrom(s, t).threads
    ensures GoFrom(s, t).threads[t].SingleAsleep? ==> s.threads[t].limit != Zero
  {
  }

  /** With no finite limit on an auto-reset event, or on a manual-reset one, no signal is swallowed. */
  predicate Patient(autoReset: bool, limits: set<Limit>) {
    autoReset ==> Finite !in limits
  }

  lemma {:induction false} InStepsLimited(s: State, n: nat, e: nat, limits: set<Limit>)
    requires InSteps(LimitsOn(e, limits), s, n)
    ensures Limited(s, e, limits)
    decreases n
  {
    if n > 0 {
      hide Limited, Enabled, Allowed, Next;
      var m, t, a :| InSteps(LimitsOn(e, limits), m, n - 1) && By(LimitsOn(e, limits), m, t, a, s);
      InStepsLimited(m, n - 1, e, limits);
      StepLimited(m, t, a, e, limits);
    } else {
      StartLimited(s, e, limits);
    }
  }

  lemma StartLimited(s: State, e: nat, limits: set<Limit>)
    requires Initial(s)
    ensures Limited(s, e, limits)
  {
  }

  lemma {:induction false} InStepsAttended(s: State, n: nat, e: nat, limits: set<Limit>)
    requires InSteps(LimitsOn(e, limits), s, n) && e in s.events && Patient(s.events[e].autoReset, limits)
    ensures Attended(s, e)
    decreases n
  {
    hide Attended, Limited, Enabled, Allowed, Next;
    if n == 0 {
      StartAttended(s, e);
    } else {
      var m, t, a :| InSteps(LimitsOn(e, limits), m, n - 1) && By(LimitsOn(e, limits), m, t, a, s);
      StepKinds(m, t, a);
      InStepsAttended(m, n - 1, e, limits);
      InStepsLimited(m, n - 1, e, limits);
      NotSwallowed(m, t, a, e, limits);
      StepAttended(m, t, a, e);
    }
  }

  lemma StartAttended(s: State, e: nat)
    requires Initial(s) && e in s.events
    ensures Attended(s, e)
  {
  }

  lemma NotSwallowed(s: State, t: nat, a: Action, e: nat, limits: set<Limit>)
    requires Enabled(s, t, a) && e in s.events && Limited(s, e, limits) && Patient(s.events[e].autoReset, limits)
    ensures !Swallows(s, t, a, e)
  {
  }

  /** If the limits of the calls on e are patient, a thread that sleeps on a
      signalled event is not forgotten. */
  lemma NoSleeperForgotten(s: State, u: nat, e: nat, limits: set<Limit>)
    requires ReachableBy(LimitsOn(e, limits), s) && e in s.events && Patient(s.events[e].autoReset, limits)
    ensures !Forgotten(s, e, u)
  {
    var n: nat :| InSteps(LimitsOn(e, limits), s, n);
    InStepsAttended(s, n, e, limits);
  }

  /** Calls of WaitForEvent with these limits can leave a thread asleep on a
      signalled event of this kind, in a call whose own limit is `own`. */
  ghost predicate CanStrand(autoReset: bool, limits: set<Limit>, own: Limit) {
    exists s, e, u ::
      && ReachableBy(LimitsOn(e, limits), s) && Forgotten(s, e, u)
      && e in s.events && s.events[e].autoReset == autoReset
      && u in s.threads && s.threads[u].SingleAsleep? && s.threads[u].limit == own
  }

  /** A time-out may come together with a signal and take it along; WaitForEvent
      does not look at State again then.  That leaves another sleeper behind if and
      only if the event is auto-reset, some call on it has a finite limit, and the
      sleeper's own limit is one of those used, and not 0. */
  lemma StrandedIff(autoReset: bool, limits: set<Limit>, own: Limit)
    ensures CanStrand(autoReset, limits, own) <==> autoReset && Finite in limits && own in limits && own != Zero
  {
    hide Forgotten, ReachableBy;
    if s, e, u :|
      && ReachableBy(LimitsOn(e, limits), s) && Forgotten(s, e, u)
      && e in s.events && s.events[e].autoReset == autoReset
      && u in s.threads && s.threads[u].SingleAsleep? && s.threads[u].limit == own
    {
      if Patient(autoReset, limits) { NoSleeperForgotten(s, u, e, limits); }
      OwnLimit(s, e, u, limits);
    }
    if autoReset && Finite in limits && own in limits && own != Zero {
      SwallowedReachable(limits, own);
      var s := Trio(SingleReturned(0, true), Dozing(own, false), Idle, true, None);
      assert Forgotten(s, 0, 1) by { BehindForgotten(own); }
    }
  }

  lemma OwnLimit(s: State, e: nat, u: nat, limits: set<Limit>)
    requires ReachableBy(LimitsOn(e, limits), s) && Forgotten(s, e, u)
    ensures u in s.threads && s.threads[u].SingleAsleep? && s.threads[u].limit in limits && s.threads[u].limit != Zero
  {
    var n: nat :| InSteps(LimitsOn(e, limits), s, n);
    InStepsLimited(s, n, e, limits);
  }

  /** Calls of WaitForEvent with these limits can leave some thread asleep on a signalled event of this kind. */
  ghost predicate CanForget(autoReset: bool, limits: set<Limit>) {
    exists s, e, u ::
      ReachableBy(LimitsOn(e, limits), s) && Forgotten(s, e, u) && e in s.events && s.events[e].autoReset == autoReset
  }

  /** Whatever its own limit: if and only if the event is auto-reset and some call
      on it has a finite limit. */
  lemma ForgottenIff(autoReset: bool, limits: set<Limit>)
    ensures CanForget(autoReset, limits) <==> autoReset && Finite in limits
  {
    hide Forgotten, ReachableBy;
    if s, e, u :|
      ReachableBy(LimitsOn(e, limits), s) && Forgotten(s, e, u) && e in s.events && s.events[e].autoReset == autoReset
    {
      if Patient(autoReset, limits) { NoSleeperForgotten(s, u, e, limits); }
    }
    if autoReset && Finite in limits { StrandedIff(autoReset, limits, Finite); }
  }

  // --------------------------- two sleepers, one signal, and a time-out

  function Dozing(limit: Limit, notified: bool): Pc {
    SingleAsleep(0, limit, notified)
  }

  function Trio(p: Pc, q: Pc, r: Pc, state: bool, owner: Option<nat>): State {
    State(map[0 := p, 1 := q, 2 := r],
          map[0 := Event(true, state, [], 0, owner, Ledger(if state then 1 else 0, 0, 0, 0, []))], [])
  }

  lemma BehindForgotten(own: Limit)
    ensures Forgotten(Trio(SingleReturned(0, true), Dozing(own, false), Idle, true, None), 0, 1)
  {
  }

  lemma Onto(limits: set<Limit>, s: State, t: nat, a: Action, s': State)
    requires ReachableBy(LimitsOn(0, limits), s)
    requires Enabled(s, t, a) && Next(s, t, a) == s' && (a.BeginSingle? ==> a.limit in limits)
    ensures ReachableBy(LimitsOn(0, limits), s')
  {
    StepBy(LimitsOn(0, limits), s, t, a);
  }

  lemma FirstSleeps(limits: set<Limit>)
    requires Finite in limits
    ensures ReachableBy(LimitsOn(0, limits), Trio(Dozing(Finite, false), Idle, Idle, false, None))
  {
    hide ReachableBy;
    var s0 := Trio(Idle, Idle, Idle, false, None);
    var s1 := Trio(SingleLock(0, Finite), Idle, Idle, false, None);
    Begins(LimitsOn(0, limits), s0);
    Onto(limits, s0, 0, BeginSingle(0, Finite), s1);
    Onto(limits, s1, 0, Go, Trio(Dozing(Finite, false), Idle, Idle, false, None));
  }

  lemma BothSleep(limits: set<Limit>, own: Limit)
    requires Finite in limits && own in limits && own != Zero
    ensures ReachableBy(LimitsOn(0, limits), Trio(Dozing(Finite, false), Dozing(own, false), Idle, false, None))
  {
    hide ReachableBy;
    var s2 := Trio(Dozing(Finite, false), Idle, Idle, false, None);
    var s3 := Trio(Dozing(Finite, false), SingleLock(0, own), Idle, false, None);
    FirstSleeps(limits);
    Onto(limits, s2, 1, BeginSingle(0, own), s3);
    Onto(limits, s3, 1, Go, Trio(Dozing(Finite, false), Dozing(own, false), Idle, false, None));
  }

  lemma SwallowedReachable(limits: set<Limit>, own: Limit)
    requires Finite in limits && own in limits && own != Zero
    ensures ReachableBy(LimitsOn(0, limits), Trio(SingleReturned(0, true), Dozing(own, false), Idle, true, None))
  {
    hide ReachableBy;
    var s4 := Trio(Dozing(Finite, false), Dozing(own, false), Idle, false, None);
    var s5 := Trio(Dozing(Finite, false), Dozing(own, false), SetLock(0), false, None);
    var s7 := Trio(Dozing(Finite, false), Dozing(own, false), SetSignal(0), true, None);
    var s8 := Trio(Dozing(Finite, true), Dozing(own, false), Idle, true, None);
    var s9 := Trio(SingleReturned(0, true), Dozing(own, false), Idle, true, None);
    BothSleep(limits, own);
    Onto(limits, s4, 2, BeginSet(0), s5);
    Sets(limits, own);
    OneRoused(own);
    Onto(limits, s7, 2, Signal({0}), s8);
    Onto(limits, s8, 0, TimeOut, s9);
  }

  lemma Sets(limits: set<Limit>, own: Limit)
    requires ReachableBy(LimitsOn(0, limits), Trio(Dozing(Finite, false), Dozing(own, false), SetLock(0), false, None))
    ensures ReachableBy(LimitsOn(0, limits), Trio(Dozing(Finite, false), Dozing(own, false), SetSignal(0), true, None))
  {
    hide ReachableBy;
    var s5 := Trio(Dozing(Finite, false), Dozing(own, false), SetLock(0), false, None);
    var s6 := Trio(Dozing(Finite, false), Dozing(own, false), SetLoop(0, false), true, Some(2));
    var s7 := Trio(Dozing(Finite, false), Dozing(own, false), SetSignal(0), true, None);
    Onto(limits, s5, 2, Go, s6);
    Onto(limits, s6, 2, Go, s7);
  }

  lemma OneRoused(own: Limit)
    ensures var s := Trio(Dozing(Finite, false), Dozing(own, false), SetSignal(0), true, None);
      Enabled(s, 2, Signal({0}))
      && Next(s, 2, Signal({0})) == Trio(Dozing(Finite, true), Dozing(own, false), Idle, true, None)
  {
    var s := Trio(Dozing(Finite, false), Dozing(own, false), SetSignal(0), true, None);
    assert 0 in Sleepers(s, 0);
  }
}
