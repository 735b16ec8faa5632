/** Threads asleep in WaitForMultipleEvents: once a wait is satisfied a signal is on its way to it. */
module Wakeups {
  import opened Records
  import opened Protocol
  import opened Invariant

  /** Some setter is about to signal the condition of wait w. */
  ghost predicate Signalled(s: State, w: nat) {
    exists t :: t in s.threads && Notifies(s.threads[t], w)
  }

  /** A wait that sleeps although it is satisfied has been signalled, or is about to be. */
  ghost predicate Heard(s: State, w: nat)
    requires w < |s.waiters|
  {
    PcOf(s, w) == Asleep(w) && Ready(s.waiters[w].rec) && !s.waiters[w].rec.notified ==> Signalled(s, w)
  }

  // A step of t that satisfies nobody's wait and signals no condition.
  lemma Ordinary(s: State, s': State, t: nat, w: nat)
    requires t in s.threads && t in s'.threads && s'.threads == s.threads[t := s'.threads[t]]
    requires w < |s.waiters| && w < |s'.waiters| && s'.waiters[w].thread == s.waiters[w].thread
    requires s'.threads[t] == Asleep(w) ==> !Ready(s'.waiters[w].rec)
    requires t != s.waiters[w].thread ==>
      && (Ready(s'.waiters[w].rec) ==> Ready(s.waiters[w].rec))
      && (s.waiters[w].rec.notified ==> s'.waiters[w].rec.notified)
    requires !Notifies(s.threads[t], w)
    requires Heard(s, w)
    ensures Heard(s', w)
  {
    if t != s.waiters[w].thread && Signalled(s, w) {
      var u :| u in s.threads && Notifies(s.threads[u], w);
      assert u in s'.threads && Notifies(s'.threads[u], w);
    }
  }

  lemma Given(s: State, t: nat, w: nat)
    requires w < |s.waiters| && t in s.threads && Notifies(s.threads[t], w)
    ensures Heard(s, w)
  {
  }

  lemma Arrived(s: State, w: nat)
    requires w < |s.waiters| && s.waiters[w].rec.notified
    ensures Heard(s, w)
  {
  }

  lemma WaitHeard(s: State, t: nat, w: nat)
    requires Enabled(s, t, Go) && OwnWait(s.threads[t]).Some? && w < |s.waiters| && Heard(s, w)
    requires OwnWait(s.threads[t]).value == w ==> s.waiters[w].thread == t
    ensures w < |GoFrom(s, t).waiters| && Heard(GoFrom(s, t), w)
  {
    hide Heard;
    Ordinary(s, GoFrom(s, t), t, w);
  }

  lemma SetHoldHeard(s: State, t: nat, w: nat)
    requires Enabled(s, t, Go) && s.threads[t].SetHold? && w < |s.waiters| && Heard(s, w)
    ensures w < |GoFrom(s, t).waiters| && Heard(GoFrom(s, t), w)
  {
    hide Heard;
    var s' := GoFrom(s, t);
    var x := s.threads[t].x;
    if x == w && s.waiters[x].rec.stillWaiting { Given(s', t, w); } else { Ordinary(s, s', t, w); }
  }

  lemma NotifyHeard(s: State, t: nat, w: nat)
    requires Enabled(s, t, Go) && (s.threads[t].HandOver? || s.threads[t].SetNotify?) && w < |s.waiters| && Heard(s, w)
    ensures w < |GoFrom(s, t).waiters| && Heard(GoFrom(s, t), w)
  {
    hide Heard;
    var s' := GoFrom(s, t);
    if s.threads[t].x == w { Arrived(s', w); } else { Ordinary(s, s', t, w); }
  }

  lemma GoHeard(s: State, t: nat, w: nat)
    requires Enabled(s, t, Go) && w < |s.waiters| && Heard(s, w)
    ensures w < |GoFrom(s, t).waiters| && Heard(GoFrom(s, t), w)
  {
    hide Heard;
    match s.threads[t]
    case SetHold(_, _, _) => SetHoldHeard(s, t, w);
    case HandOver(_, _) => NotifyHeard(s, t, w);
    case SetNotify(_, _, _) => NotifyHeard(s, t, w);
    case SetLock(_) => Ordinary(s, GoFrom(s, t), t, w);
    case SetLoop(_, _) => Ordinary(s, GoFrom(s, t), t, w);
    case ResetLock(_) => Ordinary(s, GoFrom(s, t), t, w);
    case SingleLock(_, _) => Ordinary(s, GoFrom(s, t), t, w);
    case _ => WaitHeard(s, t, w);
  }

  lemma SignalHeard(s: State, t: nat, woken: set<nat>, w: nat)
    requires Enabled(s, t, Signal(woken)) && w < |s.waiters| && Heard(s, w)
    ensures Heard(GoSignal(s, t, woken), w)
  {
    var s' := GoSignal(s, t, woken);
    if PcOf(s', w) == Asleep(w) && Signalled(s, w) {
      var u :| u in s.threads && Notifies(s.threads[u], w);
      assert u in s'.threads && Notifies(s'.threads[u], w);
    }
  }

  lemma StepHeard(s: State, t: nat, a: Action, w: nat)
    requires Enabled(s, t, a) && w < |s.waiters| && Heard(s, w)
    ensures w < |Next(s, t, a).waiters| && Heard(Next(s, t, a), w)
  {
    hide Heard;
    match a
    case Go => GoHeard(s, t, w);
    case Signal(woken) => SignalHeard(s, t, woken, w);
    case _ => Ordinary(s, Next(s, t, a), t, w);
  }

  // The wait that a call has just opened is not asleep.
  lemma OpenHeard(s: State, t: nat, a: Action, w: nat)
    requires Enabled(s, t, a) && w == |s.waiters| < |Next(s, t, a).waiters|
    ensures Heard(Next(s, t, a), w)
  {
  }

  ghost predicate AllHeard(s: State) {
    forall w: nat {:trigger Heard(s, w)} | w < |s.waiters| :: Heard(s, w)
  }

  lemma {:induction false} RunHeard(s: State, run: seq<Turn>, s': State)
    requires Leads(s, run, s') && AllHeard(s)
    ensures AllHeard(s')
    decreases |run|
  {
    hide Heard, Enabled, Next;
    if run != [] {
      var t, a := run[0].thread, run[0].action;
      var m := Next(s, t, a);
      forall w: nat | w < |m.waiters| ensures Heard(m, w) {
        if w < |s.waiters| { StepHeard(s, t, a, w); } else { OneMore(s, t, a); OpenHeard(s, t, a, w); }
      }
      RunHeard(m, run[1..], s');
    }
  }

  lemma OneMore(s: State, t: nat, a: Action)
    requires Enabled(s, t, a)
    ensures |s.waiters| <= |Next(s, t, a).waiters| <= |s.waiters| + 1
  {
  }

  /** In every reachable state. */
  lemma ReachableHeard(s: State, w: nat)
    requires Reachable(s) && w < |s.waiters|
    ensures Heard(s, w)
  {
    hide Heard;
    var s0, run :| Initial(s0) && Leads(s0, run, s);
    assert AllHeard(s0);
    RunHeard(s0, run, s);
  }
}
