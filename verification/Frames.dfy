/** What no step of a thread changes, and which steps can follow which. */
module Frames {
  import opened Records
  import opened Protocol

  ghost predicate SameWaits(ws: seq<Waiter>, ws': seq<Waiter>) {
    |ws'| == |ws| && forall w: nat | w < |ws| :: SameCall(ws[w], ws'[w])
  }

  /** Two records of one call. */
  predicate SameCall(v: Waiter, v': Waiter) {
    v'.thread == v.thread && v'.events == v.events && v'.limit == v.limit && v'.rec.waitAll == v.rec.waitAll
  }

  ghost predicate SameKinds(evs: map<nat, Event>, evs': map<nat, Event>) {
    evs'.Keys == evs.Keys && forall e | e in evs :: evs'[e].autoReset == evs[e].autoReset
  }

  predicate SamePlace(p: Pc, p': Pc) {
    p' == p || (p.SingleAsleep? && p'.SingleAsleep? && p'.e == p.e && p'.limit == p.limit)
  }

  /** Where a step of a call can lead. */
  predicate Follows(p: Pc, p': Pc) {
    && !p'.SingleLock? && !p'.ResetLock?
    && (p'.SingleAsleep? ==> p.SingleLock? && p'.e == p.e && p'.limit == p.limit)
    && (p'.HandOver? || p'.SetNotify? ==> p.SetHold? && p'.e == p.e && p'.x == p.x)
    && (p'.Asleep? ==> p == Check(p'.w))
    && (p'.SingleReturned? ==> p.SingleLock? && p'.e == p.e)
    && (p'.Check? ==> p.Register? && p'.w == p.w)
    && (p'.Returned? ==> p == Finish(p'.w, p'.timedOut))
  }

  /** A step of t in a call of its own. */
  ghost predicate Framed(s: State, s': State, t: nat)
    requires t in s.threads
  {
    && SameWaits(s.waiters, s'.waiters) && SameKinds(s.events, s'.events)
    && t in s'.threads && s'.threads == s.threads[t := s'.threads[t]] && Follows(s.threads[t], s'.threads[t])
  }

  lemma RegisterFrame(s: State, t: nat, w: nat, i: nat)
    requires t in s.threads && s.threads[t] == Register(w, i) && Mine(s, t, w) && i <= |s.waiters[w].events|
    ensures Framed(s, GoRegister(s, t, w, i), t)
  {
  }

  lemma CleanFrame(s: State, t: nat, w: nat, i: nat, e: nat, j: nat)
    requires t in s.threads && s.threads[t] == Clean(w, i, e, j) && Cleaning(s, t, w, i, e, j)
    ensures Framed(s, GoClean(s, t, w, i, e, j), t)
  {
  }

  lemma CleanHoldFrame(s: State, t: nat, w: nat, i: nat, e: nat, j: nat, x: nat)
    requires t in s.threads && s.threads[t] == CleanHold(w, i, e, j, x)
    requires e in s.events && j < |s.events[e].waits| && x < |s.waiters|
    ensures Framed(s, GoCleanHold(s, t, w, i, e, j, x), t)
  {
  }

  lemma SetLoopFrame(s: State, t: nat, e: nat, was: bool)
    requires t in s.threads && s.threads[t] == SetLoop(e, was) && Setting(s, t, e, was)
    ensures Framed(s, GoSetLoop(s, t, e, was), t)
  {
  }

  lemma SetHoldFrame(s: State, t: nat, e: nat, was: bool, x: nat)
    requires t in s.threads && s.threads[t] == SetHold(e, was, x)
    requires e in s.events && s.events[e].fired < |s.events[e].waits| && x < |s.waiters|
    ensures Framed(s, GoSetHold(s, t, e, was, x), t)
  {
  }

  lemma GoFrame(s: State, t: nat)
    requires Enabled(s, t, Go)
    ensures Framed(s, GoFrom(s, t), t)
  {
    match s.threads[t]
    case Register(w, i) => RegisterFrame(s, t, w, i);
    case Clean(w, i, e, j) => CleanFrame(s, t, w, i, e, j);
    case CleanHold(w, i, e, j, x) => CleanHoldFrame(s, t, w, i, e, j, x);
    case SetLoop(e, was) => SetLoopFrame(s, t, e, was);
    case SetHold(e, was, x) => SetHoldFrame(s, t, e, was, x);
    case _ =>
    hide GoRegister, GoClean, GoCleanHold, GoSetLoop, GoSetHold;
  }

  /** Whatever a thread does but begin a multi-wait. */
  lemma StepFrame(s: State, t: nat, a: Action)
    requires Enabled(s, t, a) && !a.BeginWait?
    ensures SameWaits(s.waiters, Next(s, t, a).waiters) && SameKinds(s.events, Next(s, t, a).events)
    ensures Next(s, t, a).threads.Keys == s.threads.Keys
    ensures forall u | u in s.threads && u != t :: SamePlace(s.threads[u], Next(s, t, a).threads[u])
  {
    if a.Go? { GoFrame(s, t); }
    hide GoFrom;
  }

  lemma StepKinds(s: State, t: nat, a: Action)
    requires Enabled(s, t, a)
    ensures SameKinds(s.events, Next(s, t, a).events)
  {
    if !a.BeginWait? { StepFrame(s, t, a); }
  }
}
