/** Runs of the protocol, put together step by step, and runs that keep to a rule. */
module Runs {
  import opened Records
  import opened Protocol
  import opened Invariant

  ghost predicate Leadable(s: State, s': State) {
    exists run :: Leads(s, run, s')
  }

  lemma {:induction false} LeadsOn(s: State, run: seq<Turn>, m: State, more: seq<Turn>, s': State)
    requires Leads(s, run, m) && Leads(m, more, s')
    ensures Leads(s, run + more, s')
    decreases |run|
  {
    hide Enabled, Next;
    if run == [] {
      assert run + more == more;
    } else {
      assert (run + more)[0] == run[0];
      LeadsOn(Next(s, run[0].thread, run[0].action), run[1..], m, more, s');
      assert (run + more)[1..] == run[1..] + more;
    }
  }

  lemma ThenLeads(s: State, m: State, s': State)
    requires Leadable(s, m) && Leadable(m, s')
    ensures Leadable(s, s')
  {
    var run :| Leads(s, run, m);
    var more :| Leads(m, more, s');
    LeadsOn(s, run, m, more, s');
  }

  lemma OneStep(s: State, t: nat, a: Action)
    requires Enabled(s, t, a)
    ensures Leadable(s, Next(s, t, a))
  {
    var run := [Turn(t, a)];
    assert Leads(Next(s, t, a), run[1..], Next(s, t, a));
    assert Leads(s, run, Next(s, t, a));
  }

  lemma StillReachable(s: State, s': State)
    requires Reachable(s) && Leadable(s, s')
    ensures Reachable(s')
  {
    var s0, run :| Initial(s0) && Leads(s0, run, s);
    var more :| Leads(s, more, s');
    LeadsOn(s0, run, s, more, s');
  }

  lemma LeadableOk(s: State, s': State)
    requires Inv(s) && Leadable(s, s')
    ensures Inv(s')
  {
    var run :| Leads(s, run, s');
    LeadsOk(s, run, s');
  }

  // ---------------------------------------------------------------- rules

  /** What a run may not do: wake up without a signal, or wait for e alone with other limits. */
  datatype Rule = Free | NoSpurious | LimitsOn(e: nat, limits: set<Limit>)

  /** A wake-up for which there has been no signal. */
  predicate Spurious(s: State, t: nat, a: Action)
    requires Enabled(s, t, a)
  {
    a.Wake? &&
    match s.threads[t]
    case Asleep(w) => !s.waiters[w].rec.notified
    case SingleAsleep(_, _, notified) => !notified
    case _ => false
  }

  predicate Allowed(rule: Rule, s: State, t: nat, a: Action)
    requires Enabled(s, t, a)
  {
    match rule
    case Free => true
    case NoSpurious => !Spurious(s, t, a)
    case LimitsOn(e, limits) => a.BeginSingle? && a.e == e ==> a.limit in limits
  }

  /** s is where some run by the rule gets in n steps. */
  ghost predicate InSteps(rule: Rule, s: State, n: nat)
    decreases n
  {
    if n == 0 then Initial(s)
    else exists m, t, a :: InSteps(rule, m, n - 1) && By(rule, m, t, a, s)
  }

  ghost predicate By(rule: Rule, m: State, t: nat, a: Action, s: State) {
    Enabled(m, t, a) && Allowed(rule, m, t, a) && s == Next(m, t, a)
  }

  ghost predicate ReachableBy(rule: Rule, s: State) {
    exists n :: InSteps(rule, s, n)
  }

  lemma Begins(rule: Rule, s: State)
    requires Initial(s)
    ensures ReachableBy(rule, s)
  {
    assert InSteps(rule, s, 0);
  }

  lemma StepBy(rule: Rule, s: State, t: nat, a: Action)
    requires ReachableBy(rule, s) && Enabled(s, t, a) && Allowed(rule, s, t, a)
    ensures ReachableBy(rule, Next(s, t, a))
  {
    hide Enabled, Allowed, Next;
    var n: nat :| InSteps(rule, s, n);
    assert By(rule, s, t, a, Next(s, t, a));
    assert InSteps(rule, Next(s, t, a), n + 1);
  }

  lemma {:induction false} InStepsReachable(rule: Rule, s: State, n: nat)
    requires InSteps(rule, s, n)
    ensures Reachable(s)
    decreases n
  {
    hide Enabled, Allowed, Next;
    if n == 0 {
      assert Leads(s, [], s);
    } else {
      var m, t, a :| InSteps(rule, m, n - 1) && By(rule, m, t, a, s);
      InStepsReachable(rule, m, n - 1);
      OneStep(m, t, a);
      StillReachable(m, s);
    }
  }

  /** Keeping to a rule only leaves runs out. */
  lemma ByReachable(rule: Rule, s: State)
    requires ReachableBy(rule, s)
    ensures Reachable(s)
  {
    var n: nat :| InSteps(rule, s, n);
    InStepsReachable(rule, s, n);
  }

  /** ... and without a rule nothing is left out. */
  lemma {:induction false} FreeRuns(s: State, run: seq<Turn>, s': State)
    requires Leads(s, run, s') && ReachableBy(Free, s)
    ensures ReachableBy(Free, s')
    decreases |run|
  {
    if run != [] {
      hide Next, ReachableBy;
      StepBy(Free, s, run[0].thread, run[0].action);
      FreeRuns(Next(s, run[0].thread, run[0].action), run[1..], s');
    }
  }

  lemma FreeReachable(s: State)
    ensures ReachableBy(Free, s) <==> Reachable(s)
  {
    if Reachable(s) {
      var s0, run :| Initial(s0) && Leads(s0, run, s);
      Begins(Free, s0);
      FreeRuns(s0, run, s);
    }
    if ReachableBy(Free, s) { ByReachable(Free, s); }
  }
}
