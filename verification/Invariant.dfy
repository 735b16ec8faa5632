/** What every step of the protocol keeps. */
module Invariant {
  import opened Records
  import opened Protocol

  /** Exactly the indices below n are listed or consumed. */
  ghost predicate Covers(v: Waiter, n: nat) {
    forall k: nat :: k in v.regs || k in v.got <==> k < n
  }

  ghost predicate Within(ks: set<nat>, n: nat) {
    forall k | k in ks :: k < n
  }

  ghost predicate ValidEntry(s: State, e: nat, n: Entry) {
    n.waiter < |s.waiters| && n.index < |s.waiters[n.waiter].events| && s.waiters[n.waiter].events[n.index] == e
  }

  ghost predicate HeldBySetter(s: State, e: nat)
    requires e in s.events
  {
    var o := s.events[e].owner;
    o.Some? && o.value in s.threads && SetsEvent(s.threads[o.value], e)
  }

  /** The program counter of the thread of wait w. */
  ghost function PcOf(s: State, w: nat): Pc
    requires w < |s.waiters|
  {
    var t := s.waiters[w].thread;
    if t in s.threads then s.threads[t] else Idle
  }

  /** That thread has not left the wait yet. */
  ghost predicate Active(s: State, w: nat)
    requires w < |s.waiters|
  {
    OwnWait(PcOf(s, w)) == Some(w)
  }

  /** The entries of an event's list that no setter has served yet. */
  ghost function Pending(ev: Event): seq<Entry> {
    if ev.fired <= |ev.waits| then ev.waits[ev.fired..] else []
  }

  ghost predicate Distinct(ns: seq<Entry>) {
    forall p, q | 0 <= p < q < |ns| :: ns[p] != ns[q]
  }

  ghost predicate ListOk(s: State, e: nat)
    requires e in s.events
  {
    var ev := s.events[e];
    && ev.fired <= |ev.waits|
    && (forall n | n in ev.waits :: ValidEntry(s, e, n))
    && (forall n | n in Pending(ev) :: Registered(s, n))
    && Distinct(Pending(ev))
  }

  ghost predicate Registered(s: State, n: Entry) {
    n.waiter < |s.waiters| && n.index in s.waiters[n.waiter].regs
  }

  ghost predicate Consumer(s: State, n: Entry) {
    n.waiter < |s.waiters| && n.index in s.waiters[n.waiter].got
  }

  // State, the list and the mutex of an event agree.
  ghost predicate StateOk(s: State, e: nat)
    requires e in s.events
  {
    var ev := s.events[e];
    && (ev.owner.Some? ==> ev.owner.value in s.threads && HoldsEvent(s.threads[ev.owner.value], e))
    && (ev.fired > 0 ==> !ev.autoReset && HeldBySetter(s, e))
    && (ev.state && ev.waits != [] ==> HeldBySetter(s, e))
  }

  /** The event is latched: State as everybody but a setter in progress sees it. */
  ghost predicate Latched(s: State, e: nat)
    requires e in s.events
  {
    if HeldBySetter(s, e) then s.threads[s.events[e].owner.value].was else s.events[e].state
  }

  // A grant is recorded once, by a wait that has consumed it.
  ghost predicate GrantsOk(s: State, e: nat)
    requires e in s.events
  {
    var l := s.events[e].ledger;
    && (forall n | n in l.grants :: ValidEntry(s, e, n) && Consumer(s, n))
    && Distinct(l.grants)
  }

  // Every signal sent to the event is accounted for.
  ghost predicate LedgerOk(s: State, e: nat)
    requires e in s.events
  {
    var ev := s.events[e];
    var l := ev.ledger;
    && GrantsOk(s, e)
    && (ev.autoReset ==>
          l.sets == l.merged + l.singles + l.cleared + |l.grants|
                    + (if Latched(s, e) then 1 else 0) + (if HeldBySetter(s, e) then 1 else 0))
  }

  ghost predicate Listed(s: State, n: Entry, e: nat) {
    e in s.events && n in Pending(s.events[e])
  }

  ghost predicate Granted(s: State, n: Entry, e: nat) {
    e in s.events && n in s.events[e].ledger.grants
  }

  // The record of a wait, by itself: references and consumption.
  ghost predicate CountsOk(v: Waiter, active: bool) {
    var r := v.rec;
    && Within(v.regs, |v.events|) && Within(v.got, |v.events|) && v.regs !! v.got
    && r.refCount == |v.regs| + (if active then 1 else 0)
    && (r.freed <==> r.refCount == 0)
    && (if r.waitAll then r.status == |v.events| - |v.got|
        else if r.status == -1 then v.got == {} else r.status >= 0 && v.got == {r.status})
  }

  // The lists and ledgers that a wait says mention it.
  ghost predicate LinksOk(s: State, w: nat)
    requires w < |s.waiters|
  {
    var v := s.waiters[w];
    && (forall k | 0 <= k < |v.events| :: v.events[k] in s.events)
    && (forall k | k in v.regs && k < |v.events| :: Listed(s, Entry(w, k), v.events[k]))
    && (forall k | k in v.got && k < |v.events| :: Granted(s, Entry(w, k), v.events[k]))
  }

  // How far the waiting thread is, and what it has been told.
  ghost predicate PhaseOk(v: Waiter, p: Pc) {
    match p
    case Register(_, i) => Joining(v, i)
    case Clean(_, i, _, _) => Joining(v, i)
    case CleanHold(_, i, _, _, _) => Joining(v, i)
    case Check(_) => Joined(v) && v.limit != Zero
    case Asleep(_) => Joined(v) && v.limit != Zero
    case Finish(_, timedOut) => if timedOut then Late(v) else Ready(v.rec)
    case _ => true
  }

  // Still registering: everything before i is either listed or consumed.
  ghost predicate Joining(v: Waiter, i: nat) {
    v.rec.stillWaiting && Covers(v, i) && (!v.rec.waitAll ==> v.rec.status == -1)
  }

  // Registered everywhere: a wait that still waits is listed wherever it lacks an event.
  ghost predicate Joined(v: Waiter) {
    && (v.rec.stillWaiting <==> (v.rec.waitAll || v.rec.status == -1))
    && (v.rec.stillWaiting ==> Covers(v, |v.events|))
  }

  ghost predicate EventOk(s: State, e: nat)
    requires e in s.events
  {
    ListOk(s, e) && StateOk(s, e) && LedgerOk(s, e)
  }

  ghost predicate WaiterOk(s: State, w: nat)
    requires w < |s.waiters|
  {
    var v := s.waiters[w];
    && CountsOk(v, Active(s, w))
    && LinksOk(s, w)
    && (v.owner.Some? ==> v.owner.value in s.threads && HoldsWaiter(s.threads[v.owner.value], w))
    && (if Active(s, w) then PhaseOk(v, PcOf(s, w)) else !v.rec.stillWaiting)
  }

  ghost predicate ThreadsOk(s: State) {
    forall t {:trigger PcOk(s, t)} | t in s.threads :: PcOk(s, t)
  }

  ghost predicate EventsOk(s: State) {
    forall e {:trigger EventOk(s, e)} | e in s.events :: EventOk(s, e)
  }

  ghost predicate WaitersOk(s: State) {
    forall w: nat {:trigger WaiterOk(s, w)} | w < |s.waiters| :: WaiterOk(s, w)
  }

  ghost predicate Inv(s: State) {
    ThreadsOk(s) && EventsOk(s) && WaitersOk(s)
  }

  lemma InitialOk(s: State)
    requires Initial(s)
    ensures Inv(s)
  {
  }

  // ------------------------------------------------------------- frames

  /** s' follows s by a step of thread t that changes no event outside es and no
      wait outside ws, takes no entry off a list but those in gone, and leaves
      alone whatever another thread has locked. */
  ghost predicate Touches(s: State, s': State, t: nat, es: set<nat>, ws: set<nat>, gone: set<Entry>) {
    && t in s.threads && s'.threads.Keys == s.threads.Keys
    && (forall u {:trigger s'.threads[u]} | u in s.threads && u != t :: s'.threads[u] == s.threads[u])
    && s'.events.Keys == s.events.Keys
    && (forall e {:trigger s'.events[e]} | e in s.events ::
          if e in es then EventEvolves(s.events[e], s'.events[e], t, gone) else s'.events[e] == s.events[e])
    && |s.waiters| <= |s'.waiters|
    && (forall w {:trigger s'.waiters[w]} | 0 <= w < |s.waiters| ::
          if w in ws then WaiterEvolves(w, s.waiters[w], s'.waiters[w], t, gone) else s'.waiters[w] == s.waiters[w])
    && (forall n | n in gone :: n.waiter in ws && exists e :: e in es && ValidEntry(s, e, n))
    && PcEvolves(s.threads[t], s'.threads[t], es, ws)
    && (var o := OwnWait(s'.threads[t]); o.Some? ==> o.value in ws || o.value >= |s.waiters|)
  }

  ghost predicate EventEvolves(ev: Event, ev': Event, t: nat, gone: set<Entry>) {
    && ev'.autoReset == ev.autoReset
    && (ev.owner == None || ev.owner == Some(t))
    && ev.ledger.grants <= ev'.ledger.grants
    && forall n {:trigger n in Pending(ev')} :: n in Pending(ev) && n !in gone ==> n in Pending(ev')
  }

  ghost predicate WaiterEvolves(w: nat, v: Waiter, v': Waiter, t: nat, gone: set<Entry>) {
    && v'.thread == v.thread && v'.events == v.events && v'.limit == v.limit && v'.rec.waitAll == v.rec.waitAll
    && v.got <= v'.got
    && (v.owner == None || v.owner == Some(t))
    && (!v.rec.stillWaiting ==> !v'.rec.stillWaiting && v'.rec.status == v.rec.status)
    && forall k {:trigger k in v'.regs} :: k in v.regs && Entry(w, k) !in gone ==> k in v'.regs
  }

  // Locks and waits the step does not touch are the same before and after.
  ghost predicate PcEvolves(p: Pc, p': Pc, es: set<nat>, ws: set<nat>) {
    && (forall e {:trigger HoldsEvent(p, e)} | HoldsEvent(p, e) && e !in es ::
          HoldsEvent(p', e) && SetsEvent(p', e) == SetsEvent(p, e) && (SetsEvent(p, e) ==> p'.was == p.was))
    && (forall w {:trigger HoldsWaiter(p, w)} | HoldsWaiter(p, w) && w !in ws :: HoldsWaiter(p', w))
    && (OwnWait(p).Some? ==> OwnWait(p).value in ws)
  }

  lemma ThreadKept(s: State, s': State, t: nat, es: set<nat>, ws: set<nat>, gone: set<Entry>, u: nat)
    requires Touches(s, s', t, es, ws, gone) && u in s.threads && u != t && PcOk(s, u)
    ensures PcOk(s', u)
  {
  }

  lemma EventKept(s: State, s': State, t: nat, es: set<nat>, ws: set<nat>, gone: set<Entry>, e: nat)
    requires Touches(s, s', t, es, ws, gone) && e in s.events && e !in es && EventOk(s, e)
    ensures EventOk(s', e)
  {
    assert HeldBySetter(s', e) == HeldBySetter(s, e);
    assert Latched(s', e) == Latched(s, e);
    forall n | n in Pending(s.events[e]) ensures n !in gone {
      assert ValidEntry(s, e, n);
    }
    ListKept(s, s', t, es, ws, gone, e);
    GrantsKept(s, s', t, es, ws, gone, e);
  }

  lemma WaiterKept(s: State, s': State, t: nat, es: set<nat>, ws: set<nat>, gone: set<Entry>, w: nat)
    requires Touches(s, s', t, es, ws, gone) && w < |s.waiters| && w !in ws && WaiterOk(s, w)
    ensures WaiterOk(s', w)
  {
    assert Active(s', w) == Active(s, w);
    LinksKept(s, s', t, es, ws, gone, w);
  }

  /** The list of a touched event: nothing but what is gone leaves it. */
  lemma ListKept(s: State, s': State, t: nat, es: set<nat>, ws: set<nat>, gone: set<Entry>, e: nat)
    requires Touches(s, s', t, es, ws, gone) && e in s.events && ListOk(s, e)
    requires s'.events[e].fired <= |s'.events[e].waits| && Distinct(Pending(s'.events[e]))
    requires forall n | n in s'.events[e].waits :: n in s.events[e].waits
    requires forall n | n in Pending(s'.events[e]) :: n in Pending(s.events[e]) && n !in gone
    ensures ListOk(s', e)
  {
    forall n | n in Pending(s'.events[e]) ensures Registered(s', n) {
      assert Registered(s, n);
    }
    forall n | n in s'.events[e].waits ensures ValidEntry(s', e, n) {
      assert ValidEntry(s, e, n);
    }
  }

  /** The list of a touched event that a wait has joined. */
  lemma ListGrows(s: State, s': State, t: nat, es: set<nat>, ws: set<nat>, gone: set<Entry>, e: nat, n: Entry)
    requires Touches(s, s', t, es, ws, gone) && gone == {} && e in s.events && ListOk(s, e)
    requires s'.events[e].fired == s.events[e].fired && s'.events[e].waits == s.events[e].waits + [n]
    requires ValidEntry(s, e, n) && !Registered(s, n) && Registered(s', n)
    ensures ListOk(s', e)
  {
    var ns := Pending(s.events[e]);
    assert Pending(s'.events[e]) == ns + [n];
    forall m | m in ns ensures Registered(s', m) && m != n {
      assert Registered(s, m);
    }
    forall m | m in s'.events[e].waits ensures ValidEntry(s', e, m) {
      assert ValidEntry(s, e, m);
    }
  }

  /** The ledger of a touched event when nothing is granted: the tally is left to check. */
  lemma GrantsKept(s: State, s': State, t: nat, es: set<nat>, ws: set<nat>, gone: set<Entry>, e: nat)
    requires Touches(s, s', t, es, ws, gone) && e in s.events
    requires s'.events[e].ledger.grants == s.events[e].ledger.grants && GrantsOk(s, e)
    ensures GrantsOk(s', e)
  {
    forall n | n in s'.events[e].ledger.grants ensures ValidEntry(s', e, n) && Consumer(s', n) {
      assert ValidEntry(s, e, n) && Consumer(s, n);
    }
  }

  /** ... and when one is. */
  lemma GrantsGrow(s: State, s': State, t: nat, es: set<nat>, ws: set<nat>, gone: set<Entry>, e: nat, n: Entry)
    requires Touches(s, s', t, es, ws, gone) && e in s.events
    requires s'.events[e].ledger.grants == s.events[e].ledger.grants + [n] && GrantsOk(s, e)
    requires ValidEntry(s, e, n) && !Consumer(s, n) && Consumer(s', n)
    ensures GrantsOk(s', e)
  {
    forall m | m in s.events[e].ledger.grants ensures ValidEntry(s', e, m) && Consumer(s', m) && m != n {
      assert ValidEntry(s, e, m) && Consumer(s, m);
    }
  }

  /** The links of a touched wait: every one is an old one or newly made. */
  lemma LinksKept(s: State, s': State, t: nat, es: set<nat>, ws: set<nat>, gone: set<Entry>, w: nat)
    requires Touches(s, s', t, es, ws, gone) && w < |s.waiters| && LinksOk(s, w)
    requires forall k {:trigger k in s'.waiters[w].regs} | k in s'.waiters[w].regs && k < |s.waiters[w].events| ::
      (k in s.waiters[w].regs && Entry(w, k) !in gone) || Listed(s', Entry(w, k), s.waiters[w].events[k])
    requires forall k {:trigger k in s'.waiters[w].got} | k in s'.waiters[w].got && k < |s.waiters[w].events| ::
      k in s.waiters[w].got || Granted(s', Entry(w, k), s.waiters[w].events[k])
    ensures LinksOk(s', w)
  {
    var v := s.waiters[w];
    forall k | k in s'.waiters[w].regs && k < |v.events| ensures Listed(s', Entry(w, k), v.events[k]) {
      if k in v.regs { assert Listed(s, Entry(w, k), v.events[k]); }
    }
    forall k | k in s'.waiters[w].got && k < |v.events| ensures Granted(s', Entry(w, k), v.events[k]) {
      if k in v.got { assert Granted(s, Entry(w, k), v.events[k]); }
    }
  }

  /** Only what the step touched is left to check. */
  lemma StepKeeps(s: State, s': State, t: nat, es: set<nat>, ws: set<nat>, gone: set<Entry>)
    requires Inv(s) && Touches(s, s', t, es, ws, gone)
    requires PcOk(s', t)
    requires forall e {:trigger EventOk(s', e)} | e in es && e in s.events :: EventOk(s', e)
    requires forall w: nat {:trigger WaiterOk(s', w)} | w in ws || |s.waiters| <= w ::
      w < |s'.waiters| ==> WaiterOk(s', w)
    ensures Inv(s')
  {
    hide PcOk, EventOk, WaiterOk;
    forall u | u in s'.threads ensures PcOk(s', u) {
      assert PcOk(s, u);
      if u != t { ThreadKept(s, s', t, es, ws, gone, u); }
    }
    forall e | e in s'.events ensures EventOk(s', e) {
      assert EventOk(s, e);
      if e !in es { EventKept(s, s', t, es, ws, gone, e); }
    }
    forall w: nat | w < |s'.waiters| ensures WaiterOk(s', w) {
      if w < |s.waiters| && w !in ws {
        assert WaiterOk(s, w);
        WaiterKept(s, s', t, es, ws, gone, w);
      }
    }
  }

  // ---------------------------------------- what a section does to a wait

  lemma SameKeeps(v: Waiter, v': Waiter, active: bool)
    requires CountsOk(v, active) && v'.events == v.events && v'.regs == v.regs && v'.got == v.got
    requires v'.rec == v.rec.(notified := v'.rec.notified)
    ensures CountsOk(v', active) && Ready(v'.rec) == Ready(v.rec) && (Joined(v) ==> Joined(v'))
  {
  }

  lemma OwnerKeeps(v: Waiter, owner: Option<nat>, active: bool, p: Pc)
    requires CountsOk(v, active)
    ensures CountsOk(v.(owner := owner), active) && PhaseOk(v.(owner := owner), p) == PhaseOk(v, p)
  {
  }

  lemma JoiningEnds(v: Waiter)
    ensures Joining(v, |v.events|) ==> Joined(v) && (!v.rec.waitAll ==> v.rec.status == -1)
  {
  }

  lemma NotYetConsumed(s: State, n: Entry, active: bool)
    requires Registered(s, n) && CountsOk(s.waiters[n.waiter], active)
    ensures !Consumer(s, n)
  {
  }

  lemma TakeCounts(v: Waiter, i: nat)
    requires CountsOk(v, true) && i !in v.regs && i !in v.got && i < |v.events|
    requires (!v.rec.waitAll ==> v.rec.status == -1)
    ensures CountsOk(v.(rec := Take(v.rec, i), got := v.got + {i}), true)
  {
    if !v.rec.waitAll { assert v.got + {i} == {i}; }
  }

  lemma TakeKeeps(v: Waiter, w: nat, i: nat)
    requires CountsOk(v, true) && Joining(v, i) && i < |v.events|
    ensures var v' := v.(rec := Take(v.rec, i), got := v.got + {i});
      CountsOk(v', true) && PhaseOk(v', if v.rec.waitAll then Register(w, i + 1) else Finish(w, false))
  {
    hide CountsOk;
    TakeCounts(v, i);
  }

  lemma EnlistKeeps(v: Waiter, i: nat)
    requires CountsOk(v, true) && Joining(v, i) && i < |v.events|
    ensures var v' := v.(rec := Enlist(v.rec), regs := v.regs + {i});
      CountsOk(v', true) && Joining(v', i + 1)
  {
  }

  lemma DiscardKeeps(v: Waiter, k: nat, active: bool, p: Pc)
    requires CountsOk(v, active) && k in v.regs && !v.rec.stillWaiting
    ensures var v' := v.(rec := Discard(v.rec), regs := v.regs - {k}, owner := None);
      CountsOk(v', active) && (PhaseOk(v, p) ==> PhaseOk(v', p))
  {
  }

  lemma GrantKeeps(v: Waiter, k: nat)
    requires CountsOk(v, true) && k in v.regs && v.rec.stillWaiting && Joined(v)
    ensures var v' := v.(rec := Hand(v.rec, k), owner := None, regs := v.regs - {k}, got := v.got + {k});
      CountsOk(v', true) && Joined(v')
  {
  }

  lemma CloseKeeps(v: Waiter)
    requires CountsOk(v, true)
    ensures CountsOk(v.(rec := Close(v.rec), owner := None), false)
  {
  }

  // ------------------------------------------------- one lemma a step

  lemma BeginWaitingOk(s: State, t: nat, es: seq<nat>, waitAll: bool, limit: Limit)
    requires Inv(s) && t in s.threads && AtRest(s.threads[t])
    requires forall k | 0 <= k < |es| :: es[k] in s.events
    ensures Inv(BeginWaiting(s, t, es, waitAll, limit))
  {
    var s' := BeginWaiting(s, t, es, waitAll, limit);
    assert CountsOk(s'.waiters[|s.waiters|], true) && Joining(s'.waiters[|s.waiters|], 0);
    hide CountsOk, Joining, Joined;
    assert WaiterOk(s', |s.waiters|);
    StepKeeps(s, s', t, {}, {}, {});
  }

  lemma LockEvent(s: State, s': State, t: nat, w: nat, i: nat, e: nat)
    requires t in s.threads && Mine(s, t, w) && s.threads[t] == Register(w, i) && i < |s.waiters[w].events|
    requires e == s.waiters[w].events[i] && s.events[e].owner.None? && s' == GoRegister(s, t, w, i)
    requires EventOk(s, e) && WaiterOk(s, w)
    ensures Touches(s, s', t, {e}, {w}, {}) && PcOk(s', t) && EventOk(s', e) && WaiterOk(s', w)
  {
    hide CountsOk, Joining;
    ListKept(s, s', t, {e}, {w}, {}, e);
    GrantsKept(s, s', t, {e}, {w}, {}, e);
    LinksKept(s, s', t, {e}, {w}, {}, w);
  }

  lemma LeaveLoop(s: State, s': State, t: nat, w: nat, i: nat)
    requires t in s.threads && Mine(s, t, w) && s.threads[t] == Register(w, i) && i == |s.waiters[w].events|
    requires s' == GoRegister(s, t, w, i) && WaiterOk(s, w)
    ensures Touches(s, s', t, {}, {w}, {}) && PcOk(s', t) && WaiterOk(s', w)
  {
    hide CountsOk, Joining, Joined;
    JoiningEnds(s.waiters[w]);
    LinksKept(s, s', t, {}, {w}, {}, w);
  }

  lemma GoRegisterOk(s: State, t: nat, w: nat, i: nat)
    requires Inv(s) && Enabled(s, t, Go) && s.threads[t] == Register(w, i)
    ensures Inv(GoRegister(s, t, w, i))
  {
    hide EventOk, WaiterOk, Touches;
    var s' := GoRegister(s, t, w, i);
    assert WaiterOk(s, w);
    if i < |s.waiters[w].events| {
      assert EventOk(s, s.waiters[w].events[i]);
      LockEvent(s, s', t, w, i, s.waiters[w].events[i]);
      StepKeeps(s, s', t, {s.waiters[w].events[i]}, {w}, {});
    } else {
      LeaveLoop(s, s', t, w, i);
      StepKeeps(s, s', t, {}, {w}, {});
    }
  }

  ghost predicate AtClean(s: State, t: nat, w: nat, i: nat, e: nat, j: nat) {
    t in s.threads && s.threads[t] == Clean(w, i, e, j) && Cleaning(s, t, w, i, e, j)
  }

  lemma StillJoining(s: State, t: nat, w: nat, i: nat, e: nat, j: nat)
    requires AtClean(s, t, w, i, e, j) && WaiterOk(s, w)
    ensures Joining(s.waiters[w], i) && s.waiters[w].rec.stillWaiting
  {
    hide CountsOk, LinksOk;
  }

  lemma TakeTouches(s: State, s': State, t: nat, w: nat, i: nat, e: nat, j: nat)
    requires AtClean(s, t, w, i, e, j) && s' == GoTake(s, t, w, i, e)
    requires s.waiters[w].rec.stillWaiting
    ensures |s'.waiters| == |s.waiters| && Touches(s, s', t, {e}, {w}, {}) && PcOk(s', t)
  {
  }

  lemma TakeEvent(s: State, s': State, t: nat, w: nat, i: nat, e: nat, j: nat)
    requires AtClean(s, t, w, i, e, j) && s' == GoTake(s, t, w, i, e) && s.events[e].state
    requires Touches(s, s', t, {e}, {w}, {})
    requires EventOk(s, e) && WaiterOk(s, w)
    ensures EventOk(s', e)
  {
    hide CountsOk, Touches;
    ListKept(s, s', t, {e}, {w}, {}, e);
    GrantsGrow(s, s', t, {e}, {w}, {}, e, Entry(w, i));
  }

  lemma TakeWaiter(s: State, s': State, t: nat, w: nat, i: nat, e: nat, j: nat)
    requires AtClean(s, t, w, i, e, j) && s' == GoTake(s, t, w, i, e) && s.events[e].state
    requires Touches(s, s', t, {e}, {w}, {})
    requires WaiterOk(s, w)
    ensures WaiterOk(s', w)
  {
    StillJoining(s, t, w, i, e, j);
    hide CountsOk, Touches, Joining, PhaseOk, Take;
    TakeKeeps(s.waiters[w], w, i);
    LinksKept(s, s', t, {e}, {w}, {}, w);
  }

  lemma GoTakeOk(s: State, t: nat, w: nat, i: nat, e: nat, j: nat)
    requires Inv(s) && AtClean(s, t, w, i, e, j) && s.events[e].state
    ensures Inv(GoTake(s, t, w, i, e))
  {
    hide EventOk, WaiterOk, Touches, PcOk;
    assert WaiterOk(s, w) && EventOk(s, e);
    StillJoining(s, t, w, i, e, j);
    var s' := GoTake(s, t, w, i, e);
    TakeTouches(s, s', t, w, i, e, j);
    TakeEvent(s, s', t, w, i, e, j);
    TakeWaiter(s, s', t, w, i, e, j);
    StepKeeps(s, s', t, {e}, {w}, {});
  }

  lemma EnlistTouches(s: State, s': State, t: nat, w: nat, i: nat, e: nat, j: nat)
    requires AtClean(s, t, w, i, e, j) && s' == GoEnlist(s, t, w, i, e)
    requires s.events[e].fired <= |s.events[e].waits|
    ensures |s'.waiters| == |s.waiters| && Touches(s, s', t, {e}, {w}, {}) && PcOk(s', t)
  {
    assert Pending(s'.events[e]) == Pending(s.events[e]) + [Entry(w, i)];
  }

  lemma EnlistEvent(s: State, s': State, t: nat, w: nat, i: nat, e: nat, j: nat)
    requires AtClean(s, t, w, i, e, j) && s' == GoEnlist(s, t, w, i, e) && !s.events[e].state
    requires Touches(s, s', t, {e}, {w}, {})
    requires EventOk(s, e) && WaiterOk(s, w)
    ensures EventOk(s', e)
  {
    hide CountsOk, Touches, LinksOk;
    GrantsKept(s, s', t, {e}, {w}, {}, e);
    ListGrows(s, s', t, {e}, {w}, {}, e, Entry(w, i));
  }

  lemma EnlistWaiter(s: State, s': State, t: nat, w: nat, i: nat, e: nat, j: nat)
    requires AtClean(s, t, w, i, e, j) && s' == GoEnlist(s, t, w, i, e)
    requires Touches(s, s', t, {e}, {w}, {})
    requires WaiterOk(s, w)
    requires s.events[e].fired <= |s.events[e].waits|
    ensures WaiterOk(s', w)
  {
    hide CountsOk, Touches, Joining, Ready, Enlist;
    EnlistKeeps(s.waiters[w], i);
    assert PcOf(s', w) == Register(w, i + 1);
    assert Pending(s'.events[e]) == Pending(s.events[e]) + [Entry(w, i)];
    LinksKept(s, s', t, {e}, {w}, {}, w);
  }

  lemma GoEnlistOk(s: State, t: nat, w: nat, i: nat, e: nat, j: nat)
    requires Inv(s) && AtClean(s, t, w, i, e, j) && !s.events[e].state
    ensures Inv(GoEnlist(s, t, w, i, e))
  {
    hide StateOk, LedgerOk, WaiterOk, Touches, PcOk;
    assert WaiterOk(s, w) && EventOk(s, e);
    var s' := GoEnlist(s, t, w, i, e);
    EnlistTouches(s, s', t, w, i, e, j);
    EnlistEvent(s, s', t, w, i, e, j);
    EnlistWaiter(s, s', t, w, i, e, j);
    StepKeeps(s, s', t, {e}, {w}, {});
  }

  lemma BusyWaiter(s: State, s': State, t: nat, w: nat, i: nat, e: nat, j: nat)
    requires AtClean(s, t, w, i, e, j) && s' == GoClean(s, t, w, i, e, j)
    requires j < |s.events[e].waits| && s.waiters[s.events[e].waits[j].waiter].owner.Some?
    requires WaiterOk(s, w)
    ensures |s'.waiters| == |s.waiters| && Touches(s, s', t, {}, {w}, {}) && PcOk(s', t) && WaiterOk(s', w)
  {
    hide CountsOk, Joining, Joined;
    LinksKept(s, s', t, {}, {w}, {}, w);
  }

  lemma TryTouches(s: State, s': State, t: nat, w: nat, i: nat, e: nat, j: nat, x: nat)
    requires AtClean(s, t, w, i, e, j) && s' == GoClean(s, t, w, i, e, j)
    requires j < |s.events[e].waits| && x == s.events[e].waits[j].waiter && s.waiters[x].owner.None?
    ensures |s'.waiters| == |s.waiters| && Touches(s, s', t, {}, {w, x}, {}) && PcOk(s', t)
  {
  }

  lemma TryWaiter(s: State, s': State, t: nat, w: nat, i: nat, e: nat, j: nat, x: nat)
    requires AtClean(s, t, w, i, e, j) && s' == GoClean(s, t, w, i, e, j)
    requires j < |s.events[e].waits| && x == s.events[e].waits[j].waiter && s.waiters[x].owner.None? && WaiterOk(s, x)
    requires WaiterOk(s, w)
    requires Touches(s, s', t, {}, {w, x}, {})
    ensures WaiterOk(s', w) && WaiterOk(s', x)
  {
    hide CountsOk, Joining, Joined, Touches;
    OwnerKeeps(s.waiters[x], Some(t), Active(s, x), PcOf(s, x));
    LinksKept(s, s', t, {}, {w, x}, {}, w);
    LinksKept(s, s', t, {}, {w, x}, {}, x);
  }

  lemma GoCleanOk(s: State, t: nat, w: nat, i: nat, e: nat, j: nat)
    requires Inv(s) && AtClean(s, t, w, i, e, j) && j < |s.events[e].waits|
    ensures Inv(GoClean(s, t, w, i, e, j))
  {
    hide EventOk, WaiterOk, Touches, PcOk, GoClean;
    var s' := GoClean(s, t, w, i, e, j);
    var x := s.events[e].waits[j].waiter;
    assert WaiterOk(s, w) && WaiterOk(s, x);
    if s.waiters[x].owner.Some? {
      BusyWaiter(s, s', t, w, i, e, j);
      StepKeeps(s, s', t, {}, {w}, {});
    } else {
      TryTouches(s, s', t, w, i, e, j, x);
      TryWaiter(s, s', t, w, i, e, j, x);
      StepKeeps(s, s', t, {}, {w, x}, {});
    }
  }

  lemma CheckTouches(s: State, s': State, t: nat, w: nat)
    requires t in s.threads && Mine(s, t, w) && s.threads[t] == Check(w) && s' == GoCheck(s, t, w)
    ensures |s'.waiters| == |s.waiters| && Touches(s, s', t, {}, {w}, {}) && PcOk(s', t)
  {
  }

  lemma CheckWaiter(s: State, s': State, t: nat, w: nat)
    requires t in s.threads && Mine(s, t, w) && s.threads[t] == Check(w) && s' == GoCheck(s, t, w)
    requires Touches(s, s', t, {}, {w}, {}) && WaiterOk(s, w)
    ensures WaiterOk(s', w)
  {
    hide CountsOk, Joined, Touches, Ready;
    SameKeeps(s.waiters[w], s'.waiters[w], true);
    LinksKept(s, s', t, {}, {w}, {}, w);
  }

  lemma GoCheckOk(s: State, t: nat, w: nat)
    requires Inv(s) && t in s.threads && Mine(s, t, w) && s.threads[t] == Check(w)
    ensures Inv(GoCheck(s, t, w))
  {
    hide WaiterOk, Touches;
    assert WaiterOk(s, w);
    CheckTouches(s, GoCheck(s, t, w), t, w);
    CheckWaiter(s, GoCheck(s, t, w), t, w);
    StepKeeps(s, GoCheck(s, t, w), t, {}, {w}, {});
  }

  lemma GoFinishOk(s: State, t: nat, w: nat, timedOut: bool)
    requires Inv(s) && t in s.threads && Mine(s, t, w) && s.threads[t] == Finish(w, timedOut)
    ensures Inv(GoFinish(s, t, w, timedOut))
  {
    hide CountsOk;
    var s' := GoFinish(s, t, w, timedOut);
    assert WaiterOk(s, w);
    CloseKeeps(s.waiters[w]);
    LinksKept(s, s', t, {}, {w}, {}, w);
    StepKeeps(s, s', t, {}, {w}, {});
  }

  lemma WakenWaiter(s: State, s': State, t: nat, w: nat, next: Pc)
    requires t in s.threads && s.threads[t] == Asleep(w) && w < |s.waiters| && s'  == GoWaken(s, t, w, next)
    requires s.waiters[w].thread == t && s.waiters[w].owner.None? && WaiterOk(s, w)
    requires next == Check(w) || (next == Finish(w, true) && s.waiters[w].limit == Finite)
    ensures |s'.waiters| == |s.waiters| && Touches(s, s', t, {}, {w}, {}) && PcOk(s', t) && WaiterOk(s', w)
  {
    hide CountsOk, Joined;
    SameKeeps(s.waiters[w], s'.waiters[w], true);
    LinksKept(s, s', t, {}, {w}, {}, w);
  }

  lemma GoWakenOk(s: State, t: nat, w: nat, next: Pc)
    requires Inv(s) && t in s.threads && s.threads[t] == Asleep(w) && w < |s.waiters|
    requires s.waiters[w].thread == t && s.waiters[w].owner.None?
    requires next == Check(w) || (next == Finish(w, true) && s.waiters[w].limit == Finite)
    ensures Inv(GoWaken(s, t, w, next))
  {
    hide WaiterOk, Touches, GoWaken;
    assert WaiterOk(s, w);
    WakenWaiter(s, GoWaken(s, t, w, next), t, w, next);
    StepKeeps(s, GoWaken(s, t, w, next), t, {}, {w}, {});
  }

  lemma GoSetLockOk(s: State, t: nat, e: nat)
    requires Inv(s) && t in s.threads && s.threads[t] == SetLock(e) && e in s.events && s.events[e].owner.None?
    ensures Inv(GoSetLock(s, t, e))
  {
    var s' := GoSetLock(s, t, e);
    assert EventOk(s, e);
    ListKept(s, s', t, {e}, {}, {}, e);
    GrantsKept(s, s', t, {e}, {}, {}, e);
    StepKeeps(s, s', t, {e}, {}, {});
  }

  ghost predicate AtSet(s: State, t: nat, e: nat, was: bool) {
    t in s.threads && s.threads[t] == SetLoop(e, was) && Setting(s, t, e, was)
  }

  lemma LockEntry(s: State, s': State, t: nat, e: nat, was: bool, x: nat)
    requires AtSet(s, t, e, was) && s.events[e].fired < |s.events[e].waits| && s' == GoSetLoop(s, t, e, was)
    requires x == s.events[e].waits[s.events[e].fired].waiter && s.waiters[x].owner.None? && WaiterOk(s, x)
    ensures |s'.waiters| == |s.waiters| && Touches(s, s', t, {}, {x}, {}) && PcOk(s', t) && WaiterOk(s', x)
  {
    hide CountsOk, Joining, Joined;
    OwnerKeeps(s.waiters[x], Some(t), Active(s, x), PcOf(s, x));
    LinksKept(s, s', t, {}, {x}, {}, x);
  }

  lemma EndSet(s: State, s': State, t: nat, e: nat, was: bool)
    requires AtSet(s, t, e, was) && s.events[e].fired == |s.events[e].waits| && s' == GoSetLoop(s, t, e, was)
    requires EventOk(s, e)
    ensures Touches(s, s', t, {e}, {}, {}) && PcOk(s', t) && EventOk(s', e)
  {
    ListKept(s, s', t, {e}, {}, {}, e);
    GrantsKept(s, s', t, {e}, {}, {}, e);
  }

  lemma GoSetLoopOk(s: State, t: nat, e: nat, was: bool)
    requires Inv(s) && Enabled(s, t, Go) && s.threads[t] == SetLoop(e, was)
    ensures Inv(GoSetLoop(s, t, e, was))
  {
    hide EventOk, WaiterOk, Touches;
    var s' := GoSetLoop(s, t, e, was);
    if s.events[e].fired < |s.events[e].waits| {
      var x := s.events[e].waits[s.events[e].fired].waiter;
      assert WaiterOk(s, x);
      LockEntry(s, s', t, e, was, x);
      StepKeeps(s, s', t, {}, {x}, {});
    } else {
      assert EventOk(s, e);
      EndSet(s, s', t, e, was);
      StepKeeps(s, s', t, {e}, {}, {});
    }
  }

  lemma GoResetOk(s: State, t: nat, e: nat)
    requires Inv(s) && t in s.threads && s.threads[t] == ResetLock(e) && e in s.events && s.events[e].owner.None?
    ensures Inv(GoReset(s, t, e))
  {
    var s' := GoReset(s, t, e);
    assert EventOk(s, e);
    ListKept(s, s', t, {e}, {}, {}, e);
    GrantsKept(s, s', t, {e}, {}, {}, e);
    StepKeeps(s, s', t, {e}, {}, {});
  }

  lemma SingleEvent(s: State, s': State, t: nat, e: nat, idle: Pc)
    requires t in s.threads && e in s.events && s.events[e].owner.None? && s' == GoSingle(s, t, e, idle)
    requires EventOk(s, e)
    requires s.threads[t].SingleLock? || s.threads[t].SingleAsleep?
    requires idle == SingleReturned(e, true) || (idle.SingleAsleep? && idle.e == e)
    ensures |s'.waiters| == |s.waiters| && Touches(s, s', t, {e}, {}, {}) && PcOk(s', t) && EventOk(s', e)
  {
    hide Distinct;
    ListKept(s, s', t, {e}, {}, {}, e);
    GrantsKept(s, s', t, {e}, {}, {}, e);
  }

  lemma GoSingleOk(s: State, t: nat, e: nat, idle: Pc)
    requires Inv(s) && t in s.threads && e in s.events && s.events[e].owner.None?
    requires s.threads[t].SingleLock? || s.threads[t].SingleAsleep?
    requires idle == SingleReturned(e, true) || (idle.SingleAsleep? && idle.e == e)
    ensures Inv(GoSingle(s, t, e, idle))
  {
    hide EventOk, Touches, GoSingle;
    var s' := GoSingle(s, t, e, idle);
    assert EventOk(s, e);
    SingleEvent(s, s', t, e, idle);
    StepKeeps(s, s', t, {e}, {}, {});
  }

  lemma MoveOk(s: State, t: nat, p: Pc)
    requires Inv(s) && t in s.threads
    requires AtRest(s.threads[t]) || s.threads[t].SingleLock? || s.threads[t].SingleAsleep? || s.threads[t].SetSignal?
    requires p.SetLock? || p.ResetLock? || p.SingleLock? || p.SingleAsleep? || p.SingleReturned? || p.Idle?
    requires p.Idle? || p.e in s.events
    ensures Inv(Move(s, t, p))
  {
    StepKeeps(s, Move(s, t, p), t, {}, {}, {});
  }

  // ------------------------------------- the two steps that take an entry off

  /** A list without its entry j. */
  ghost function Without(ns: seq<Entry>, j: nat): seq<Entry>
    requires j < |ns|
  {
    ns[..j] + ns[j + 1..]
  }

  lemma WithoutKeeps(ns: seq<Entry>, j: nat)
    requires j < |ns|
    ensures forall n | n in Without(ns, j) :: n in ns
    ensures forall n | n in ns && n != ns[j] :: n in Without(ns, j)
    ensures Distinct(ns) ==> Distinct(Without(ns, j)) && ns[j] !in Without(ns, j)
  {
    var ms := Without(ns, j);
    forall n | n in ns && n != ns[j] ensures n in ms {
      var p :| 0 <= p < |ns| && ns[p] == n;
      assert ms[if p < j then p else p - 1] == n;
    }
  }

  ghost predicate AtCleanHold(s: State, t: nat, w: nat, i: nat, e: nat, j: nat, x: nat) {
    t in s.threads && s.threads[t] == CleanHold(w, i, e, j, x) && PcOk(s, t)
  }

  lemma SpareTouches(s: State, s': State, t: nat, w: nat, i: nat, e: nat, j: nat, x: nat)
    requires AtCleanHold(s, t, w, i, e, j, x) && s' == GoCleanHold(s, t, w, i, e, j, x) && s.waiters[x].rec.stillWaiting
    ensures |s'.waiters| == |s.waiters| && Touches(s, s', t, {}, {w, x}, {}) && PcOk(s', t)
  {
  }

  lemma SpareWaiters(s: State, s': State, t: nat, w: nat, i: nat, e: nat, j: nat, x: nat)
    requires AtCleanHold(s, t, w, i, e, j, x) && s' == GoCleanHold(s, t, w, i, e, j, x) && s.waiters[x].rec.stillWaiting
    requires Touches(s, s', t, {}, {w, x}, {}) && WaiterOk(s, w) && WaiterOk(s, x)
    ensures WaiterOk(s', w) && WaiterOk(s', x)
  {
    hide CountsOk, Joining, Joined, Touches;
    OwnerKeeps(s.waiters[x], None, Active(s, x), PcOf(s, x));
    LinksKept(s, s', t, {}, {w, x}, {}, w);
    LinksKept(s, s', t, {}, {w, x}, {}, x);
  }

  lemma DropTouches(s: State, s': State, t: nat, w: nat, i: nat, e: nat, j: nat, x: nat)
    requires AtCleanHold(s, t, w, i, e, j, x) && s' == GoCleanHold(s, t, w, i, e, j, x)
    requires !s.waiters[x].rec.stillWaiting
    requires EventOk(s, e)
    ensures |s'.waiters| == |s.waiters| && Touches(s, s', t, {e}, {w, x}, {s.events[e].waits[j]}) && PcOk(s', t)
  {
    hide LedgerOk;
    WithoutKeeps(s.events[e].waits, j);
  }

  lemma DropEvent(s: State, s': State, t: nat, w: nat, i: nat, e: nat, j: nat, x: nat)
    requires AtCleanHold(s, t, w, i, e, j, x) && s' == GoCleanHold(s, t, w, i, e, j, x)
    requires !s.waiters[x].rec.stillWaiting
    requires Touches(s, s', t, {e}, {w, x}, {s.events[e].waits[j]})
    requires EventOk(s, e)
    ensures EventOk(s', e)
  {
    hide CountsOk, Joining, Joined, LinksOk, Touches;
    WithoutKeeps(s.events[e].waits, j);
    ListKept(s, s', t, {e}, {w, x}, {s.events[e].waits[j]}, e);
    GrantsKept(s, s', t, {e}, {w, x}, {s.events[e].waits[j]}, e);
  }

  lemma DropCleaner(s: State, s': State, t: nat, w: nat, i: nat, e: nat, j: nat, x: nat)
    requires AtCleanHold(s, t, w, i, e, j, x) && s' == GoCleanHold(s, t, w, i, e, j, x)
    requires !s.waiters[x].rec.stillWaiting
    requires Touches(s, s', t, {e}, {w, x}, {s.events[e].waits[j]}) && WaiterOk(s, w)
    ensures WaiterOk(s', w)
  {
    hide CountsOk, Joining, Touches;
    LinksKept(s, s', t, {e}, {w, x}, {s.events[e].waits[j]}, w);
  }

  lemma DropWaiter(s: State, s': State, t: nat, w: nat, i: nat, e: nat, j: nat, x: nat)
    requires AtCleanHold(s, t, w, i, e, j, x) && s' == GoCleanHold(s, t, w, i, e, j, x)
    requires !s.waiters[x].rec.stillWaiting
    requires Touches(s, s', t, {e}, {w, x}, {s.events[e].waits[j]}) && ListOk(s, e) && s.events[e].fired == 0
    requires WaiterOk(s, x)
    ensures WaiterOk(s', x)
  {
    hide CountsOk, Touches, PhaseOk;
    var n := s.events[e].waits[j];
    assert Registered(s, n) && ValidEntry(s, e, n);
    DiscardKeeps(s.waiters[x], n.index, Active(s, x), PcOf(s, x));
    LinksKept(s, s', t, {e}, {w, x}, {n}, x);
  }

  lemma GoCleanHoldOk(s: State, t: nat, w: nat, i: nat, e: nat, j: nat, x: nat)
    requires Inv(s) && AtCleanHold(s, t, w, i, e, j, x)
    ensures Inv(GoCleanHold(s, t, w, i, e, j, x))
  {
    hide ListOk, LedgerOk, WaiterOk, Touches;
    assert EventOk(s, e) && WaiterOk(s, w) && WaiterOk(s, x);
    var s' := GoCleanHold(s, t, w, i, e, j, x);
    if s.waiters[x].rec.stillWaiting {
      SpareTouches(s, s', t, w, i, e, j, x);
      SpareWaiters(s, s', t, w, i, e, j, x);
      StepKeeps(s, s', t, {}, {w, x}, {});
    } else {
      DropTouches(s, s', t, w, i, e, j, x);
      DropEvent(s, s', t, w, i, e, j, x);
      DropCleaner(s, s', t, w, i, e, j, x);
      DropWaiter(s, s', t, w, i, e, j, x);
      StepKeeps(s, s', t, {e}, {w, x}, {s.events[e].waits[j]});
    }
  }

  ghost predicate AtSetHold(s: State, t: nat, e: nat, was: bool, x: nat) {
    t in s.threads && s.threads[t] == SetHold(e, was, x) && PcOk(s, t)
  }

  ghost function Current(ev: Event): Entry
    requires ev.fired < |ev.waits|
  {
    ev.waits[ev.fired]
  }

  lemma ServedKeeps(ev: Event)
    requires ev.fired < |ev.waits| && Distinct(Pending(ev))
    ensures Served(ev).fired <= |Served(ev).waits| && Pending(Served(ev)) == Pending(ev)[1..]
    ensures Distinct(Pending(Served(ev))) && Current(ev) !in Pending(Served(ev))
    ensures forall n | n in Served(ev).waits :: n in ev.waits
    ensures forall n | n in Pending(Served(ev)) :: n in Pending(ev)
    ensures forall n | n in Pending(ev) && n != Current(ev) :: n in Pending(Served(ev))
  {
    assert Pending(ev) == [Current(ev)] + Pending(ev)[1..];
    assert Pending(Served(ev)) == Pending(ev)[1..];
    if ev.autoReset { WithoutKeeps(ev.waits, ev.fired); }
  }

  lemma SamePending(ev: Event, ev': Event)
    requires ev.waits == ev'.waits && ev.fired == ev'.fired
    ensures Pending(ev) == Pending(ev')
  {
  }

  lemma ServeTouches(s: State, s': State, t: nat, e: nat, was: bool, x: nat)
    requires AtSetHold(s, t, e, was, x) && s' == GoSetHold(s, t, e, was, x) && !s.waiters[x].rec.stillWaiting
    requires EventOk(s, e)
    ensures |s'.waiters| == |s.waiters| && Touches(s, s', t, {e}, {x}, {Current(s.events[e])}) && PcOk(s', t)
  {
    hide StateOk, LedgerOk;
    ServedKeeps(s.events[e]);
    hide Served, Pending, Distinct;
  }

  lemma GrantPc(s: State, s': State, t: nat, e: nat, was: bool, x: nat)
    requires AtSetHold(s, t, e, was, x) && s' == GoSetHold(s, t, e, was, x) && s.waiters[x].rec.stillWaiting
    ensures PcOk(s', t) && PcEvolves(s.threads[t], s'.threads[t], {e}, {x}) && OwnWait(s'.threads[t]) == None
  {
  }

  lemma GrantEvolves(s: State, s': State, t: nat, e: nat, was: bool, x: nat)
    requires AtSetHold(s, t, e, was, x) && s' == GoSetHold(s, t, e, was, x) && s.waiters[x].rec.stillWaiting
    requires ListOk(s, e)
    ensures EventEvolves(s.events[e], s'.events[e], t, {Current(s.events[e])})
    ensures WaiterEvolves(x, s.waiters[x], s'.waiters[x], t, {Current(s.events[e])})
  {
    ServedKeeps(s.events[e]);
    assert Pending(s'.events[e]) == Pending(Served(s.events[e])) by {
      hide Served;
      SamePending(s'.events[e], Served(s.events[e]));
    }
    hide Served, Pending, Distinct;
  }

  lemma GrantTouches(s: State, s': State, t: nat, e: nat, was: bool, x: nat)
    requires AtSetHold(s, t, e, was, x) && s' == GoSetHold(s, t, e, was, x) && s.waiters[x].rec.stillWaiting
    requires ListOk(s, e)
    ensures |s'.waiters| == |s.waiters| && Touches(s, s', t, {e}, {x}, {Current(s.events[e])}) && PcOk(s', t)
  {
    assert ValidEntry(s, e, Current(s.events[e]));
    GrantPc(s, s', t, e, was, x);
    GrantEvolves(s, s', t, e, was, x);
    hide ListOk, EventEvolves, WaiterEvolves, PcEvolves, Served;
  }

  lemma ServeEvent(s: State, s': State, t: nat, e: nat, was: bool, x: nat)
    requires AtSetHold(s, t, e, was, x) && s' == GoSetHold(s, t, e, was, x) && !s.waiters[x].rec.stillWaiting
    requires Touches(s, s', t, {e}, {x}, {Current(s.events[e])})
    requires EventOk(s, e)
    ensures EventOk(s', e)
  {
    var n := Current(s.events[e]);
    ServeList(s, s', t, e, was, x);
    ServeState(s, s', t, e, was, x);
    hide Touches, Served, Pending, Distinct, ListOk, StateOk;
    GrantsKept(s, s', t, {e}, {x}, {n}, e);
  }

  lemma ServeList(s: State, s': State, t: nat, e: nat, was: bool, x: nat)
    requires AtSetHold(s, t, e, was, x) && s' == GoSetHold(s, t, e, was, x) && !s.waiters[x].rec.stillWaiting
    requires Touches(s, s', t, {e}, {x}, {Current(s.events[e])}) && ListOk(s, e)
    ensures ListOk(s', e)
  {
    ServedKeeps(s.events[e]);
    hide Touches, Served, Distinct, Pending;
    ListKept(s, s', t, {e}, {x}, {Current(s.events[e])}, e);
  }

  lemma ServeState(s: State, s': State, t: nat, e: nat, was: bool, x: nat)
    requires AtSetHold(s, t, e, was, x) && s' == GoSetHold(s, t, e, was, x) && !s.waiters[x].rec.stillWaiting
    requires StateOk(s, e)
    ensures e in s'.events && StateOk(s', e) && Latched(s', e) == Latched(s, e)
    ensures HeldBySetter(s', e) == HeldBySetter(s, e)
  {
  }

  lemma GrantList(s: State, s': State, t: nat, e: nat, was: bool, x: nat)
    requires AtSetHold(s, t, e, was, x) && s' == GoSetHold(s, t, e, was, x) && s.waiters[x].rec.stillWaiting
    requires Touches(s, s', t, {e}, {x}, {Current(s.events[e])}) && ListOk(s, e)
    ensures ListOk(s', e)
  {
    ServedKeeps(s.events[e]);
    hide Touches, Served, Distinct, Pending;
    assert s'.events[e].waits == Served(s.events[e]).waits && s'.events[e].fired == Served(s.events[e]).fired;
    assert Pending(s'.events[e]) == Pending(Served(s.events[e])) by { SamePending(s'.events[e], Served(s.events[e])); }
    ListKept(s, s', t, {e}, {x}, {Current(s.events[e])}, e);
  }

  lemma GrantState(s: State, s': State, t: nat, e: nat, was: bool, x: nat)
    requires AtSetHold(s, t, e, was, x) && s' == GoSetHold(s, t, e, was, x) && s.waiters[x].rec.stillWaiting
    requires StateOk(s, e)
    ensures e in s'.events && StateOk(s', e)
  {
  }

  lemma GrantLedger(s: State, s': State, t: nat, e: nat, was: bool, x: nat)
    requires AtSetHold(s, t, e, was, x) && s' == GoSetHold(s, t, e, was, x) && s.waiters[x].rec.stillWaiting
    requires Touches(s, s', t, {e}, {x}, {Current(s.events[e])}) && EventOk(s, e)
    requires CountsOk(s.waiters[x], Active(s, x))
    ensures LedgerOk(s', e)
  {
    hide Touches, CountsOk, Distinct;
    var n := Current(s.events[e]);
    assert Registered(s, n) && ValidEntry(s, e, n);
    NotYetConsumed(s, n, Active(s, x));
    GrantsGrow(s, s', t, {e}, {x}, {n}, e, n);
  }

  /** A wait that still waits and is locked by a setter is asleep. */
  lemma HeldAsleep(s: State, t: nat, e: nat, was: bool, x: nat)
    requires ThreadsOk(s) && AtSetHold(s, t, e, was, x) && s.waiters[x].rec.stillWaiting
    requires WaiterOk(s, x)
    ensures PcOf(s, x) == Asleep(x)
  {
    assert PcOk(s, s.waiters[x].thread);
  }

  lemma ServeWaiter(s: State, s': State, t: nat, e: nat, was: bool, x: nat)
    requires AtSetHold(s, t, e, was, x) && s' == GoSetHold(s, t, e, was, x) && !s.waiters[x].rec.stillWaiting
    requires Touches(s, s', t, {e}, {x}, {Current(s.events[e])})
    requires EventOk(s, e) && WaiterOk(s, x)
    ensures WaiterOk(s', x)
  {
    hide CountsOk, Touches, PhaseOk;
    var n := Current(s.events[e]);
    assert Registered(s, n) && ValidEntry(s, e, n);
    DiscardKeeps(s.waiters[x], n.index, Active(s, x), PcOf(s, x));
    LinksKept(s, s', t, {e}, {x}, {n}, x);
  }

  lemma GrantWaiter(s: State, s': State, t: nat, e: nat, was: bool, x: nat)
    requires AtSetHold(s, t, e, was, x) && s' == GoSetHold(s, t, e, was, x) && s.waiters[x].rec.stillWaiting
    requires Touches(s, s', t, {e}, {x}, {Current(s.events[e])}) && PcOf(s, x) == Asleep(x)
    requires EventOk(s, e) && WaiterOk(s, x)
    ensures WaiterOk(s', x)
  {
    hide CountsOk, Joined, Touches;
    var n := Current(s.events[e]);
    assert Registered(s, n) && ValidEntry(s, e, n);
    GrantKeeps(s.waiters[x], n.index);
    LinksKept(s, s', t, {e}, {x}, {n}, x);
  }

  lemma GoSetHoldOk(s: State, t: nat, e: nat, was: bool, x: nat)
    requires Inv(s) && AtSetHold(s, t, e, was, x)
    ensures Inv(GoSetHold(s, t, e, was, x))
  {
    hide CountsOk, LinksOk, PhaseOk, ListOk, StateOk, LedgerOk, Touches, GoSetHold;
    assert EventOk(s, e) && WaiterOk(s, x);
    var s' := GoSetHold(s, t, e, was, x);
    if s.waiters[x].rec.stillWaiting {
      HeldAsleep(s, t, e, was, x);
      GrantTouches(s, s', t, e, was, x);
      assert CountsOk(s.waiters[x], Active(s, x));
      GrantList(s, s', t, e, was, x);
      GrantState(s, s', t, e, was, x);
      GrantLedger(s, s', t, e, was, x);
      GrantWaiter(s, s', t, e, was, x);
    } else {
      ServeTouches(s, s', t, e, was, x);
      ServeEvent(s, s', t, e, was, x);
      ServeWaiter(s, s', t, e, was, x);
    }
    StepKeeps(s, s', t, {e}, {x}, {Current(s.events[e])});
  }

  // A signal on a wait's condition changes nothing that the invariant speaks of.
  lemma NotifiedOk(s: State, x: nat)
    requires Inv(s) && x < |s.waiters|
    ensures Inv(Notified(s, x))
  {
    hide CountsOk, ListOk, GrantsOk;
    var s' := Notified(s, x);
    forall t | t in s'.threads ensures PcOk(s', t) { assert PcOk(s, t); }
    forall e | e in s'.events ensures EventOk(s', e) { NotifiedEvent(s, s', x, e); }
    forall w: nat | w < |s'.waiters| ensures WaiterOk(s', w) { NotifiedWaiter(s, s', x, w); }
  }

  lemma NotifiedEvent(s: State, s': State, x: nat, e: nat)
    requires EventsOk(s) && x < |s.waiters| && s' == Notified(s, x) && e in s.events
    ensures EventOk(s', e)
  {
    assert EventOk(s, e);
    assert forall n :: ValidEntry(s', e, n) == ValidEntry(s, e, n);
  }

  lemma NotifiedWaiter(s: State, s': State, x: nat, w: nat)
    requires WaitersOk(s) && x < |s.waiters| && s' == Notified(s, x) && w < |s.waiters|
    ensures WaiterOk(s', w)
  {
    assert WaiterOk(s, w);
    assert CountsOk(s'.waiters[w], Active(s, w));
    assert PhaseOk(s'.waiters[w], PcOf(s, w)) == PhaseOk(s.waiters[w], PcOf(s, w));
    hide CountsOk, Joining, Joined;
    assert forall n, e :: Listed(s', n, e) == Listed(s, n, e);
    assert forall n, e :: Granted(s', n, e) == Granted(s, n, e);
  }

  lemma ReleaseOk(s: State, t: nat, e: nat, x: nat)
    requires Inv(s) && t in s.threads && s.threads[t] == HandOver(e, x) && e in s.events && s.events[e].owner == Some(t)
    ensures Inv(Move(PutEvent(s, e, s.events[e].(owner := None)), t, Idle))
  {
    var s' := Move(PutEvent(s, e, s.events[e].(owner := None)), t, Idle);
    assert EventOk(s, e);
    ListKept(s, s', t, {e}, {}, {}, e);
    GrantsKept(s, s', t, {e}, {}, {}, e);
    StepKeeps(s, s', t, {e}, {}, {});
  }

  lemma GoHandOverOk(s: State, t: nat, e: nat, x: nat)
    requires Inv(s) && t in s.threads && s.threads[t] == HandOver(e, x) && PcOk(s, t)
    ensures Inv(GoHandOver(s, t, e, x))
  {
    hide Inv;
    NotifiedOk(s, x);
    ReleaseOk(Notified(s, x), t, e, x);
  }

  lemma GoSetNotifyOk(s: State, t: nat, e: nat, was: bool, x: nat)
    requires Inv(s) && t in s.threads && s.threads[t] == SetNotify(e, was, x) && PcOk(s, t)
    ensures Inv(GoSetNotify(s, t, e, was, x))
  {
    NotifiedOk(s, x);
    hide EventsOk, WaitersOk;
    var m := Notified(s, x);
    StepKeeps(m, GoSetNotify(s, t, e, was, x), t, {}, {}, {});
  }

  // ----------------------------------------------------- every step, every run

  lemma RouseOk(s: State, woken: set<nat>)
    requires Inv(s)
    ensures Inv(Rouse(s, woken))
  {
    hide CountsOk, ListOk, GrantsOk;
    var s' := Rouse(s, woken);
    forall t | t in s'.threads ensures PcOk(s', t) { assert PcOk(s, t); }
    forall e | e in s'.events ensures EventOk(s', e) { RouseEvent(s, s', woken, e); }
    forall w: nat | w < |s'.waiters| ensures WaiterOk(s', w) { RouseWaiter(s, s', woken, w); }
  }

  lemma RouseEvent(s: State, s': State, woken: set<nat>, e: nat)
    requires EventsOk(s) && s' == Rouse(s, woken) && e in s.events
    ensures EventOk(s', e)
  {
    assert EventOk(s, e);
    assert forall n :: ValidEntry(s', e, n) == ValidEntry(s, e, n);
  }

  lemma RouseWaiter(s: State, s': State, woken: set<nat>, w: nat)
    requires WaitersOk(s) && s' == Rouse(s, woken) && w < |s.waiters|
    ensures WaiterOk(s', w)
  {
    hide CountsOk, Joining, Joined;
    assert WaiterOk(s, w);
    assert forall n, e :: Listed(s', n, e) == Listed(s, n, e);
    assert forall n, e :: Granted(s', n, e) == Granted(s, n, e);
  }

  lemma GoOk(s: State, t: nat)
    requires Inv(s) && Enabled(s, t, Go)
    ensures Inv(GoFrom(s, t))
  {
    hide Inv, CountsOk;
    match s.threads[t]
    case Register(w, i) => GoRegisterOk(s, t, w, i);
    case Clean(w, i, e, j) =>
      if j < |s.events[e].waits| { GoCleanOk(s, t, w, i, e, j); }
      else if s.events[e].state { GoTakeOk(s, t, w, i, e, j); }
      else { GoEnlistOk(s, t, w, i, e, j); }
    case CleanHold(w, i, e, j, x) => GoCleanHoldOk(s, t, w, i, e, j, x);
    case Check(w) => GoCheckOk(s, t, w);
    case Finish(w, timedOut) => GoFinishOk(s, t, w, timedOut);
    case SetLock(e) => GoSetLockOk(s, t, e);
    case SetLoop(e, was) => GoSetLoopOk(s, t, e, was);
    case SetHold(e, was, x) => GoSetHoldOk(s, t, e, was, x);
    case HandOver(e, x) => GoHandOverOk(s, t, e, x);
    case SetNotify(e, was, x) => GoSetNotifyOk(s, t, e, was, x);
    case ResetLock(e) => GoResetOk(s, t, e);
    case SingleLock(e, limit) =>
      if s.events[e].owner.Some? { MoveOk(s, t, SingleReturned(e, true)); }
      else { GoSingleOk(s, t, e, if limit == Zero then SingleReturned(e, true) else SingleAsleep(e, limit, false)); }
  }

  /** Every step keeps the invariant. */
  lemma NextOk(s: State, t: nat, a: Action)
    requires Inv(s) && Enabled(s, t, a)
    ensures Inv(Next(s, t, a))
  {
    hide Inv;
    var p := s.threads[t];
    match a
    case BeginWait(es, waitAll, limit) => BeginWaitingOk(s, t, es, waitAll, limit);
    case BeginSet(e) => MoveOk(s, t, SetLock(e));
    case BeginReset(e) => MoveOk(s, t, ResetLock(e));
    case BeginSingle(e, limit) => MoveOk(s, t, SingleLock(e, limit));
    case Go => GoOk(s, t);
    case Wake =>
      if p.Asleep? { GoWakenOk(s, t, p.w, Check(p.w)); }
      else { GoSingleOk(s, t, p.e, SingleAsleep(p.e, p.limit, false)); }
    case TimeOut =>
      if p.Asleep? { GoWakenOk(s, t, p.w, Finish(p.w, true)); }
      else { MoveOk(s, t, SingleReturned(p.e, true)); }
    case Signal(woken) =>
      RouseOk(s, woken);
      MoveOk(Rouse(s, woken), t, Idle);
  }

  /** Every run keeps the invariant. */
  lemma {:induction false} LeadsOk(s: State, run: seq<Turn>, s': State)
    requires Inv(s) && Leads(s, run, s')
    ensures Inv(s')
    decreases |run|
  {
    if run != [] {
      NextOk(s, run[0].thread, run[0].action);
      LeadsOk(Next(s, run[0].thread, run[0].action), run[1..], s');
    }
  }

  lemma ReachableOk(s: State)
    requires Reachable(s)
    ensures Inv(s)
  {
    var s0, run :| Initial(s0) && Leads(s0, run, s);
    InitialOk(s0);
    LeadsOk(s0, run, s);
  }
}
