/** What whole critical sections do to an event and to the records of the waits
    on its list, with nobody else in between.  K names the waits. */
module Sections {
  import opened Records

  /** neosmart_wfmo_info_t_ */
  datatype Info<+K> = Info(waiter: K, index: nat)

  /** The records and the list that a section leaves, and State. */
  datatype Outcome<+K> = Outcome(records: map<K, Wfmo>, waits: seq<Info<K>>, state: bool)

  ghost predicate Known<K>(m: map<K, Wfmo>, ns: seq<Info<K>>) {
    forall n | n in ns :: n.waiter in m
  }

  function Occurrences<K(==)>(ns: seq<Info<K>>, w: K): nat {
    if ns == [] then 0 else (if ns[0].waiter == w then 1 else 0) + Occurrences(ns[1..], w)
  }

  /** Every list entry has a reference, and so has a wait that is still waiting. */
  ghost predicate Backed<K>(m: map<K, Wfmo>, ns: seq<Info<K>>) {
    Known(m, ns) && forall w | w in m :: Covered(m[w], Occurrences(ns, w))
  }

  predicate Covered(r: Wfmo, entries: nat) {
    && r.refCount >= entries + (if r.stillWaiting then 1 else 0)
    && (r.freed <==> r.refCount == 0)
    && (r.waitAll && r.stillWaiting ==> r.status >= entries)
  }

  // ------------------------------------------------------------- sections

  /** remove_if with RemoveExpiredWaitHelper; the waits in busy cannot be try-locked. */
  function Sweep<K(==)>(m: map<K, Wfmo>, ns: seq<Info<K>>, busy: set<K>): (map<K, Wfmo>, seq<Info<K>>)
    requires Known(m, ns)
    decreases |ns|
  {
    if ns == [] then (m, [])
    else
      var w := ns[0].waiter;
      if w in busy || m[w].stillWaiting then
        var (m', kept) := Sweep(m, ns[1..], busy);
        (m', [ns[0]] + kept)
      else
        Sweep(m[w := Discard(m[w])], ns[1..], busy)
  }

  /** SetEvent on an auto-reset event. */
  function SetAuto<K(==)>(m: map<K, Wfmo>, ns: seq<Info<K>>): Outcome<K>
    requires Known(m, ns)
    decreases |ns|
  {
    if ns == [] then Outcome(m, [], true)
    else
      var w := ns[0].waiter;
      if m[w].stillWaiting then Outcome(m[w := Grant(m[w], ns[0].index)], ns[1..], false)
      else SetAuto(m[w := Discard(m[w])], ns[1..])
  }

  /** SetEvent on a manual-reset event. */
  function SetManual<K(==)>(m: map<K, Wfmo>, ns: seq<Info<K>>): Outcome<K>
    requires Known(m, ns)
    decreases |ns|
  {
    if ns == [] then Outcome(m, [], true)
    else
      var w := ns[0].waiter;
      SetManual(m[w := if m[w].stillWaiting then Grant(m[w], ns[0].index) else Discard(m[w])], ns[1..])
  }

  function Set<K(==)>(autoReset: bool, m: map<K, Wfmo>, ns: seq<Info<K>>): Outcome<K>
    requires Known(m, ns)
  {
    if autoReset then SetAuto(m, ns) else SetManual(m, ns)
  }

  // ------------------------------------------------- references and asserts

  lemma {:induction false} OccurrencesConcat<K>(ms: seq<Info<K>>, ns: seq<Info<K>>, w: K)
    ensures Occurrences(ms + ns, w) == Occurrences(ms, w) + Occurrences(ns, w)
  {
    if ms == [] {
      assert ms + ns == ns;
    } else {
      assert (ms + ns)[1..] == ms[1..] + ns;
      OccurrencesConcat(ms[1..], ns, w);
    }
  }

  lemma WholeSlice<T>(s: seq<T>)
    ensures s[0..] == s && s[..0] == [] && s[|s|..] == []
  {
  }

  lemma SliceHead<T>(s: seq<T>, i: nat, j: nat)
    requires i < j <= |s|
    ensures s[i..j] == [s[i]] + s[i + 1..j]
  {
  }

  lemma HeadAndRest<T>(s: seq<T>, i: nat)
    requires i < |s|
    ensures s[i..] == [s[i]] + s[i + 1..]
  {
  }

  lemma OneOccurrence<K>(n: Info<K>, w: K)
    ensures Occurrences([n], w) == if n.waiter == w then 1 else 0
  {
    assert [n][1..] == [];
  }

  lemma {:induction false} Occurs<K>(ns: seq<Info<K>>, w: K)
    ensures Occurrences(ns, w) > 0 <==> exists n :: n in ns && n.waiter == w
  {
    if ns != [] {
      Occurs(ns[1..], w);
      assert forall n :: n in ns <==> n == ns[0] || n in ns[1..];
    }
  }

  /** Serving the first entry of a backed list: the asserts of that section hold
      and the rest is backed. */
  lemma BackedServe<K>(m: map<K, Wfmo>, ns: seq<Info<K>>)
    requires Backed(m, ns) && ns != []
    ensures var w := ns[0].waiter; var r := m[w];
      && !r.freed && r.refCount >= 1
      && (if r.stillWaiting
          then r.refCount >= 2 && (r.waitAll ==> r.status >= 1) && Backed(m[w := Grant(r, ns[0].index)], ns[1..])
          else Backed(m[w := Discard(r)], ns[1..]))
  {
    var w := ns[0].waiter;
    var m' := m[w := if m[w].stillWaiting then Grant(m[w], ns[0].index) else Discard(m[w])];
    forall v | v in m' ensures Covered(m'[v], Occurrences(ns[1..], v)) {
      assert Covered(m[v], Occurrences(ns, v));
    }
  }

  /** A SetEvent on an auto-reset event that has ns to go is on its way to its outcome. */
  ghost predicate Serving<K>(m: map<K, Wfmo>, ns: seq<Info<K>>, goal: Outcome<K>) {
    Backed(m, ns) && SetAuto(m, ns) == goal
  }

  lemma ServeStep<K>(m: map<K, Wfmo>, n: Info<K>, rest: seq<Info<K>>, goal: Outcome<K>)
    requires Serving(m, [n] + rest, goal)
    ensures n.waiter in m && m[n.waiter].refCount >= 1
    ensures if m[n.waiter].stillWaiting
            then (m[n.waiter].waitAll ==> m[n.waiter].status >= 1)
              && goal == Outcome(m[n.waiter := Grant(m[n.waiter], n.index)], rest, false)
            else Serving(m[n.waiter := Discard(m[n.waiter])], rest, goal)
  {
    BackedServe(m, [n] + rest);
    assert ([n] + rest)[0] == n && ([n] + rest)[1..] == rest;
  }

  /** ... and on a manual-reset one. */
  ghost predicate Telling<K>(m: map<K, Wfmo>, ns: seq<Info<K>>, goal: Outcome<K>) {
    Backed(m, ns) && SetManual(m, ns) == goal
  }

  lemma TellStep<K>(m: map<K, Wfmo>, n: Info<K>, rest: seq<Info<K>>, goal: Outcome<K>)
    requires Telling(m, [n] + rest, goal)
    ensures n.waiter in m && m[n.waiter].refCount >= 1
    ensures m[n.waiter].stillWaiting && m[n.waiter].waitAll ==> m[n.waiter].status >= 1
    ensures Telling(
      m[n.waiter := if m[n.waiter].stillWaiting then Grant(m[n.waiter], n.index) else Discard(m[n.waiter])], rest, goal)
  {
    BackedServe(m, [n] + rest);
    assert ([n] + rest)[0] == n && ([n] + rest)[1..] == rest;
  }

  /** Every reference a section gives up is that of an entry it takes off the list. */
  ghost predicate Balanced<K>(m: map<K, Wfmo>, ns: seq<Info<K>>, m': map<K, Wfmo>, ns': seq<Info<K>>) {
    && m'.Keys == m.Keys
    && forall w | w in m :: m'[w].refCount - Occurrences(ns', w) == m[w].refCount - Occurrences(ns, w)
  }

  // --------------------------------------------------------- the clean-up

  /** The entries that a sweep keeps. */
  function Kept<K(==)>(m: map<K, Wfmo>, ns: seq<Info<K>>, busy: set<K>): seq<Info<K>>
    requires Known(m, ns)
  {
    if ns == [] then []
    else (if ns[0].waiter in busy || m[ns[0].waiter].stillWaiting then [ns[0]] else []) + Kept(m, ns[1..], busy)
  }

  /** Two records that differ in references only. */
  predicate SameNews(r: Wfmo, r': Wfmo) {
    r'.waitAll == r.waitAll && r'.stillWaiting == r.stillWaiting && r'.status == r.status && r'.notified == r.notified
  }

  lemma {:induction false} KeptSame<K>(m: map<K, Wfmo>, m': map<K, Wfmo>, ns: seq<Info<K>>, busy: set<K>)
    requires Known(m, ns) && m'.Keys == m.Keys && forall w | w in m :: SameNews(m[w], m'[w])
    ensures Kept(m', ns, busy) == Kept(m, ns, busy)
  {
    if ns != [] { KeptSame(m, m', ns[1..], busy); }
  }

  /** A sweep drops expired entries, tells no wait anything, and keeps the
      others in order; what is busy stays. */
  lemma {:induction false} SweepMeaning<K>(m: map<K, Wfmo>, ns: seq<Info<K>>, busy: set<K>)
    requires Known(m, ns)
    ensures Sweep(m, ns, busy).1 == Kept(m, ns, busy)
    ensures Balanced(m, ns, Sweep(m, ns, busy).0, Kept(m, ns, busy))
    ensures forall w | w in m :: SameNews(m[w], Sweep(m, ns, busy).0[w])
    ensures forall w | w in m && w in busy :: Sweep(m, ns, busy).0[w] == m[w]
    ensures forall n | n in Kept(m, ns, busy) :: n in ns
    ensures forall n | n in ns && n.waiter in busy :: n in Kept(m, ns, busy)
    decreases |ns|
  {
    if ns != [] {
      var w := ns[0].waiter;
      if w in busy || m[w].stillWaiting {
        SweepMeaning(m, ns[1..], busy);
        assert Kept(m, ns, busy)[1..] == Kept(m, ns[1..], busy);
      } else {
        var m' := m[w := Discard(m[w])];
        SweepMeaning(m', ns[1..], busy);
        KeptSame(m, m', ns[1..], busy);
        assert Kept(m, ns, busy) == Kept(m, ns[1..], busy);
      }
    }
  }

  /** Dropping the entry of an expired wait: the assert of that section holds and the rest is backed. */
  lemma BackedDrop<K>(m: map<K, Wfmo>, ms: seq<Info<K>>, n: Info<K>, ns: seq<Info<K>>)
    requires Backed(m, ms + [n] + ns) && n.waiter in m && !m[n.waiter].stillWaiting
    ensures !m[n.waiter].freed && m[n.waiter].refCount >= 1
    ensures Backed(m[n.waiter := Discard(m[n.waiter])], ms + ns)
  {
    var m' := m[n.waiter := Discard(m[n.waiter])];
    assert forall x | x in ms + ns :: x in ms + [n] + ns;
    forall v | v in m'
      ensures m[v].refCount >= Occurrences(ms + [n] + ns, v) >= if v == n.waiter then 1 else 0
      ensures m'[v].refCount >= 0 && Covered(m'[v], Occurrences(ms + ns, v))
    {
      OccurrencesConcat(ms, ns, v);
      OccurrencesConcat(ms + [n], ns, v);
      OccurrencesConcat(ms, [n], v);
      OneOccurrence(n, v);
      assert Covered(m[v], Occurrences(ms + [n] + ns, v));
    }
  }

  lemma KnownParts<K>(m: map<K, Wfmo>, ms: seq<Info<K>>, ns: seq<Info<K>>)
    ensures Known(m, ms + ns) <==> Known(m, ms) && Known(m, ns)
  {
    assert forall n :: n in ms + ns <==> n in ms || n in ns;
  }

  lemma SweepHead<K>(m: map<K, Wfmo>, n: Info<K>, rest: seq<Info<K>>, busy: set<K>)
    requires Known(m, [n] + rest) && Known(m, rest) && n.waiter in m
    ensures Sweep(m, [n] + rest, busy) ==
      if n.waiter in busy || m[n.waiter].stillWaiting then (Sweep(m, rest, busy).0, [n] + Sweep(m, rest, busy).1)
      else Sweep(m[n.waiter := Discard(m[n.waiter])], rest, busy)
  {
    assert ([n] + rest)[1..] == rest;
  }

  /** A sweep that has kept ms and has ns to go is on its way to its result. */
  ghost predicate Sweeping<K>(m: map<K, Wfmo>, ms: seq<Info<K>>, ns: seq<Info<K>>, busy: set<K>, goal: (map<K, Wfmo>,
                              seq<Info<K>>)) {
    && Backed(m, ms + ns) && Known(m, ns)
    && Sweep(m, ns, busy).0 == goal.0 && ms + Sweep(m, ns, busy).1 == goal.1
  }

  lemma SweepStep<K>(m: map<K, Wfmo>, ms: seq<Info<K>>, n: Info<K>, rest: seq<Info<K>>, busy: set<K>,
                     goal: (map<K, Wfmo>, seq<Info<K>>))
    requires Sweeping(m, ms, [n] + rest, busy, goal)
    ensures n.waiter in m
    ensures var drop := !(n.waiter in busy) && !m[n.waiter].stillWaiting;
      if drop then m[n.waiter].refCount >= 1 && Sweeping(m[n.waiter := Discard(m[n.waiter])], ms, rest, busy, goal)
      else Sweeping(m, ms + [n], rest, busy, goal)
  {
    assert ms + [n] + rest == ms + ([n] + rest);
    hide Backed, Sweep;
    KnownParts(m, [n], rest);
    assert n.waiter in m by { assert n in [n]; }
    hide Known;
    SweepHead(m, n, rest, busy);
    if !(n.waiter in busy) && !m[n.waiter].stillWaiting {
      BackedDrop(m, ms, n, rest);
      KeysKnown(m, m[n.waiter := Discard(m[n.waiter])], rest);
    } else {
      var kept := Sweep(m, rest, busy).1;
      assert ms + ([n] + kept) == ms + [n] + kept;
    }
  }

  lemma SweepStarts<K>(m: map<K, Wfmo>, ns: seq<Info<K>>, busy: set<K>)
    requires Backed(m, ns)
    ensures Sweeping(m, [], ns, busy, Sweep(m, ns, busy))
  {
    assert [] + ns == ns && [] + Sweep(m, ns, busy).1 == Sweep(m, ns, busy).1;
  }

  lemma SweepEnds<K>(m: map<K, Wfmo>, ms: seq<Info<K>>, busy: set<K>, goal: (map<K, Wfmo>, seq<Info<K>>))
    requires Sweeping(m, ms, [], busy, goal)
    ensures (m, ms) == goal && Backed(m, ms)
  {
    assert ms + [] == ms;
  }

  lemma KeysKnown<K>(m: map<K, Wfmo>, m': map<K, Wfmo>, ns: seq<Info<K>>)
    requires m'.Keys == m.Keys && Known(m, ns)
    ensures Known(m', ns)
  {
  }

  /** A sweep keeps the list backed. */
  lemma {:induction false} SweepKeepsBacked<K>(m: map<K, Wfmo>, ms: seq<Info<K>>, ns: seq<Info<K>>, busy: set<K>)
    requires Backed(m, ms + ns) && Known(m, ns)
    ensures Backed(Sweep(m, ns, busy).0, ms + Sweep(m, ns, busy).1)
    decreases |ns|
  {
    if ns != [] {
      var n := ns[0];
      var rest := ns[1..];
      assert ms + ns == ms + [n] + rest;
      if n.waiter in busy || m[n.waiter].stillWaiting {
        SweepKeepsBacked(m, ms + [n], rest, busy);
        assert ms + [n] + Sweep(m, rest, busy).1 == ms + ([n] + Sweep(m, rest, busy).1);
      } else {
        BackedDrop(m, ms, n, rest);
        SweepKeepsBacked(m[n.waiter := Discard(m[n.waiter])], ms, rest, busy);
      }
    }
  }

  // ------------------------------------------------------------ SetEvent

  /** How many entries precede the first one whose wait is still waiting. */
  function Expired<K(==)>(m: map<K, Wfmo>, ns: seq<Info<K>>): (k: nat)
    requires Known(m, ns)
    ensures k <= |ns| && (forall j | 0 <= j < k :: !m[ns[j].waiter].stillWaiting)
    ensures k < |ns| ==> m[ns[k].waiter].stillWaiting
  {
    if ns == [] || m[ns[0].waiter].stillWaiting then 0 else 1 + Expired(m, ns[1..])
  }

  lemma {:induction false} ExpiredSame<K>(m: map<K, Wfmo>, m': map<K, Wfmo>, ns: seq<Info<K>>)
    requires Known(m, ns) && m'.Keys == m.Keys && forall w | w in m :: SameNews(m[w], m'[w])
    ensures Expired(m', ns) == Expired(m, ns)
  {
    if ns != [] && !m[ns[0].waiter].stillWaiting { ExpiredSame(m, m', ns[1..]); }
  }

  /** An auto-reset SetEvent gives its signal to the earliest wait still waiting
      and leaves the entries after it alone; State stays set only when there is
      none.  Nobody else learns anything. */
  lemma {:induction false} AutoMeaning<K>(m: map<K, Wfmo>, ns: seq<Info<K>>)
    requires Known(m, ns)
    ensures var k := Expired(m, ns); var o := SetAuto(m, ns);
      && o.state == (k == |ns|)
      && o.waits == (if k == |ns| then [] else ns[k + 1..])
      && o.records.Keys == m.Keys
      && forall w | w in m ::
           if k < |ns| && w == ns[k].waiter then SameNews(Grant(m[w], ns[k].index), o.records[w])
           else SameNews(m[w], o.records[w])
    decreases |ns|
  {
    if ns != [] {
      var w := ns[0].waiter;
      if !m[w].stillWaiting {
        var m' := m[w := Discard(m[w])];
        AutoMeaning(m', ns[1..]);
        ExpiredSame(m, m', ns[1..]);
        var k := Expired(m', ns[1..]);
        if k < |ns| - 1 { assert ns[1..][k + 1..] == ns[k + 2..]; }
      }
    }
  }

  /** ... and gives up the references of the entries it takes off. */
  lemma {:induction false} AutoBalanced<K>(m: map<K, Wfmo>, ns: seq<Info<K>>)
    requires Known(m, ns)
    ensures Balanced(m, ns, SetAuto(m, ns).records, SetAuto(m, ns).waits)
    decreases |ns|
  {
    if ns != [] && !m[ns[0].waiter].stillWaiting {
      AutoBalanced(m[ns[0].waiter := Discard(m[ns[0].waiter])], ns[1..]);
    }
  }

  /** The news for a wait of a manual-reset SetEvent, whose entries are ns. */
  function Told<K(==)>(r: Wfmo, ns: seq<Info<K>>, w: K): Wfmo {
    if !r.stillWaiting || Occurrences(ns, w) == 0 then r
    else if r.waitAll then r.(status := r.status - Occurrences(ns, w), notified := true)
    else r.(status := FirstIndex(ns, w), notified := true, stillWaiting := false)
  }

  function FirstIndex<K(==)>(ns: seq<Info<K>>, w: K): nat
    requires Occurrences(ns, w) > 0
  {
    if ns[0].waiter == w then ns[0].index else FirstIndex(ns[1..], w)
  }

  /** A manual-reset SetEvent empties the list and leaves State set.  Every wait
      on the list that is still waiting is told: a wait-any, of its first entry;
      a wait-all, of all its entries. */
  lemma {:induction false} ManualMeaning<K>(m: map<K, Wfmo>, ns: seq<Info<K>>)
    requires Known(m, ns)
    ensures var o := SetManual(m, ns);
      && o.state && o.waits == []
      && Balanced(m, ns, o.records, [])
      && forall w | w in m :: SameNews(Told(m[w], ns, w), o.records[w])
    decreases |ns|
  {
    if ns != [] {
      var w := ns[0].waiter;
      var m' := m[w := if m[w].stillWaiting then Grant(m[w], ns[0].index) else Discard(m[w])];
      ManualMeaning(m', ns[1..]);
    }
  }

  /** Every SetEvent keeps the lists backed, and leaves State set only with an empty list. */
  lemma {:induction false} SetKeepsBacked<K>(autoReset: bool, m: map<K, Wfmo>, ns: seq<Info<K>>)
    requires Backed(m, ns)
    ensures var o := Set(autoReset, m, ns); Backed(o.records, o.waits) && (o.state ==> o.waits == [])
    decreases |ns|
  {
    if ns != [] {
      BackedServe(m, ns);
      var w := ns[0].waiter;
      if !m[w].stillWaiting { SetKeepsBacked(autoReset, m[w := Discard(m[w])], ns[1..]); }
      else if !autoReset { SetKeepsBacked(autoReset, m[w := Grant(m[w], ns[0].index)], ns[1..]); }
    }
  }

  // --------------------------------------- registration for several events

  /** An event as the sections see it. */
  datatype Shape<+K> = Shape(autoReset: bool, state: bool, waits: seq<Info<K>>)

  datatype World<+E, +K> = World(events: map<E, Shape<K>>, records: map<K, Wfmo>)

  ghost predicate Closed<E, K>(g: World<E, K>) {
    forall e | e in g.events :: Known(g.records, g.events[e].waits)
  }

  /** Round i of the registration loop of wait w, on event e: clean up, then
      consume the event or join its list. */
  function Round<E(==), K(==)>(g: World<E, K>, w: K, e: E, i: nat, busy: set<K>): World<E, K>
    requires Closed(g) && e in g.events && w in g.records
  {
    var ev := g.events[e];
    var (m, kept) := Sweep(g.records, ev.waits, busy + {w});
    SweepMeaning(g.records, ev.waits, busy + {w});
    if ev.state then
      World(g.events[e := Shape(ev.autoReset, !ev.autoReset, kept)], m[w := Take(m[w], i)])
    else
      World(g.events[e := Shape(ev.autoReset, false, kept + [Info(w, i)])], m[w := Enlist(m[w])])
  }

  /** One round consumes a signalled event or joins the list of an unsignalled
      one, and nothing else changes but references of expired entries. */
  lemma RoundMeaning<E, K>(g: World<E, K>, w: K, e: E, i: nat, busy: set<K>)
    requires Closed(g) && e in g.events && w in g.records
    ensures var g' := Round(g, w, e, i, busy); var ev := g.events[e];
      && Closed(g') && g'.events.Keys == g.events.Keys
      && (forall f | f in g.events && f != e :: g'.events[f] == g.events[f])
      && g'.events[e].autoReset == ev.autoReset && g'.events[e].state == (ev.state && !ev.autoReset)
      && g'.events[e].waits == Kept(g.records, ev.waits, busy + {w}) + (if ev.state then [] else [Info(w, i)])
      && Balanced(g.records, ev.waits, g'.records, g'.events[e].waits)
      && (forall v | v in g.records && v != w :: SameNews(g.records[v], g'.records[v]))
      && g'.records[w] == (if ev.state then Take(g.records[w], i) else Enlist(g.records[w]))
      && (forall n | n in ev.waits && n.waiter == w :: n in g'.events[e].waits)
  {
    var ev := g.events[e];
    SweepMeaning(g.records, ev.waits, busy + {w});
    forall v ensures Occurrences(Kept(g.records, ev.waits, busy + {w}) + [Info(w, i)], v)
      == Occurrences(Kept(g.records, ev.waits, busy + {w}), v) + if v == w then 1 else 0
    {
      OccurrencesConcat(Kept(g.records, ev.waits, busy + {w}), [Info(w, i)], v);
      OneOccurrence(Info(w, i), v);
    }
  }

  // What a round does to State and to the record of its wait.
  lemma RoundBasics<E, K>(g: World<E, K>, w: K, e: E, i: nat, busy: set<K>)
    requires Closed(g) && e in g.events && w in g.records
    ensures var g' := Round(g, w, e, i, busy);
      && Closed(g') && g'.events.Keys == g.events.Keys && w in g'.records
      && (forall f | f in g.events && f != e :: g'.events[f] == g.events[f])
      && g'.events[e].autoReset == g.events[e].autoReset
      && g'.events[e].state == (g.events[e].state && !g.events[e].autoReset)
      && g'.records[w] == (if g.events[e].state then Take(g.records[w], i) else Enlist(g.records[w]))
  {
    hide Round, Sweep, Kept;
    RoundMeaning(g, w, e, i, busy);
  }

  lemma RoundJoins<E, K>(g: World<E, K>, w: K, e: E, i: nat, busy: set<K>)
    requires Closed(g) && e in g.events && w in g.records
    ensures e in Round(g, w, e, i, busy).events
    ensures !g.events[e].state ==> Info(w, i) in Round(g, w, e, i, busy).events[e].waits
  {
    hide Round, Sweep, Kept;
    RoundMeaning(g, w, e, i, busy);
  }

  /** The registration loop from round i: a wait-any stops at the first event it
      can consume, and the second result is its index; -1 when there is none. */
  function Rounds<E(==), K(==)>(g: World<E, K>, w: K, es: seq<E>, i: nat, busy: set<K>): (r: (World<E, K>, int))
    requires Closed(g) && w in g.records && i <= |es| && forall e | e in es :: e in g.events
    decreases |es| - i
  {
    if i == |es| then (g, -1)
    else
      RoundMeaning(g, w, es[i], i, busy);
      if g.events[es[i]].state && !g.records[w].waitAll then (Round(g, w, es[i], i, busy), i)
      else Rounds(Round(g, w, es[i], i, busy), w, es, i + 1, busy)
  }

  /** The position of the first signalled event from i on, or -1. */
  function FirstSignalled<E(==), K>(events: map<E, Shape<K>>, es: seq<E>, i: nat): (k: int)
    requires i <= |es| && forall e | e in es :: e in events
    ensures k == -1 || i <= k < |es|
    ensures forall j | i <= j < (if k == -1 then |es| else k) :: !events[es[j]].state
    ensures k != -1 ==> events[es[k]].state
    decreases |es| - i
  {
    if i == |es| then -1 else if events[es[i]].state then i else FirstSignalled(events, es, i + 1)
  }

  lemma {:induction false} FirstSame<E, K>(g: map<E, Shape<K>>, g': map<E, Shape<K>>, es: seq<E>, i: nat)
    requires i <= |es| && g'.Keys == g.Keys && forall e | e in es :: e in g && g'[e].state == g[e].state
    ensures FirstSignalled(g', es, i) == FirstSignalled(g, es, i)
    decreases |es| - i
  {
    if i < |es| { FirstSame(g, g', es, i + 1); }
  }

  /** The events of es that are not signalled, counted by position. */
  function Lacking<E(==), K>(events: map<E, Shape<K>>, es: seq<E>, i: nat): nat
    requires i <= |es| && forall e | e in es :: e in events
    decreases |es| - i
  {
    if i == |es| then 0 else (if events[es[i]].state then 0 else 1) + Lacking(events, es, i + 1)
  }

  lemma {:induction false} LackingSame<E, K>(g: map<E, Shape<K>>, g': map<E, Shape<K>>, es: seq<E>, i: nat)
    requires i <= |es| && (forall e | e in es :: e in g && e in g')
    requires forall j | i <= j < |es| :: g'[es[j]].state == g[es[j]].state
    ensures Lacking(g', es, i) == Lacking(g, es, i)
    decreases |es| - i
  {
    if i < |es| { LackingSame(g, g', es, i + 1); }
  }

  /** Whatever the kind of the wait: only the events of its array can change,
      and an event on whose list it is keeps it there. */
  lemma {:induction false} RoundsKeep<E, K>(g: World<E, K>, w: K, es: seq<E>, i: nat, busy: set<K>)
    requires Closed(g) && w in g.records && i <= |es| && forall e | e in es :: e in g.events
    ensures var g' := Rounds(g, w, es, i, busy).0;
      && g'.events.Keys == g.events.Keys && w in g'.records
      && (forall e | e in g.events && e !in es[i..] :: g'.events[e] == g.events[e])
      && (forall e, n | e in g.events && n in g.events[e].waits && n.waiter == w :: n in g'.events[e].waits)
    decreases |es| - i
  {
    hide Round, Balanced, Kept, Sweep, Occurrences, SameNews;
    if i < |es| {
      RoundMeaning(g, w, es[i], i, busy);
      assert es[i..] == [es[i]] + es[i + 1..];
      if !(g.events[es[i]].state && !g.records[w].waitAll) {
        RoundsKeep(Round(g, w, es[i], i, busy), w, es, i + 1, busy);
      }
    }
  }

  /** Registering a wait-any consumes the first signalled event of its array, if
      there is one; it has a reference for each event before that. */
  lemma {:induction false} AnyRecord<E, K>(g: World<E, K>, w: K, es: seq<E>, i: nat, busy: set<K>)
    requires Closed(g) && w in g.records && !g.records[w].waitAll && i <= |es| && forall e | e in es :: e in g.events
    ensures var (g', k) := Rounds(g, w, es, i, busy);
      && k == FirstSignalled(g.events, es, i)
      && w in g'.records
      && g'.records[w] == g.records[w].(refCount := g.records[w].refCount + (if k == -1 then |es| else k) - i,
                                        status := if k == -1 then g.records[w].status else k)
    decreases |es| - i
  {
    hide Round, Balanced, Kept, Sweep, Occurrences, SameNews;
    if i < |es| {
      RoundBasics(g, w, es[i], i, busy);
      if !g.events[es[i]].state {
        var h := Round(g, w, es[i], i, busy);
        AnyRecord(h, w, es, i + 1, busy);
        FirstSame(g.events, h.events, es, i + 1);
      }
    }
  }

  /** ... leaves every other State as it was ... */
  lemma {:induction false} AnyStates<E, K>(g: World<E, K>, w: K, es: seq<E>, i: nat, busy: set<K>)
    requires Closed(g) && w in g.records && !g.records[w].waitAll && i <= |es| && forall e | e in es :: e in g.events
    ensures var (g', k) := Rounds(g, w, es, i, busy);
      && g'.events.Keys == g.events.Keys && (k == -1 || 0 <= k < |es|)
      && (forall e | e in g.events ::
            g'.events[e].state == (g.events[e].state && !(k != -1 && e == es[k] && g.events[e].autoReset)))
    decreases |es| - i
  {
    hide Round, Balanced, Kept, Sweep, Occurrences, SameNews;
    if i < |es| {
      RoundBasics(g, w, es[i], i, busy);
      if !g.events[es[i]].state { AnyStates(Round(g, w, es[i], i, busy), w, es, i + 1, busy); }
    }
  }

  /** ... and every event after that one alone ... */
  lemma {:induction false} AnyLater<E, K>(g: World<E, K>, w: K, es: seq<E>, i: nat, busy: set<K>)
    requires Closed(g) && w in g.records && !g.records[w].waitAll && i <= |es| && forall e | e in es :: e in g.events
    ensures var (g', k) := Rounds(g, w, es, i, busy);
      && g'.events.Keys == g.events.Keys && (k == -1 || i <= k < |es|)
      && (k != -1 ==> forall e | e in g.events && e !in es[i..k + 1] :: g'.events[e] == g.events[e])
    decreases |es| - i
  {
    hide Round, Balanced, Kept, Sweep, Occurrences, SameNews;
    if i < |es| {
      RoundBasics(g, w, es[i], i, busy);
      if !g.events[es[i]].state {
        var h := Round(g, w, es[i], i, busy);
        AnyLater(h, w, es, i + 1, busy);
        var k := Rounds(h, w, es, i + 1, busy).1;
        if k != -1 { SliceHead(es, i, k + 1); }
      } else {
        SliceHead(es, i, i + 1);
      }
    }
  }

  /** ... and is listed on each event before it. */
  lemma {:induction false} AnyListed<E, K>(g: World<E, K>, w: K, es: seq<E>, i: nat, busy: set<K>)
    requires Closed(g) && w in g.records && !g.records[w].waitAll && i <= |es| && forall e | e in es :: e in g.events
    ensures var (g', k) := Rounds(g, w, es, i, busy);
      && g'.events.Keys == g.events.Keys && (k == -1 || i <= k < |es|)
      && (forall j | i <= j < (if k == -1 then |es| else k) :: Info(w, j) in g'.events[es[j]].waits)
    decreases |es| - i
  {
    hide Round, Balanced, Kept, Sweep, Occurrences, SameNews;
    AnyRecord(g, w, es, i, busy);
    RoundsKeep(g, w, es, i, busy);
    if i < |es| && !g.events[es[i]].state {
      RoundMeaning(g, w, es[i], i, busy);
      var h := Round(g, w, es[i], i, busy);
      assert Info(w, i) in h.events[es[i]].waits;
      RoundsKeep(h, w, es, i + 1, busy);
      AnyListed(h, w, es, i + 1, busy);
    }
  }

  /** Registering a wait-all on distinct events: EventsLeft drops by the number of
      signalled ones, and there is a reference for each of the others. */
  lemma {:induction false} AllRecord<E, K>(g: World<E, K>, w: K, es: seq<E>, i: nat, busy: set<K>)
    requires Closed(g) && w in g.records && g.records[w].waitAll && i <= |es| && forall e | e in es :: e in g.events
    requires forall p, q | 0 <= p < q < |es| :: es[p] != es[q]
    ensures var (g', k) := Rounds(g, w, es, i, busy); var lacks := Lacking(g.events, es, i);
      && k == -1 && w in g'.records
      && g'.records[w] == g.records[w].(refCount := g.records[w].refCount + lacks,
                                        status := g.records[w].status - (|es| - i - lacks))
    decreases |es| - i
  {
    hide Round, Balanced, Kept, Sweep, Occurrences, SameNews;
    if i < |es| {
      RoundBasics(g, w, es[i], i, busy);
      var h := Round(g, w, es[i], i, busy);
      AllRecord(h, w, es, i + 1, busy);
      LackingSame(g.events, h.events, es, i + 1);
    }
  }

  /** ... it consumes every signalled event and is listed on every other one. */
  lemma {:induction false} AllListed<E, K>(g: World<E, K>, w: K, es: seq<E>, i: nat, busy: set<K>)
    requires Closed(g) && w in g.records && g.records[w].waitAll && i <= |es| && forall e | e in es :: e in g.events
    requires forall p, q | 0 <= p < q < |es| :: es[p] != es[q]
    ensures var g' := Rounds(g, w, es, i, busy).0;
      && g'.events.Keys == g.events.Keys
      && (forall j | i <= j < |es| ::
            && g'.events[es[j]].state == (g.events[es[j]].state && !g.events[es[j]].autoReset)
            && (!g.events[es[j]].state ==> Info(w, j) in g'.events[es[j]].waits))
    decreases |es| - i
  {
    hide Round, Balanced, Kept, Sweep, Occurrences, SameNews;
    if i < |es| {
      RoundBasics(g, w, es[i], i, busy);
      RoundJoins(g, w, es[i], i, busy);
      var h := Round(g, w, es[i], i, busy);
      RoundsKeep(h, w, es, i + 1, busy);
      AllListed(h, w, es, i + 1, busy);
      assert es[i] !in es[i + 1..];
    }
  }

  // ------------------------------------------------- all events together

  /** The list entries of w, over all events. */
  ghost function Total<E, K>(events: map<E, Shape<K>>, w: K): nat
    decreases |events|
  {
    if events == map[] then 0
    else
      var e :| e in events;
      Occurrences(events[e].waits, w) + Total(events - {e}, w)
  }

  lemma {:induction false} TotalSplit<E, K>(events: map<E, Shape<K>>, e: E, w: K)
    requires e in events
    ensures Total(events, w) == Occurrences(events[e].waits, w) + Total(events - {e}, w)
    decreases |events|
  {
    var f :| f in events && Total(events, w) == Occurrences(events[f].waits, w) + Total(events - {f}, w);
    if f != e {
      TotalSplit(events - {f}, e, w);
      TotalSplit(events - {e}, f, w);
      assert events - {f} - {e} == events - {e} - {f};
    }
  }

  /** Every list entry has a reference, over all events. */
  ghost predicate WorldBacked<E, K>(g: World<E, K>) {
    Closed(g) && forall w | w in g.records :: Covered(g.records[w], Total(g.events, w))
  }

  lemma BackedOne<E, K>(g: World<E, K>, e: E)
    requires WorldBacked(g) && e in g.events
    ensures Backed(g.records, g.events[e].waits)
  {
    forall w | w in g.records ensures Covered(g.records[w], Occurrences(g.events[e].waits, w)) {
      TotalSplit(g.events, e, w);
    }
  }

  /** A section on one event that gives up exactly the references of the entries it
      removes, and leaves a wait-all as many events as it has entries, keeps the
      whole world backed. */
  lemma StillBacked<E, K>(g: World<E, K>, e: E, ev: Shape<K>, m: map<K, Wfmo>)
    requires WorldBacked(g) && e in g.events && Balanced(g.records, g.events[e].waits, m, ev.waits)
    requires Known(m, ev.waits)
    requires forall w | w in m :: m[w].freed <==> m[w].refCount == 0
    requires forall w | w in m :: m[w].stillWaiting ==> g.records[w].stillWaiting
    requires forall w | w in m && m[w].stillWaiting && m[w].waitAll ::
      m[w].status - Occurrences(ev.waits, w) >= Total(g.events - {e}, w)
    ensures WorldBacked(World(g.events[e := ev], m))
  {
    hide Occurrences;
    forall w | w in m ensures Covered(m[w], Total(g.events[e := ev], w)) {
      assert Covered(g.records[w], Total(g.events, w));
      TotalSplit(g.events, e, w);
      TotalSplit(g.events[e := ev], e, w);
      assert g.events[e := ev] - {e} == g.events - {e};
    }
    forall f | f in g.events && f != e ensures Known(m, g.events[f].waits) {}
  }

  /** SetEvent on e, in a world of events. */
  function SetOn<E(==), K(==)>(g: World<E, K>, e: E): World<E, K>
    requires Closed(g) && e in g.events
  {
    var o := Set(g.events[e].autoReset, g.records, g.events[e].waits);
    World(g.events[e := Shape(g.events[e].autoReset, o.state, o.waits)], o.records)
  }

  lemma SetKeepsWorld<E, K>(g: World<E, K>, e: E)
    requires WorldBacked(g) && e in g.events
    ensures WorldBacked(SetOn(g, e))
  {
    var ev := g.events[e];
    var o := Set(ev.autoReset, g.records, ev.waits);
    BackedOne(g, e);
    SetKeepsBacked(ev.autoReset, g.records, ev.waits);
    if ev.autoReset {
      AutoMeaning(g.records, ev.waits);
      AutoBalanced(g.records, ev.waits);
      AutoCounts(g.records, ev.waits);
    }
    else { ManualMeaning(g.records, ev.waits); }
    hide Set, SetAuto, SetManual;
    forall w | w in o.records && o.records[w].stillWaiting && o.records[w].waitAll
      ensures o.records[w].status - Occurrences(o.waits, w) >= Total(g.events - {e}, w)
    {
      assert Covered(g.records[w], Total(g.events, w));
      TotalSplit(g.events, e, w);
    }
    StillBacked(g, e, Shape(ev.autoReset, o.state, o.waits), o.records);
  }

  // A wait-all is counted down by the entries it loses.
  lemma AutoCounts<K>(m: map<K, Wfmo>, ns: seq<Info<K>>)
    requires Known(m, ns)
    ensures SetAuto(m, ns).records.Keys == m.Keys
    ensures forall w | w in m && m[w].stillWaiting && m[w].waitAll :: var o := SetAuto(m, ns);
      o.records[w].status - Occurrences(o.waits, w) == m[w].status - Occurrences(ns, w)
    decreases |ns|
  {
    if ns != [] && !m[ns[0].waiter].stillWaiting {
      AutoCounts(m[ns[0].waiter := Discard(m[ns[0].waiter])], ns[1..]);
    }
  }

  lemma {:induction false} KeptFewer<K>(m: map<K, Wfmo>, ns: seq<Info<K>>, busy: set<K>, w: K)
    requires Known(m, ns)
    ensures Occurrences(Kept(m, ns, busy), w) <= Occurrences(ns, w)
    ensures w in busy ==> Occurrences(Kept(m, ns, busy), w) == Occurrences(ns, w)
  {
    if ns != [] {
      KeptFewer(m, ns[1..], busy, w);
      var k := Kept(m, ns[1..], busy);
      if ns[0].waiter in busy || m[ns[0].waiter].stillWaiting {
        assert Kept(m, ns, busy) == [ns[0]] + k && ([ns[0]] + k)[0] == ns[0] && ([ns[0]] + k)[1..] == k;
      } else {
        assert Kept(m, ns, busy) == k;
      }
    }
  }

  // The entries on the list after a round.
  lemma RoundEntries<E, K>(g: World<E, K>, w: K, e: E, i: nat, busy: set<K>, v: K)
    requires Closed(g) && e in g.events && w in g.records
    ensures e in Round(g, w, e, i, busy).events
    ensures var n := Occurrences(Round(g, w, e, i, busy).events[e].waits, v);
      if v == w then n == Occurrences(g.events[e].waits, v) + (if g.events[e].state then 0 else 1)
      else n <= Occurrences(g.events[e].waits, v)
  {
    var kept := Kept(g.records, g.events[e].waits, busy + {w});
    RoundMeaning(g, w, e, i, busy);
    KeptFewer(g.records, g.events[e].waits, busy + {w}, v);
    var tail: seq<Info<K>> := if g.events[e].state then [] else [Info(w, i)];
    assert Round(g, w, e, i, busy).events[e].waits == kept + tail;
    hide Round, Kept;
    OccurrencesConcat(kept, tail, v);
    if !g.events[e].state { OneOccurrence(Info(w, i), v); }
  }

  lemma SweepFreed<K>(m: map<K, Wfmo>, ns: seq<Info<K>>, busy: set<K>)
    requires Backed(m, ns)
    ensures var m' := Sweep(m, ns, busy).0; forall v | v in m' :: m'[v].freed <==> m'[v].refCount == 0
  {
    SweepFromNothing(m, ns, busy);
    hide Sweep;
    var (m', kept) := Sweep(m, ns, busy);
    assert forall v | v in m' :: Covered(m'[v], Occurrences(kept, v));
  }

  lemma RoundFreed<E, K>(g: World<E, K>, w: K, e: E, i: nat, busy: set<K>)
    requires WorldBacked(g) && e in g.events && w in g.records && g.records[w].stillWaiting
    ensures var m := Round(g, w, e, i, busy).records;
      m.Keys == g.records.Keys && forall v | v in m :: m[v].freed <==> m[v].refCount == 0
  {
    var ns := g.events[e].waits;
    BackedOne(g, e);
    assert Covered(g.records[w], Total(g.events, w));
    assert Known(g.records, ns);
    hide WorldBacked, Backed, Known, Kept, Occurrences, Balanced;
    SweepFreed(g.records, ns, busy + {w});
    SweepMeaning(g.records, ns, busy + {w});
    assert Sweep(g.records, ns, busy + {w}).0.Keys == g.records.Keys by { SweepKeys(g.records, ns, busy + {w}); }
  }

  lemma {:induction false} SweepKeys<K>(m: map<K, Wfmo>, ns: seq<Info<K>>, busy: set<K>)
    requires Known(m, ns)
    ensures Sweep(m, ns, busy).0.Keys == m.Keys
  {
    SweepMeaning(m, ns, busy);
  }

  /** A round keeps the world backed.  A wait-all starts it with more events left than entries. */
  lemma RoundKeepsWorld<E, K>(g: World<E, K>, w: K, e: E, i: nat, busy: set<K>)
    requires WorldBacked(g) && e in g.events && w in g.records && g.records[w].stillWaiting
    requires g.records[w].waitAll ==> g.records[w].status > Total(g.events, w)
    ensures var g' := Round(g, w, e, i, busy);
      && WorldBacked(g') && w in g'.records && g'.records[w].stillWaiting
      && g'.records[w].waitAll == g.records[w].waitAll
      && (g.records[w].waitAll ==>
            g'.records[w].status - Total(g'.events, w) == g.records[w].status - Total(g.events, w) - 1)
  {
    var g' := Round(g, w, e, i, busy);
    var ev' := g'.events[e];
    RoundMeaning(g, w, e, i, busy);
    RoundFreed(g, w, e, i, busy);
    assert Known(g'.records, ev'.waits);
    hide Round, Occurrences, Sweep, Kept, Closed;
    forall v | v in g'.records && g'.records[v].stillWaiting && g'.records[v].waitAll
      ensures g'.records[v].status - Occurrences(ev'.waits, v) >= Total(g.events - {e}, v)
    {
      assert Covered(g.records[v], Total(g.events, v));
      TotalSplit(g.events, e, v);
      RoundEntries(g, w, e, i, busy, v);
    }
    assert g'.events == g.events[e := ev'];
    TotalSplit(g.events, e, w);
    TotalSplit(g'.events, e, w);
    RoundEntries(g, w, e, i, busy, w);
    assert g'.events - {e} == g.events - {e};
    StillBacked(g, e, ev', g'.records);
  }

  lemma SweepFromNothing<K>(m: map<K, Wfmo>, ns: seq<Info<K>>, busy: set<K>)
    requires Backed(m, ns)
    ensures Backed(Sweep(m, ns, busy).0, Sweep(m, ns, busy).1)
  {
    assert [] + ns == ns && [] + Sweep(m, ns, busy).1 == Sweep(m, ns, busy).1;
    SweepKeepsBacked(m, [], ns, busy);
  }

  lemma {:induction false} TotalZero<E, K>(events: map<E, Shape<K>>, w: K)
    requires forall e | e in events :: Occurrences(events[e].waits, w) == 0
    ensures Total(events, w) == 0
    decreases |events|
  {
    if events != map[] {
      var f :| f in events && Total(events, w) == Occurrences(events[f].waits, w) + Total(events - {f}, w);
      TotalZero(events - {f}, w);
    }
  }

  /** A wait that has just been created is on no list. */
  lemma NewWaitBacked<E, K>(g: World<E, K>, w: K, count: nat, waitAll: bool)
    requires WorldBacked(g) && w !in g.records
    ensures WorldBacked(World(g.events, g.records[w := Open(count, waitAll)])) && Total(g.events, w) == 0
  {
    var m := g.records[w := Open(count, waitAll)];
    forall e | e in g.events ensures Known(m, g.events[e].waits) && Occurrences(g.events[e].waits, w) == 0 {
      assert Known(g.records, g.events[e].waits);
      Occurs(g.events[e].waits, w);
    }
    TotalZero(g.events, w);
  }

  /** Registration only adds references to the record of its own wait. */
  lemma {:induction false} RoundsRecord<E, K>(g: World<E, K>, w: K, es: seq<E>, i: nat, busy: set<K>)
    requires Closed(g) && w in g.records && i <= |es| && forall e | e in es :: e in g.events
    ensures var m := Rounds(g, w, es, i, busy).0.records;
      w in m && m[w].refCount >= g.records[w].refCount && m[w].stillWaiting == g.records[w].stillWaiting
    decreases |es| - i
  {
    hide Round, Balanced, Kept, Sweep, Occurrences, SameNews;
    if i < |es| {
      RoundMeaning(g, w, es[i], i, busy);
      if !(g.events[es[i]].state && !g.records[w].waitAll) {
        RoundsRecord(Round(g, w, es[i], i, busy), w, es, i + 1, busy);
      }
    }
  }

  /** A wait that has n rounds of registration to go. */
  ghost predicate Registering<E, K>(g: World<E, K>, w: K, n: nat) {
    && WorldBacked(g) && w in g.records && g.records[w].stillWaiting
    && (g.records[w].waitAll ==> g.records[w].status >= Total(g.events, w) + n)
  }

  /** The registration loop at round i is on its way to its result. */
  ghost predicate Underway<E, K>(g: World<E, K>, w: K, es: seq<E>, i: nat, busy: set<K>, goal: (World<E, K>, int)) {
    && i <= |es| && Registering(g, w, |es| - i) && (forall e | e in es :: e in g.events)
    && Rounds(g, w, es, i, busy) == goal
  }

  lemma UnderwayStep<E, K>(g: World<E, K>, w: K, es: seq<E>, i: nat, busy: set<K>, goal: (World<E, K>, int))
    requires Underway(g, w, es, i, busy, goal) && i < |es|
    ensures WorldBacked(g) && es[i] in g.events && w in g.records && (g.records[w].waitAll ==> g.records[w].status >= 1)
    ensures if g.events[es[i]].state && !g.records[w].waitAll then
              goal == (Round(g, w, es[i], i, busy), i) && WorldBacked(goal.0)
            else Underway(Round(g, w, es[i], i, busy), w, es, i + 1, busy, goal)
  {
    RoundKeepsWorld(g, w, es[i], i, busy);
    RoundMeaning(g, w, es[i], i, busy);
    hide Round, WorldBacked, Closed;
  }

  lemma UnderwayEnds<E, K>(g: World<E, K>, w: K, es: seq<E>, busy: set<K>, goal: (World<E, K>, int))
    requires Underway(g, w, es, |es|, busy, goal)
    ensures goal == (g, -1) && WorldBacked(g)
  {
  }

  lemma {:induction false} AllNeverStops<E, K>(g: World<E, K>, w: K, es: seq<E>, i: nat, busy: set<K>)
    requires Closed(g) && w in g.records && g.records[w].waitAll && i <= |es| && forall e | e in es :: e in g.events
    ensures Rounds(g, w, es, i, busy).1 == -1
    decreases |es| - i
  {
    hide Round, Balanced, Kept, Sweep, Occurrences, SameNews;
    if i < |es| {
      RoundMeaning(g, w, es[i], i, busy);
      AllNeverStops(Round(g, w, es[i], i, busy), w, es, i + 1, busy);
    }
  }

  /** Polling several events: a wait-any succeeds if and only if one of them is
      signalled, and takes the first.  A wait-all takes every signalled one and
      reports a time-out whatever it took, even all of them; the index it reports
      is the number of events it lacks. */
  lemma ZeroMilliseconds<E, K>(g: World<E, K>, w: K, es: seq<E>, waitAll: bool, busy: set<K>)
    requires Closed(g) && w in g.records && g.records[w] == Open(|es|, waitAll) && forall e | e in es :: e in g.events
    ensures var (h, k) := Rounds(g, w, es, 0, busy); var timedOut := k == -1;
      && w in h.records && h.events.Keys == g.events.Keys
      && (!waitAll ==>
            && (timedOut <==> forall e | e in es :: !g.events[e].state)
            && h.records[w].status == k == FirstSignalled(g.events, es, 0))
      && (waitAll ==> timedOut)
      && (waitAll && (forall p, q | 0 <= p < q < |es| :: es[p] != es[q]) ==>
            && h.records[w].status == Lacking(g.events, es, 0)
            && forall e | e in es :: h.events[e].state == (g.events[e].state && !g.events[e].autoReset))
  {
    RoundsKeep(g, w, es, 0, busy);
    if !waitAll {
      AnyRecord(g, w, es, 0, busy);
    } else {
      AllNeverStops(g, w, es, 0, busy);
      if forall p, q | 0 <= p < q < |es| :: es[p] != es[q] {
        AllRecord(g, w, es, 0, busy);
        AllListed(g, w, es, 0, busy);
      }
    }
  }
}
